/** JSON values as the extraction step hands them to the reconciliation layer,
    together with the few pieces of Python dictionary semantics the layer relies on:
    truthiness (`not x`), `dict.get` with and without a default. */
module Json {

  datatype Option<T> = None | Some(value: T)

  /** A JSON value.  Floating-point numbers are not distinguished: the layer passes
      them through untouched. */
  datatype Value =
    | Null
    | Bool(b: bool)
    | Int(i: int)
    | Str(s: string)
    | Arr(items: seq<Value>)
    | Obj(fields: map<string, Value>)

  /** One record (a Python dict) and the whole extraction document. */
  type Record = map<string, Value>
  type Document = map<string, Value>

  /** Python truthiness: `None`, `False`, `0`, `""`, `[]` and `{}` are false. */
  predicate Truthy(v: Value) {
    match v
    case Null => false
    case Bool(b) => b
    case Int(i) => i != 0
    case Str(s) => s != []
    case Arr(xs) => xs != []
    case Obj(m) => m != map[]
  }

  /** `m.get(k)` */
  function Get(m: Record, k: string): Value {
    if k in m then m[k] else Null
  }

  /** `m.get(k, d)` */
  function GetOr(m: Record, k: string, d: Value): Value {
    if k in m then m[k] else d
  }

  /** A dict that `not x` treats as present: a non-empty object. */
  predicate IsFilledObj(v: Value) {
    v.Obj? && v.fields != map[]
  }

  /** An id as Python stores it in a document: `None` or an integer. */
  function IdValue(id: Option<int>): Value {
    match id
    case None => Null
    case Some(n) => Int(n)
  }

  /** Every element of a list is a dict. */
  predicate AllObjs(xs: seq<Value>) {
    forall i | 0 <= i < |xs| :: xs[i].Obj?
  }
}
