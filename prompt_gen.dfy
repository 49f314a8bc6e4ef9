/** The prompt-template generator (`JSONPromptGen`): a schema (a model class with
    typed fields) becomes a JSON template telling the extraction step which fields
    to fill and with what kind of value. */
module PromptGen {
  import opened Json

  /** A field's type annotation. `Optional[T]` is `Union([T, NoneT])`. */
  datatype Annotation =
    | StrT | IntT | BoolT | FloatT | DatetimeT
    | BareList                                             // `list` with no element type
    | ListOf(elem: Annotation)                             // `list[T]`
    | Model(name: string, fields: seq<(string, Annotation)>)   // a model class, fields in declared order
    | Union(args: seq<Annotation>)
    | NoneT                                                // `type(None)`
    | Other                                                // any other annotation

  function Optional(t: Annotation): Annotation {
    Union([t, NoneT])
  }

  /** The generated JSON, with object keys in insertion order. */
  datatype Tree =
    | Leaf(v: Value)
    | Node(entries: seq<(string, Tree)>)
    | ListNode(items: seq<Tree>)

  // ---------------------------------------------------------------------------
  // A size measure, for termination through `resolve_type`

  function Size(t: Annotation): nat
    decreases t, if t.Model? then |t.fields| + 1 else if t.Union? then |t.args| + 1 else 0
  {
    match t
    case ListOf(e) => 1 + Size(e)
    case Model(_, fs) => 1 + FieldsSize(t, |fs|)
    case Union(args) => 1 + ArgsSize(t, |args|)
    case _ => 1
  }

  function FieldsSize(m: Annotation, n: nat): nat
    requires m.Model? && n <= |m.fields|
    decreases m, n
  {
    if n == 0 then 0
    else
      assert m.fields[n - 1] in m.fields;
      FieldsSize(m, n - 1) + Size(m.fields[n - 1].1)
  }

  function ArgsSize(u: Annotation, n: nat): nat
    requires u.Union? && n <= |u.args|
    decreases u, n
  {
    if n == 0 then 0
    else
      assert u.args[n - 1] in u.args;
      ArgsSize(u, n - 1) + Size(u.args[n - 1])
  }

  lemma {:induction false} FieldsSizeBound(m: Annotation, n: nat, i: nat)
    requires m.Model? && i < n <= |m.fields|
    ensures Size(m.fields[i].1) <= FieldsSize(m, n)
    decreases n
  {
    if i < n - 1 {
      FieldsSizeBound(m, n - 1, i);
    }
  }

  /** A field's annotation is smaller than its model. */
  lemma FieldSmaller(m: Annotation, i: nat)
    requires m.Model? && i < |m.fields|
    ensures Size(m.fields[i].1) < Size(m)
  {
    FieldsSizeBound(m, |m.fields|, i);
  }

  lemma {:induction false} ArgsSizeBound(u: Annotation, n: nat, i: nat)
    requires u.Union? && i < n <= |u.args|
    ensures Size(u.args[i]) <= ArgsSize(u, n)
    decreases n
  {
    if i < n - 1 {
      ArgsSizeBound(u, n - 1, i);
    }
  }

  /** A Union's argument is smaller than the Union. */
  lemma ArgSmaller(u: Annotation, i: nat)
    requires u.Union? && i < |u.args|
    ensures Size(u.args[i]) < Size(u)
  {
    ArgsSizeBound(u, |u.args|, i);
  }

  // ---------------------------------------------------------------------------
  // resolve_type, get_type_string

  /** The arguments of a Union other than `None`, in order. */
  function NonNone(args: seq<Annotation>): (r: seq<Annotation>)
    ensures forall i | 0 <= i < |r| :: r[i] != NoneT
    ensures forall i | 0 <= i < |r| :: r[i] in args
    ensures r == [] <==> forall j | 0 <= j < |args| :: args[j] == NoneT
    ensures r != [] ==> exists j | 0 <= j < |args| :: args[j] == r[0] && forall k | 0 <= k < j :: args[k] == NoneT
  {
    if args == [] then []
    else if args[0] == NoneT then
      var r := NonNone(args[1..]);
      assert forall j | 1 <= j < |args| :: args[j] == args[1..][j - 1];
      r
    else [args[0]] + NonNone(args[1..])
  }

  /** `NonNone` keeps every argument other than `None`, as often as it occurs. */
  lemma {:induction false} NonNoneKeepsAll(args: seq<Annotation>)
    ensures multiset(NonNone(args)) == multiset(args)[NoneT := 0]
  {
    if args != [] {
      NonNoneKeepsAll(args[1..]);
      assert args == [args[0]] + args[1..];
      if args[0] != NoneT {
        assert NonNone(args) == [args[0]] + NonNone(args[1..]);
      }
    }
  }

  /** The arguments other than `None` keep their order: filtering a
      concatenation is the concatenation of the filtered parts, so an argument
      before another in `args` stays before it in `NonNone(args)`. */
  lemma {:induction false} NonNoneInOrder(a: seq<Annotation>, b: seq<Annotation>)
    ensures NonNone(a + b) == NonNone(a) + NonNone(b)
  {
    if a == [] {
      assert a + b == b;
    } else {
      assert a == [a[0]] + a[1..];
      NonNoneInOrder(a[1..], b);
      NonNoneInOrderStep(a[0], a[1..], b);
    }
  }

  /** The step of `NonNoneInOrder`: putting one argument in front of both sides
      keeps the concatenation law. */
  lemma NonNoneInOrderStep(x: Annotation, tail: seq<Annotation>, b: seq<Annotation>)
    requires NonNone(tail + b) == NonNone(tail) + NonNone(b)
    ensures NonNone([x] + tail + b) == NonNone([x] + tail) + NonNone(b)
  {
    ConsAppend(x, tail, b);
    NonNoneCons(x, tail);
    NonNoneCons(x, tail + b);
    var left, right := NonNone(tail), NonNone(b);
    if x != NoneT {
      ConsAppend(x, left, right);
    }
  }

  /** Consing in front of a concatenation; kept apart so that the `NonNone`
      terms above stay out of the sequence reasoning. */
  lemma ConsAppend(x: Annotation, left: seq<Annotation>, right: seq<Annotation>)
    ensures [x] + (left + right) == ([x] + left) + right
  {
  }

  /** One step of `NonNone`: the first argument is dropped if it is `None`, kept otherwise. */
  lemma NonNoneCons(x: Annotation, rest: seq<Annotation>)
    ensures NonNone([x] + rest) == if x == NoneT then NonNone(rest) else [x] + NonNone(rest)
  {
    assert ([x] + rest)[1..] == rest;
  }

  /** `resolve_type`: a Union resolves to the resolved type of its first argument
      other than `None`, or to `str` when there is none; anything else is itself. */
  function ResolveType(t: Annotation): (r: Annotation)
    ensures !r.Union?
    ensures !t.Union? ==> r == t
    ensures t.Union? && (forall j | 0 <= j < |t.args| :: t.args[j] == NoneT) ==> r == StrT
    ensures Size(r) <= Size(t)
    decreases t
  {
    match t
    case Union(args) =>
      var nonNone := NonNone(args);
      if nonNone == [] then StrT
      else
        var j :| 0 <= j < |args| && args[j] == nonNone[0];
        ArgSmaller(t, j);
        assert args[j] in args;
        ResolveType(nonNone[0])
    case _ => t
  }

  /** The main case of `resolve_type`: a Union with an argument other than `None`
      resolves as its first such argument does. */
  lemma ResolveTypeUnwraps(t: Annotation)
    requires t.Union? && exists j | 0 <= j < |t.args| :: t.args[j] != NoneT
    ensures exists j | 0 <= j < |t.args| ::
      && t.args[j] != NoneT
      && (forall k | 0 <= k < j :: t.args[k] == NoneT)
      && ResolveType(t) == ResolveType(t.args[j])
  {
    var r := NonNone(t.args);
    assert r != [];
    assert ResolveType(t) == ResolveType(r[0]);
    var j :| 0 <= j < |t.args| && t.args[j] == r[0] && forall k | 0 <= k < j :: t.args[k] == NoneT;
    assert t.args[j] != NoneT;
  }

  /** `Optional[X]` resolves as X does, for any X other than `None`. */
  lemma OptionalResolves(x: Annotation)
    requires x != NoneT
    ensures ResolveType(Optional(x)) == ResolveType(x)
  {
    assert Optional(x).args[0] != NoneT;
    ResolveTypeUnwraps(Optional(x));
  }

  /** The annotation is a Union that admits `None`. */
  predicate IsOptional(t: Annotation) {
    t.Union? && NoneT in t.args
  }

  /** `get_type_string` */
  function TypeString(t: Annotation): (r: string)
    ensures r == "unknown" <==> !(t.StrT? || t.BoolT? || t.IntT? || t.FloatT? || t.BareList? || t.Model? || t.DatetimeT?)
  {
    match t
    case StrT => "str"
    case BoolT => "bool"
    case IntT => "int"
    case FloatT => "float"
    case BareList => "list"
    case Model(_, _) => "object"
    case DatetimeT => "datetime (YYYY-MM-DDTHH:MM:SS)"
    case _ => "unknown"
  }

  // ---------------------------------------------------------------------------
  // Ordered objects

  function KeysOf(es: seq<(string, Tree)>): seq<string> {
    seq(|es|, i requires 0 <= i < |es| => es[i].0)
  }

  /** The value stored under `k`, if any. */
  function Lookup(es: seq<(string, Tree)>, k: string): Option<Tree> {
    if es == [] then None
    else if es[0].0 == k then Some(es[0].1)
    else Lookup(es[1..], k)
  }

  /** `obj[k] = v` on an insertion-ordered dict: an existing key keeps its position
      and takes the new value, a new key goes last. */
  function Put(es: seq<(string, Tree)>, k: string, v: Tree): (r: seq<(string, Tree)>)
    ensures Lookup(r, k) == Some(v)
    ensures forall k' | k' != k :: Lookup(r, k') == Lookup(es, k')
    ensures k !in KeysOf(es) ==> r == es + [(k, v)]
    ensures forall e | e in r :: e in es || e == (k, v)
  {
    if es == [] then [(k, v)]
    else if es[0].0 == k then
      assert KeysOf(es)[0] == k;
      [(k, v)] + es[1..]
    else
      assert KeysOf(es[1..]) == KeysOf(es)[1..];
      [es[0]] + Put(es[1..], k, v)
  }

  // ---------------------------------------------------------------------------
  // build_fields, as a specification

  /** A name ending in `_id` other than patient_id and visit_id: never templated. */
  predicate IsForeignId(name: string) {
    |name| >= 3 && name[|name| - 3..] == "_id" && name != "patient_id" && name != "visit_id"
  }

  /** `{"type": ..., "optional": ...}` */
  function LeafEntry(t: Annotation, optional: bool): Tree {
    Node([("type", Leaf(Str(TypeString(t)))), ("optional", Leaf(Bool(optional)))])
  }

  /** The template of a model. */
  function Template(m: Annotation, pid: int): Tree
    requires m.Model?
    decreases Size(m), 1, 0
  {
    Node(TemplateEntries(m, |m.fields|, pid))
  }

  /** The template's entries once the first `n` fields have been processed. */
  function TemplateEntries(m: Annotation, n: nat, pid: int): seq<(string, Tree)>
    requires m.Model? && n <= |m.fields|
    decreases Size(m), 0, n
  {
    if n == 0 then []
    else
      var acc := TemplateEntries(m, n - 1, pid);
      var (name, ann) := m.fields[n - 1];
      if IsForeignId(name) then acc
      else if name == "patient_id" then Put(acc, name, Leaf(Int(pid)))
      else
        FieldSmaller(m, n - 1);
        Put(acc, name, FieldEntry(ann, pid))
  }

  /** The entry for one field: a list gives `{"type": "list", "items": ...}`, a model
      its nested template, anything else a leaf entry. */
  function FieldEntry(ann: Annotation, pid: int): Tree
    decreases Size(ann), 2, 0
  {
    var t := ResolveType(ann);
    if t.ListOf? then
      Node([("type", Leaf(Str("list"))),
            ("items", if t.elem.Model? then Template(t.elem, pid) else LeafEntry(t.elem, false))])
    else if t.Model? then Template(t, pid)
    else LeafEntry(t, IsOptional(ann))
  }

  // ---------------------------------------------------------------------------
  // build_fields, get_prompt_template, generate_json_prompt

  /** `build_fields(model_cls)`: one pass over the declared fields, recursing into
      nested models. */
  method BuildFields(m: Annotation, pid: int) returns (r: Tree)
    requires m.Model?
    ensures r == Template(m, pid)
    decreases Size(m)
  {
    var result: seq<(string, Tree)> := [];
    for i := 0 to |m.fields|
      invariant result == TemplateEntries(m, i, pid)
    {
      var (name, ann) := m.fields[i];
      if IsForeignId(name) {
        continue;
      }
      if name == "patient_id" {
        result := Put(result, name, Leaf(Int(pid)));
        continue;
      }
      FieldSmaller(m, i);
      var resolved := ResolveType(ann);
      var optional := IsOptional(ann);
      var entry: Tree;
      if resolved.ListOf? {
        var inner := resolved.elem;
        var items: Tree;
        if inner.Model? {
          items := BuildFields(inner, pid);
        } else {
          items := LeafEntry(inner, false);
        }
        entry := Node([("type", Leaf(Str("list"))), ("items", items)]);
      } else if resolved.Model? {
        entry := BuildFields(resolved, pid);
      } else {
        entry := LeafEntry(resolved, optional);
      }
      result := Put(result, name, entry);
    }
    r := Node(result);
  }

  /** `get_prompt_template` */
  method GetPromptTemplate(m: Annotation, pid: int) returns (r: Tree)
    requires m.Model?
    ensures r == Template(m, pid)
  {
    r := BuildFields(m, pid);
  }

  /** ASCII lower-casing (`str.lower` on class names). */
  function Lower(s: string): (r: string)
    ensures |r| == |s|
    ensures forall i | 0 <= i < |r| :: !('A' <= r[i] <= 'Z')
    ensures forall i | 0 <= i < |s| && !('A' <= s[i] <= 'Z') :: r[i] == s[i]
    ensures forall i | 0 <= i < |s| && 'A' <= s[i] <= 'Z' :: 'a' <= r[i] <= 'z' && r[i] as int - 'a' as int == s[i] as int - 'A' as int
  {
    seq(|s|, i requires 0 <= i < |s| => if 'A' <= s[i] <= 'Z' then (s[i] as int + 32) as char else s[i])
  }

  /** Lower-casing twice is lower-casing once. */
  lemma LowerIdempotent(s: string)
    ensures Lower(Lower(s)) == Lower(s)
  {
  }

  /** The value stored for one schema: its template, wrapped in a one-element list
      when the schema's flag is set. */
  function Wrapped(t: Tree, wrapInList: bool): Tree {
    if wrapInList then ListNode([t]) else t
  }

  /** The prompt entry of schema `i`: its lower-cased class name and its template,
      wrapped when its flag is set. */
  function PromptEntry(schemas: seq<(Annotation, bool)>, i: nat, pid: int): (string, Tree)
    requires i < |schemas| && schemas[i].0.Model?
  {
    (Lower(schemas[i].0.name), Wrapped(Template(schemas[i].0, pid), schemas[i].1))
  }

  /** The prompt's entries once the first `n` schemas have been processed. */
  function PromptEntries(schemas: seq<(Annotation, bool)>, n: nat, pid: int): seq<(string, Tree)>
    requires n <= |schemas| && forall i | 0 <= i < |schemas| :: schemas[i].0.Model?
  {
    if n == 0 then []
    else
      var (schema, wrap) := schemas[n - 1];
      Put(PromptEntries(schemas, n - 1, pid), Lower(schema.name), Wrapped(Template(schema, pid), wrap))
  }

  /** `generate_json_prompt` */
  method GenerateJsonPrompt(schemas: seq<(Annotation, bool)>, pid: int) returns (r: Tree)
    requires forall i | 0 <= i < |schemas| :: schemas[i].0.Model?
    ensures r == Node(PromptEntries(schemas, |schemas|, pid))
  {
    var template: seq<(string, Tree)> := [];
    for i := 0 to |schemas|
      invariant template == PromptEntries(schemas, i, pid)
    {
      var (schema, wrapInList) := schemas[i];
      var key := Lower(schema.name);
      var prompt := GetPromptTemplate(schema, pid);
      if wrapInList {
        template := Put(template, key, ListNode([prompt]));
      } else {
        template := Put(template, key, prompt);
      }
    }
    r := Node(template);
  }

  // ---------------------------------------------------------------------------
  // Properties

  /** No key ending in `_id`, other than patient_id and visit_id, at any depth. */
  ghost predicate NoForeignIds(t: Tree) {
    match t
    case Leaf(_) => true
    case Node(es) => forall i | 0 <= i < |es| :: !IsForeignId(es[i].0) && NoForeignIds(es[i].1)
    case ListNode(items) => forall i | 0 <= i < |items| :: NoForeignIds(items[i])
  }

  /** Every patient_id key, at any depth, holds the given patient id. */
  ghost predicate PatientIdIs(t: Tree, pid: int) {
    match t
    case Leaf(_) => true
    case Node(es) => forall i | 0 <= i < |es| ::
      (es[i].0 == "patient_id" ==> es[i].1 == Leaf(Int(pid))) && PatientIdIs(es[i].1, pid)
    case ListNode(items) => forall i | 0 <= i < |items| :: PatientIdIs(items[i], pid)
  }

  ghost predicate WellFormedTemplate(t: Tree, pid: int) {
    NoForeignIds(t) && PatientIdIs(t, pid)
  }

  lemma LeafEntryWellFormed(t: Annotation, optional: bool, pid: int)
    ensures WellFormedTemplate(LeafEntry(t, optional), pid)
  {
    var es := LeafEntry(t, optional).entries;
    assert es[0].0 == "type" && es[1].0 == "optional";
  }

  /** `{"type": "list", "items": items}` is well formed when its items are. */
  lemma ListEntryWellFormed(items: Tree, pid: int)
    requires WellFormedTemplate(items, pid)
    ensures WellFormedTemplate(Node([("type", Leaf(Str("list"))), ("items", items)]), pid)
  {
    var es := [("type", Leaf(Str("list"))), ("items", items)];
    assert es[0].0 == "type" && es[1].0 == "items";
  }

  /** Storing a well-formed entry under a key a template may hold keeps it well formed. */
  lemma PutWellFormed(es: seq<(string, Tree)>, k: string, v: Tree, pid: int)
    requires WellFormedTemplate(Node(es), pid) && WellFormedTemplate(v, pid)
    requires !IsForeignId(k) && (k == "patient_id" ==> v == Leaf(Int(pid)))
    ensures WellFormedTemplate(Node(Put(es, k, v)), pid)
  {
    var r := Put(es, k, v);
    forall i | 0 <= i < |r|
      ensures !IsForeignId(r[i].0) && NoForeignIds(r[i].1)
      ensures (r[i].0 == "patient_id" ==> r[i].1 == Leaf(Int(pid))) && PatientIdIs(r[i].1, pid)
    {
      assert r[i] in r;
      if r[i] != (k, v) {
        var j :| 0 <= j < |es| && es[j] == r[i];
      }
    }
  }

  /** Every template, at every depth, omits foreign `_id` fields and gives every
      patient_id the patient id passed in. */
  lemma {:induction false} TemplateWellFormed(m: Annotation, pid: int)
    requires m.Model?
    ensures WellFormedTemplate(Template(m, pid), pid)
    decreases Size(m), 1, 0
  {
    TemplateEntriesWellFormed(m, |m.fields|, pid);
  }

  lemma {:induction false} TemplateEntriesWellFormed(m: Annotation, n: nat, pid: int)
    requires m.Model? && n <= |m.fields|
    ensures WellFormedTemplate(Node(TemplateEntries(m, n, pid)), pid)
    decreases Size(m), 0, n
  {
    if n > 0 {
      TemplateEntriesWellFormed(m, n - 1, pid);
      var name, ann := m.fields[n - 1].0, m.fields[n - 1].1;
      if IsForeignId(name) {
      } else if name == "patient_id" {
        PatientIdWellFormed(m, n, pid);
      } else {
        FieldSmaller(m, n - 1);
        FieldEntryWellFormed(ann, pid);
        OtherFieldWellFormed(m, n, pid);
      }
    }
  }

  /** Storing the patient id keeps the template well formed. */
  lemma PatientIdWellFormed(m: Annotation, n: nat, pid: int)
    requires m.Model? && 0 < n <= |m.fields| && m.fields[n - 1].0 == "patient_id"
    requires WellFormedTemplate(Node(TemplateEntries(m, n - 1, pid)), pid)
    ensures WellFormedTemplate(Node(TemplateEntries(m, n, pid)), pid)
  {
    assert !IsForeignId("patient_id");
    KeptFieldStep(m, n, pid, Leaf(Int(pid)));
    PutWellFormed(TemplateEntries(m, n - 1, pid), "patient_id", Leaf(Int(pid)), pid);
  }

  /** Storing a kept field's entry keeps the template well formed. */
  lemma OtherFieldWellFormed(m: Annotation, n: nat, pid: int)
    requires m.Model? && 0 < n <= |m.fields|
    requires !IsForeignId(m.fields[n - 1].0) && m.fields[n - 1].0 != "patient_id"
    requires WellFormedTemplate(Node(TemplateEntries(m, n - 1, pid)), pid)
    requires WellFormedTemplate(FieldEntry(m.fields[n - 1].1, pid), pid)
    ensures WellFormedTemplate(Node(TemplateEntries(m, n, pid)), pid)
  {
    var v := FieldEntry(m.fields[n - 1].1, pid);
    KeptFieldStep(m, n, pid, v);
    PutWellFormed(TemplateEntries(m, n - 1, pid), m.fields[n - 1].0, v, pid);
  }

  /** One step of the field loop, for a field that is kept. */
  lemma KeptFieldStep(m: Annotation, n: nat, pid: int, v: Tree)
    requires m.Model? && 0 < n <= |m.fields| && !IsForeignId(m.fields[n - 1].0)
    requires v == if m.fields[n - 1].0 == "patient_id" then Leaf(Int(pid)) else FieldEntry(m.fields[n - 1].1, pid)
    ensures TemplateEntries(m, n, pid) == Put(TemplateEntries(m, n - 1, pid), m.fields[n - 1].0, v)
  {
  }

  lemma {:induction false} FieldEntryWellFormed(ann: Annotation, pid: int)
    ensures WellFormedTemplate(FieldEntry(ann, pid), pid)
    decreases Size(ann), 2, 0
  {
    var t := ResolveType(ann);
    if t.ListOf? {
      if t.elem.Model? {
        TemplateWellFormed(t.elem, pid);
        ListEntryWellFormed(Template(t.elem, pid), pid);
      } else {
        LeafEntryWellFormed(t.elem, false, pid);
        ListEntryWellFormed(LeafEntry(t.elem, false), pid);
      }
    } else if t.Model? {
      TemplateWellFormed(t, pid);
    } else {
      LeafEntryWellFormed(t, IsOptional(ann), pid);
    }
  }

  /** The names of the fields a template keeps, in declared order. */
  function KeptNames(fs: seq<(string, Annotation)>): seq<string> {
    if fs == [] then []
    else
      var n := |fs| - 1;
      KeptNames(fs[..n]) + (if IsForeignId(fs[n].0) then [] else [fs[n].0])
  }

  predicate DistinctNames(fs: seq<(string, Annotation)>) {
    forall i, j | 0 <= i < j < |fs| :: fs[i].0 != fs[j].0
  }

  lemma {:induction false} KeptNamesFrom(fs: seq<(string, Annotation)>, k: string)
    ensures k in KeptNames(fs) ==> exists i | 0 <= i < |fs| :: fs[i].0 == k
    decreases |fs|
  {
    if fs != [] {
      var n := |fs| - 1;
      KeptNamesFrom(fs[..n], k);
      if k in KeptNames(fs[..n]) {
        var i :| 0 <= i < n && fs[..n][i].0 == k;
        assert fs[i].0 == k;
      }
    }
  }

  /** Only the fields a model declares, and none of its foreign `_id` fields, are
      requested: a key the template holds is the name of a declared field that is not
      a foreign id. */
  lemma {:induction false} TemplateKeysAreFieldNames(m: Annotation, n: nat, pid: int, k: string)
    requires m.Model? && n <= |m.fields|
    ensures Lookup(TemplateEntries(m, n, pid), k).Some? ==>
      !IsForeignId(k) && exists i | 0 <= i < n :: m.fields[i].0 == k
    decreases n
  {
    if n > 0 {
      TemplateKeysAreFieldNames(m, n - 1, pid, k);
      var name := m.fields[n - 1].0;
      if k != name && !IsForeignId(name) {
        var v := if name == "patient_id" then Leaf(Int(pid)) else FieldEntry(m.fields[n - 1].1, pid);
        KeptFieldStep(m, n, pid, v);
      }
    }
  }

  lemma KeysOfAppend(es: seq<(string, Tree)>, k: string, v: Tree)
    ensures KeysOf(es + [(k, v)]) == KeysOf(es) + [k]
  {
    assert KeysOf(es + [(k, v)]) == KeysOf(es) + [k];
  }

  /** With distinct field names the template's keys are exactly the kept field
      names, in the order the model declares them. */
  lemma {:induction false} TemplateKeysInOrder(m: Annotation, n: nat, pid: int)
    requires m.Model? && n <= |m.fields| && DistinctNames(m.fields)
    ensures KeysOf(TemplateEntries(m, n, pid)) == KeptNames(m.fields[..n])
    decreases n
  {
    if n > 0 {
      TemplateKeysInOrder(m, n - 1, pid);
      var fs := m.fields[..n];
      assert fs[..n - 1] == m.fields[..n - 1];
      var name := m.fields[n - 1].0;
      assert KeptNames(fs) == KeptNames(m.fields[..n - 1]) + (if IsForeignId(name) then [] else [name]);
      if !IsForeignId(name) {
        KeptNamesFrom(m.fields[..n - 1], name);
        assert name !in KeptNames(m.fields[..n - 1]);
        var acc := TemplateEntries(m, n - 1, pid);
        var v := if name == "patient_id" then Leaf(Int(pid)) else FieldEntry(m.fields[n - 1].1, pid);
        KeptFieldStep(m, n, pid, v);
        KeysOfAppend(acc, name, v);
      }
    }
  }

  /** A kept field that no later field shadows is found in the template under its
      own name with the entry built from its annotation. */
  lemma {:induction false} TemplateValueAt(m: Annotation, n: nat, i: nat, pid: int)
    requires m.Model? && i < n <= |m.fields|
    requires !IsForeignId(m.fields[i].0) && m.fields[i].0 != "patient_id"
    requires forall j | i < j < |m.fields| :: m.fields[j].0 != m.fields[i].0
    ensures Lookup(TemplateEntries(m, n, pid), m.fields[i].0) == Some(FieldEntry(m.fields[i].1, pid))
    decreases n
  {
    var name := m.fields[n - 1].0;
    if n - 1 > i {
      TemplateValueAt(m, n - 1, i, pid);
      if !IsForeignId(name) {
        var v := if name == "patient_id" then Leaf(Int(pid)) else FieldEntry(m.fields[n - 1].1, pid);
        KeptFieldStep(m, n, pid, v);
      }
    } else {
      KeptFieldStep(m, n, pid, FieldEntry(m.fields[i].1, pid));
    }
  }

  /** Storing a key the entries do not hold appends it. */
  lemma PutAbsent(es: seq<(string, Tree)>, k: string, v: Tree)
    requires forall i | 0 <= i < |es| :: es[i].0 != k
    ensures Put(es, k, v) == es + [(k, v)]
  {
    assert k !in KeysOf(es);
  }

  /** No two schemas share a lower-cased class name. */
  predicate DistinctClassNames(schemas: seq<(Annotation, bool)>)
    requires forall i | 0 <= i < |schemas| :: schemas[i].0.Model?
  {
    forall i, j | 0 <= i < j < |schemas| :: Lower(schemas[i].0.name) != Lower(schemas[j].0.name)
  }

  /** The entries of `es + [e]`. */
  lemma AppendAt<T>(es: seq<T>, e: T)
    ensures |es + [e]| == |es| + 1 && (es + [e])[|es|] == e
    ensures forall i | 0 <= i < |es| :: (es + [e])[i] == es[i]
  {
  }

  /** One step of the schema loop, under a key not yet used. */
  lemma PromptStep(schemas: seq<(Annotation, bool)>, n: nat, pid: int, acc: seq<(string, Tree)>)
    requires 0 < n <= |schemas| && forall i | 0 <= i < |schemas| :: schemas[i].0.Model?
    requires acc == PromptEntries(schemas, n - 1, pid)
    requires forall i | 0 <= i < |acc| :: acc[i].0 != PromptEntry(schemas, n - 1, pid).0
    ensures PromptEntries(schemas, n, pid) == acc + [PromptEntry(schemas, n - 1, pid)]
  {
    var e := PromptEntry(schemas, n - 1, pid);
    PutAbsent(acc, e.0, e.1);
  }

  /** With distinct lower-cased class names, the prompt holds one entry per schema,
      in order, keyed by the lower-cased class name and holding its template, wrapped
      in a list exactly when the schema's flag is set. */
  lemma {:induction false} PromptLayout(schemas: seq<(Annotation, bool)>, n: nat, pid: int)
    requires n <= |schemas| && forall i | 0 <= i < |schemas| :: schemas[i].0.Model?
    requires DistinctClassNames(schemas)
    ensures |PromptEntries(schemas, n, pid)| == n
    ensures forall i | 0 <= i < n :: PromptEntries(schemas, n, pid)[i] == PromptEntry(schemas, i, pid)
    decreases n
  {
    if n > 0 {
      PromptLayout(schemas, n - 1, pid);
      var acc := PromptEntries(schemas, n - 1, pid);
      forall i | 0 <= i < |acc| ensures acc[i].0 != PromptEntry(schemas, n - 1, pid).0 {
        assert acc[i] == PromptEntry(schemas, i, pid);
        assert Lower(schemas[i].0.name) != Lower(schemas[n - 1].0.name);
      }
      var e := PromptEntry(schemas, n - 1, pid);
      PromptStep(schemas, n, pid, acc);
      AppendAt(acc, e);
      forall i | 0 <= i < n ensures PromptEntries(schemas, n, pid)[i] == PromptEntry(schemas, i, pid) {
        if i < n - 1 {
          assert (acc + [e])[i] == acc[i];
        }
      }
    } else {
      assert PromptEntries(schemas, 0, pid) == [];
    }
  }

  // ---------------------------------------------------------------------------
  // Schemas

  const ProviderSchema: Annotation := Model("Provider", [
    ("provider_name", Optional(StrT)),
    ("npi_number", Optional(StrT)),
    ("specialty", Optional(StrT)),
    ("department_id", Optional(IntT)),
    ("active_status", BoolT),
    ("created_date", DatetimeT)])

  /** A field whose resolved type is neither a list nor a model, and that no later
      field shadows, is templated as `{"type": <its type string>, "optional": <whether
      it is a Union admitting None>}`. */
  lemma LeafFieldTemplate(m: Annotation, i: nat, pid: int)
    requires m.Model? && i < |m.fields|
    requires !IsForeignId(m.fields[i].0) && m.fields[i].0 != "patient_id"
    requires forall j | i < j < |m.fields| :: m.fields[j].0 != m.fields[i].0
    requires !ResolveType(m.fields[i].1).ListOf? && !ResolveType(m.fields[i].1).Model?
    ensures var ann := m.fields[i].1;
      Lookup(Template(m, pid).entries, m.fields[i].0) ==
        Some(Node([("type", Leaf(Str(TypeString(ResolveType(ann))))),
                   ("optional", Leaf(Bool(ann.Union? && NoneT in ann.args)))]))
  {
    TemplateValueAt(m, |m.fields|, i, pid);
  }

  /** The facts about the provider schema that its template depends on. */
  predicate ProviderShaped(m: Annotation) {
    && m.Model? && |m.fields| == 6
    && m.fields[1] == ("npi_number", Optional(StrT))
    && m.fields[4] == ("active_status", BoolT)
    && (forall j | 1 < j < |m.fields| :: m.fields[j].0 != m.fields[1].0)
    && (forall j | 4 < j < |m.fields| :: m.fields[j].0 != m.fields[4].0)
  }

  lemma ProviderSchemaShaped(m: Annotation)
    requires m == ProviderSchema
    ensures ProviderShaped(m)
  {
  }

  lemma ProviderShapedTemplate(m: Annotation, pid: int)
    requires ProviderShaped(m)
    ensures var es := Template(m, pid).entries;
      && Lookup(es, "department_id").None?
      && Lookup(es, "npi_number") == Some(Node([("type", Leaf(Str("str"))), ("optional", Leaf(Bool(true)))]))
      && Lookup(es, "active_status") == Some(Node([("type", Leaf(Str("bool"))), ("optional", Leaf(Bool(false)))]))
  {
    assert IsForeignId("department_id");
    TemplateKeysAreFieldNames(m, 6, pid, "department_id");
    assert ResolveType(Optional(StrT)) == StrT && ResolveType(BoolT) == BoolT;
    assert !IsForeignId("npi_number") && !IsForeignId("active_status");
    LeafFieldTemplate(m, 1, pid);
    LeafFieldTemplate(m, 4, pid);
  }

  /** A provider is templated without its department_id; its optional strings are
      flagged optional and its required boolean is not. */
  lemma ProviderTemplate(m: Annotation, pid: int)
    requires m == ProviderSchema
    ensures var es := Template(m, pid).entries;
      && Lookup(es, "department_id").None?
      && Lookup(es, "npi_number") == Some(Node([("type", Leaf(Str("str"))), ("optional", Leaf(Bool(true)))]))
      && Lookup(es, "active_status") == Some(Node([("type", Leaf(Str("bool"))), ("optional", Leaf(Bool(false)))]))
  {
    ProviderSchemaShaped(m);
    ProviderShapedTemplate(m, pid);
  }
}
