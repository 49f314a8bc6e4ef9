/** Provider and department resolution (`JSONFormatter.resolve_providers_and_departments`):
    every embedded department or provider object at a fixed allow-list of
    (section, field) locations is replaced by `<field>_id`, the surrogate id of the
    first stored row with the same natural key, a row being created and flushed
    only when no stored row has that key.  Two per-call caches map natural keys to
    ids already resolved. */
module ProviderResolution {
  import opened Json
  import opened Db

  /** Which resolver a location uses. */
  datatype Kind = DepartmentKind | ProviderKind

  /** Natural key of a department: (department_name, department_type, system_name),
      an absent field reading as `None`. */
  function DeptKeyOf(d: Record): DeptKey {
    DeptKey(Get(d, "department_name"), Get(d, "department_type"), Get(d, "system_name"))
  }

  /** Natural key of a provider once its department is resolved: (provider_name,
      npi_number, specialty, department id, active_status), active_status defaulting
      to True when absent. */
  function ProvKeyOf(p: Record, dept: Option<int>): ProvKey {
    ProvKey(Get(p, "provider_name"), Get(p, "npi_number"), Get(p, "specialty"), dept,
            GetOr(p, "active_status", Bool(true)))
  }

  // ---------------------------------------------------------------------------
  // The ids the resolvers yield, read off department rows D and provider rows P.

  /** Id of an embedded department: none for anything but a non-empty dict. */
  function DeptIdIn(v: Value, D: seq<Row<DeptKey>>): Option<int> {
    if IsFilledObj(v) then FindFirst(D, DeptKeyOf(v.fields)) else None
  }

  /** Id of the department a provider dict embeds under "department", if any. */
  function ProvDeptIdIn(p: Record, D: seq<Row<DeptKey>>): Option<int> {
    if "department" in p then DeptIdIn(p["department"], D) else None
  }

  /** Id of an embedded provider: none for anything but a non-empty dict. */
  function ProvIdIn(v: Value, D: seq<Row<DeptKey>>, P: seq<Row<ProvKey>>): Option<int> {
    if IsFilledObj(v) then FindFirst(P, ProvKeyOf(v.fields, ProvDeptIdIn(v.fields, D))) else None
  }

  function IdIn(kind: Kind, v: Value, D: seq<Row<DeptKey>>, P: seq<Row<ProvKey>>): Option<int> {
    match kind
    case DepartmentKind => DeptIdIn(v, D)
    case ProviderKind => ProvIdIn(v, D, P)
  }

  /** The rows hold a match for everything the resolver of `kind` would look up for v. */
  ghost predicate Found(kind: Kind, v: Value, D: seq<Row<DeptKey>>, P: seq<Row<ProvKey>>) {
    IsFilledObj(v) ==>
      match kind
      case DepartmentKind => DeptIdIn(v, D).Some?
      case ProviderKind =>
        && ("department" in v.fields && IsFilledObj(v.fields["department"]) ==> DeptIdIn(v.fields["department"], D).Some?)
        && ProvIdIn(v, D, P).Some?
  }

  /** Once found, an embedded object keeps its id however many rows are appended. */
  lemma FoundStable(kind: Kind, v: Value, D: seq<Row<DeptKey>>, P: seq<Row<ProvKey>>,
                    D': seq<Row<DeptKey>>, P': seq<Row<ProvKey>>)
    requires Found(kind, v, D, P) && D <= D' && P <= P'
    ensures Found(kind, v, D', P') && IdIn(kind, v, D', P') == IdIn(kind, v, D, P)
  {
    if IsFilledObj(v) {
      match kind
      case DepartmentKind =>
        FirstMatchStable(D, D', DeptKeyOf(v.fields));
      case ProviderKind =>
        var p := v.fields;
        if "department" in p && IsFilledObj(p["department"]) {
          FirstMatchStable(D, D', DeptKeyOf(p["department"].fields));
        }
        FirstMatchStable(P, P', ProvKeyOf(p, ProvDeptIdIn(p, D)));
    }
  }

  // ---------------------------------------------------------------------------
  // The rewrite, as a function of the final rows.

  /** `replace_obj_with_id`: only when `field` is present and holds a dict, set
      `<field>_id` to the resolved id and delete `field`. */
  function ReplaceAt(rec: Record, field: string, kind: Kind, D: seq<Row<DeptKey>>, P: seq<Row<ProvKey>>): Record {
    if field in rec && rec[field].Obj? then rec[field + "_id" := IdValue(IdIn(kind, rec[field], D, P))] - {field}
    else rec
  }

  ghost predicate FoundAt(rec: Record, field: string, kind: Kind, D: seq<Row<DeptKey>>, P: seq<Row<ProvKey>>) {
    field in rec && rec[field].Obj? ==> Found(kind, rec[field], D, P)
  }

  /** The sections visited, in the order the source visits them. */
  const Sections: seq<string> :=
    ["visit", "visitnotes", "diagnosis", "medication", "vitalsigns", "labresult", "imagingstudy", "proceduretreatment"]

  /** The allow-list: the fields rewritten in each section's records, in order.  A
      visit's nested `visit_notes.author_provider` is handled in `Resolved`. */
  function Locations(section: string): seq<(string, Kind)> {
    if section == "visit" then [("primary_provider", ProviderKind), ("department", DepartmentKind)]
    else if section == "visitnotes" then [("author_provider", ProviderKind)]
    else if section == "diagnosis" then [("diagnosing_provider", ProviderKind)]
    else if section == "medication" then [("prescribing_provider", ProviderKind)]
    else if section == "vitalsigns" then [("measured_by", ProviderKind)]
    else if section == "labresult" then [("ordering_provider", ProviderKind)]
    else if section == "imagingstudy" then [("ordering_provider", ProviderKind), ("radiologist", ProviderKind)]
    else if section == "proceduretreatment" then [("primary_provider", ProviderKind)]
    else []
  }

  function ReplaceAll(rec: Record, locs: seq<(string, Kind)>, D: seq<Row<DeptKey>>, P: seq<Row<ProvKey>>): Record
    decreases |locs|
  {
    if locs == [] then rec
    else ReplaceAll(ReplaceAt(rec, locs[0].0, locs[0].1, D, P), locs[1..], D, P)
  }

  ghost predicate FoundAll(rec: Record, locs: seq<(string, Kind)>, D: seq<Row<DeptKey>>, P: seq<Row<ProvKey>>)
    decreases |locs|
  {
    locs != [] ==>
      && FoundAt(rec, locs[0].0, locs[0].1, D, P)
      && FoundAll(ReplaceAt(rec, locs[0].0, locs[0].1, D, P), locs[1..], D, P)
  }

  /** One record of `section` after resolution. */
  function Resolved(section: string, rec: Record, D: seq<Row<DeptKey>>, P: seq<Row<ProvKey>>): Record {
    var r := ReplaceAll(rec, Locations(section), D, P);
    if section == "visit" && "visit_notes" in r && r["visit_notes"].Obj? then
      r["visit_notes" := Obj(ReplaceAt(r["visit_notes"].fields, "author_provider", ProviderKind, D, P))]
    else r
  }

  ghost predicate RecordFound(section: string, rec: Record, D: seq<Row<DeptKey>>, P: seq<Row<ProvKey>>) {
    && FoundAll(rec, Locations(section), D, P)
    && var r := ReplaceAll(rec, Locations(section), D, P);
       (section == "visit" && "visit_notes" in r && r["visit_notes"].Obj? ==>
          FoundAt(r["visit_notes"].fields, "author_provider", ProviderKind, D, P))
  }

  /** A list entry after resolution: dicts are resolved, anything else is kept. */
  function ResolvedItem(section: string, v: Value, D: seq<Row<DeptKey>>, P: seq<Row<ProvKey>>): Value {
    if v.Obj? then Obj(Resolved(section, v.fields, D, P)) else v
  }

  ghost predicate ItemFound(section: string, v: Value, D: seq<Row<DeptKey>>, P: seq<Row<ProvKey>>) {
    v.Obj? ==> RecordFound(section, v.fields, D, P)
  }

  function ResolvedItems(section: string, items: seq<Value>, D: seq<Row<DeptKey>>, P: seq<Row<ProvKey>>): (r: seq<Value>)
    ensures |r| == |items|
    ensures forall i | 0 <= i < |items| :: r[i] == ResolvedItem(section, items[i], D, P)
  {
    seq(|items|, i requires 0 <= i < |items| => ResolvedItem(section, items[i], D, P))
  }

  ghost predicate ItemsFound(section: string, items: seq<Value>, D: seq<Row<DeptKey>>, P: seq<Row<ProvKey>>) {
    forall i | 0 <= i < |items| :: ItemFound(section, items[i], D, P)
  }

  /** The document once the sections in `done` are resolved. */
  function PartlyResolved(data: Document, done: seq<string>, D: seq<Row<DeptKey>>, P: seq<Row<ProvKey>>): Document {
    map k | k in data :: if k in done && data[k].Arr? then Arr(ResolvedItems(k, data[k].items, D, P)) else data[k]
  }

  /** The whole document after resolution against the final rows D and P. */
  function ResolvedDoc(data: Document, D: seq<Row<DeptKey>>, P: seq<Row<ProvKey>>): Document {
    PartlyResolved(data, Sections, D, P)
  }

  ghost predicate DocFoundIn(data: Document, done: seq<string>, D: seq<Row<DeptKey>>, P: seq<Row<ProvKey>>) {
    forall k | k in done && k in data && data[k].Arr? :: ItemsFound(k, data[k].items, D, P)
  }

  /** The document shapes the model covers: every allow-listed section present
      is a list of dicts, and a visit's `visit_notes`, when present, is a dict.
      Some shapes left out make the source raise (a `None` section or
      `visit_notes`); others it walks without raising (a dict section, a string
      `visit_notes`), and the model says nothing about them. */
  ghost predicate ResolvableShape(data: Document) {
    forall k | k in data && k in Sections ::
      && data[k].Arr?
      && AllObjs(data[k].items)
      && (k == "visit" ==> forall i | 0 <= i < |data[k].items| :: VisitNotesIsObj(data[k].items[i].fields))
  }

  predicate VisitNotesIsObj(visit: Record) {
    "visit_notes" in visit ==> visit["visit_notes"].Obj?
  }

  // ---------------------------------------------------------------------------
  // Stability of the rewrite under appended rows.

  lemma ReplaceAtStable(rec: Record, field: string, kind: Kind, D: seq<Row<DeptKey>>, P: seq<Row<ProvKey>>,
                        D': seq<Row<DeptKey>>, P': seq<Row<ProvKey>>)
    requires FoundAt(rec, field, kind, D, P) && D <= D' && P <= P'
    ensures FoundAt(rec, field, kind, D', P')
    ensures ReplaceAt(rec, field, kind, D', P') == ReplaceAt(rec, field, kind, D, P)
  {
    if field in rec && rec[field].Obj? {
      FoundStable(kind, rec[field], D, P, D', P');
    }
  }

  lemma {:induction false} ReplaceAllStable(rec: Record, locs: seq<(string, Kind)>, D: seq<Row<DeptKey>>, P: seq<Row<ProvKey>>,
                                            D': seq<Row<DeptKey>>, P': seq<Row<ProvKey>>)
    requires FoundAll(rec, locs, D, P) && D <= D' && P <= P'
    ensures FoundAll(rec, locs, D', P')
    ensures ReplaceAll(rec, locs, D', P') == ReplaceAll(rec, locs, D, P)
    decreases |locs|
  {
    if locs != [] {
      ReplaceAtStable(rec, locs[0].0, locs[0].1, D, P, D', P');
      ReplaceAllStable(ReplaceAt(rec, locs[0].0, locs[0].1, D, P), locs[1..], D, P, D', P');
    }
  }

  lemma ItemStable(section: string, v: Value, D: seq<Row<DeptKey>>, P: seq<Row<ProvKey>>,
                   D': seq<Row<DeptKey>>, P': seq<Row<ProvKey>>)
    requires ItemFound(section, v, D, P) && D <= D' && P <= P'
    ensures ItemFound(section, v, D', P')
    ensures ResolvedItem(section, v, D', P') == ResolvedItem(section, v, D, P)
  {
    if v.Obj? {
      ReplaceAllStable(v.fields, Locations(section), D, P, D', P');
      var r := ReplaceAll(v.fields, Locations(section), D, P);
      if section == "visit" && "visit_notes" in r && r["visit_notes"].Obj? {
        ReplaceAtStable(r["visit_notes"].fields, "author_provider", ProviderKind, D, P, D', P');
      }
    }
  }

  lemma ItemsStable(section: string, items: seq<Value>, D: seq<Row<DeptKey>>, P: seq<Row<ProvKey>>,
                    D': seq<Row<DeptKey>>, P': seq<Row<ProvKey>>)
    requires ItemsFound(section, items, D, P) && D <= D' && P <= P'
    ensures ItemsFound(section, items, D', P')
    ensures ResolvedItems(section, items, D', P') == ResolvedItems(section, items, D, P)
  {
    forall i | 0 <= i < |items|
      ensures ItemFound(section, items[i], D', P')
      ensures ResolvedItem(section, items[i], D', P') == ResolvedItem(section, items[i], D, P)
    {
      ItemStable(section, items[i], D, P, D', P');
    }
  }

  /** Resolving one more item of a list. */
  lemma ItemsAppend(section: string, items: seq<Value>, i: nat, D: seq<Row<DeptKey>>, P: seq<Row<ProvKey>>)
    requires i < |items|
    ensures ResolvedItems(section, items[..i + 1], D, P) == ResolvedItems(section, items[..i], D, P) + [ResolvedItem(section, items[i], D, P)]
    ensures ItemsFound(section, items[..i], D, P) && ItemFound(section, items[i], D, P) ==> ItemsFound(section, items[..i + 1], D, P)
  {
    assert items[..i + 1] == items[..i] + [items[i]];
  }

  /** Rewriting a visit's own locations leaves its `visit_notes` as it was. */
  lemma VisitNotesUntouched(rec: Record, D: seq<Row<DeptKey>>, P: seq<Row<ProvKey>>)
    ensures var r := ReplaceAll(rec, Locations("visit"), D, P);
      ("visit_notes" in r <==> "visit_notes" in rec) && ("visit_notes" in rec ==> r["visit_notes"] == rec["visit_notes"])
  {
    var locs := Locations("visit");
    var r0 := ReplaceAt(rec, locs[0].0, locs[0].1, D, P);
    var r1 := ReplaceAt(r0, locs[1].0, locs[1].1, D, P);
    assert locs[1..][1..] == [];
    assert ReplaceAll(rec, locs, D, P) == r1;
    assert "primary_provider" + "_id" != "visit_notes" && "department" + "_id" != "visit_notes";
  }

  // ---------------------------------------------------------------------------
  // The rows each step adds, as a function of the tables before it.

  /** The part of the store resolution changes: the department and provider tables
      and the id counter. */
  datatype Tables = Tables(departments: seq<Row<DeptKey>>, providers: seq<Row<ProvKey>>, nextId: int)

  function TablesOf(s: Store): Tables
    reads s
  {
    Tables(s.departments, s.providers, s.nextId)
  }

  /** `get_or_create_department` (lines 56-83) on the tables: one row under the next
      id, only for a non-empty dict whose key no stored row has. */
  function DeptAdded(t: Tables, d: Value, now: Value): Tables {
    if !IsFilledObj(d) then t
    else
      var k := DeptKeyOf(d.fields);
      if FindFirst(t.departments, k).Some? then t
      else t.(departments := t.departments + [Row(t.nextId, k, now)], nextId := t.nextId + 1)
  }

  /** `get_or_create_provider` (lines 85-129) on the tables: the embedded department
      first, when the key is present, then one provider row, only for a non-empty
      dict whose key no stored row has. */
  function ProvAdded(t: Tables, p: Value, now: Value): Tables {
    if !IsFilledObj(p) then t
    else
      var t1 := if "department" in p.fields then DeptAdded(t, p.fields["department"], now) else t;
      var k := ProvKeyOf(p.fields, ProvDeptIdIn(p.fields, t1.departments));
      if FindFirst(t1.providers, k).Some? then t1
      else t1.(providers := t1.providers + [Row(t1.nextId, k, now)], nextId := t1.nextId + 1)
  }

  /** `replace_obj_with_id` on the tables: a get-or-create only for a dict at `field`. */
  function AddedAt(t: Tables, rec: Record, field: string, kind: Kind, now: Value): Tables {
    if field in rec && rec[field].Obj? then
      match kind
      case DepartmentKind => DeptAdded(t, rec[field], now)
      case ProviderKind => ProvAdded(t, rec[field], now)
    else t
  }

  /** The locations of one record in order, each reading the record as the ones
      before it left it. */
  function AddedAll(t: Tables, rec: Record, locs: seq<(string, Kind)>, now: Value): Tables
    decreases |locs|
  {
    if locs == [] then t
    else
      var t1 := AddedAt(t, rec, locs[0].0, locs[0].1, now);
      AddedAll(t1, ReplaceAt(rec, locs[0].0, locs[0].1, t1.departments, t1.providers), locs[1..], now)
  }

  /** One record of `section`, a visit's `visit_notes.author_provider` last. */
  function AddedRecord(t: Tables, section: string, rec: Record, now: Value): Tables {
    var t1 := AddedAll(t, rec, Locations(section), now);
    if section == "visit" && "visit_notes" in rec && rec["visit_notes"].Obj? then
      AddedAt(t1, rec["visit_notes"].fields, "author_provider", ProviderKind, now)
    else t1
  }

  /** The records of one list, in order; entries that are not dicts add nothing. */
  function AddedItems(t: Tables, section: string, items: seq<Value>, now: Value): Tables
    decreases |items|
  {
    if items == [] then t
    else
      var t1 := AddedItems(t, section, items[..|items| - 1], now);
      var last := items[|items| - 1];
      if last.Obj? then AddedRecord(t1, section, last.fields, now) else t1
  }

  /** `AddedAll` on an allow-list of one or two locations. */
  lemma AddedAllSteps(t: Tables, rec: Record, locs: seq<(string, Kind)>, now: Value)
    requires 1 <= |locs| <= 2
    ensures var t1 := AddedAt(t, rec, locs[0].0, locs[0].1, now);
      AddedAll(t, rec, locs, now) ==
        if |locs| == 1 then t1
        else AddedAt(t1, ReplaceAt(rec, locs[0].0, locs[0].1, t1.departments, t1.providers), locs[1].0, locs[1].1, now)
  {
    var t1 := AddedAt(t, rec, locs[0].0, locs[0].1, now);
    var r1 := ReplaceAt(rec, locs[0].0, locs[0].1, t1.departments, t1.providers);
    assert AddedAll(t, rec, locs, now) == AddedAll(t1, r1, locs[1..], now);
    if |locs| == 2 {
      var rest := locs[1..];
      assert rest[0] == locs[1] && rest[1..] == [];
      var t2 := AddedAt(t1, r1, rest[0].0, rest[0].1, now);
      assert AddedAll(t1, r1, rest, now) == AddedAll(t2, ReplaceAt(r1, rest[0].0, rest[0].1, t2.departments, t2.providers), [], now);
    } else {
      assert locs[1..] == [];
    }
  }

  /** The sections in `done`, in order. */
  function AddedDoc(t: Tables, data: Document, done: seq<string>, now: Value): Tables
    decreases |done|
  {
    if done == [] then t
    else
      var t1 := AddedDoc(t, data, done[..|done| - 1], now);
      var s := done[|done| - 1];
      if s in data && data[s].Arr? then AddedItems(t1, s, data[s].items, now) else t1
  }

  // ---------------------------------------------------------------------------
  // The resolver: the two caches of one call, over a store.

  class Resolver {
    const store: Store
    const now: Value
    ghost const deptBase: nat
    ghost const provBase: nat
    var departmentCache: map<DeptKey, int>
    var providerCache: map<ProvKey, int>

    /** Every cached id is the id of the first stored row with that key, and no row
        added since the resolver was made repeats an earlier row's key. */
    ghost predicate Valid()
      reads this, store
    {
      && store.Valid()
      && deptBase <= |store.departments| && provBase <= |store.providers|
      && KeysFreshFrom(store.departments, deptBase)
      && KeysFreshFrom(store.providers, provBase)
      && Caches(store.departments, departmentCache)
      && Caches(store.providers, providerCache)
    }

    /** Rows were only appended to the department and provider tables; nothing else
        in the store changed but the id counter and the lookup count. */
    twostate predicate Extended()
      reads this, store
    {
      && old(store.departments) <= store.departments
      && old(store.providers) <= store.providers
      && old(store.nextId) <= store.nextId
      && old(store.queries) <= store.queries
      && store.patients == old(store.patients)
      && store.visits == old(store.visits)
      && store.staged == old(store.staged)
      && store.commits == old(store.commits)
    }

    constructor (store: Store, now: Value)
      requires store.Valid()
      ensures Valid()
      ensures this.store == store && this.now == now
      ensures departmentCache == map[] && providerCache == map[]
      ensures deptBase == |store.departments| && provBase == |store.providers|
    {
      this.store := store;
      this.now := now;
      deptBase := |store.departments|;
      provBase := |store.providers|;
      departmentCache := map[];
      providerCache := map[];
    }

    /** Lines 60-83 of `get_or_create_department` once the key is built: the cached id,
        else the first stored match (cached), else a new flushed row (cached). */
    method DepartmentIdFor(key: DeptKey) returns (id: int)
      requires Valid()
      modifies this, store
      ensures Valid() && Extended()
      ensures providerCache == old(providerCache) && store.providers == old(store.providers)
      ensures FindFirst(store.departments, key) == Some(id)
      ensures store.departments == old(store.departments) +
        (if old(FindFirst(store.departments, key)).None? then [Row(old(store.nextId), key, now)] else [])
      ensures store.nextId == old(store.nextId) + (|store.departments| - |old(store.departments)|)
      ensures departmentCache == old(departmentCache)[key := id]
      ensures key in old(departmentCache) ==> id == old(departmentCache)[key] && unchanged(store)
      ensures key !in old(departmentCache) ==> store.queries == old(store.queries) + 1
    {
      if key in departmentCache {
        return departmentCache[key];
      }
      id := DepartmentMiss(key);
    }

    /** A department cache miss: the first stored match, else a new flushed row; the
        id is cached either way. */
    method DepartmentMiss(key: DeptKey) returns (id: int)
      requires Valid()
      modifies this, store
      ensures Valid() && Extended()
      ensures providerCache == old(providerCache) && store.providers == old(store.providers)
      ensures FindFirst(store.departments, key) == Some(id)
      ensures store.departments == old(store.departments) +
        (if old(FindFirst(store.departments, key)).None? then [Row(old(store.nextId), key, now)] else [])
      ensures store.nextId == old(store.nextId) + (|store.departments| - |old(store.departments)|)
      ensures departmentCache == old(departmentCache)[key := id]
      ensures store.queries == old(store.queries) + 1
    {
      var found := store.QueryDepartment(key);
      if found.None? {
        ghost var before := store.departments;
        id := store.AddDepartment(key, now);
        FirstMatchAppended(before, Row(id, key, now));
        KeysFreshAppended(before, deptBase, Row(id, key, now));
        CacheStable(before, store.departments, departmentCache);
      } else {
        id := found.value;
      }
      CachePut(store.departments, departmentCache, key, id);
      departmentCache := departmentCache[key := id];
    }

    /** Lines 102-129 of `get_or_create_provider` once the key is built. */
    method ProviderIdFor(key: ProvKey) returns (id: int)
      requires Valid()
      modifies this, store
      ensures Valid() && Extended()
      ensures departmentCache == old(departmentCache) && store.departments == old(store.departments)
      ensures FindFirst(store.providers, key) == Some(id)
      ensures store.providers == old(store.providers) +
        (if old(FindFirst(store.providers, key)).None? then [Row(old(store.nextId), key, now)] else [])
      ensures store.nextId == old(store.nextId) + (|store.providers| - |old(store.providers)|)
      ensures providerCache == old(providerCache)[key := id]
      ensures key in old(providerCache) ==> id == old(providerCache)[key] && unchanged(store)
      ensures key !in old(providerCache) ==> store.queries == old(store.queries) + 1
    {
      if key in providerCache {
        return providerCache[key];
      }
      id := ProviderMiss(key);
    }

    /** A provider cache miss. */
    method ProviderMiss(key: ProvKey) returns (id: int)
      requires Valid()
      modifies this, store
      ensures Valid() && Extended()
      ensures departmentCache == old(departmentCache) && store.departments == old(store.departments)
      ensures FindFirst(store.providers, key) == Some(id)
      ensures store.providers == old(store.providers) +
        (if old(FindFirst(store.providers, key)).None? then [Row(old(store.nextId), key, now)] else [])
      ensures store.nextId == old(store.nextId) + (|store.providers| - |old(store.providers)|)
      ensures providerCache == old(providerCache)[key := id]
      ensures store.queries == old(store.queries) + 1
    {
      var found := store.QueryProvider(key);
      if found.None? {
        ghost var before := store.providers;
        id := store.AddProvider(key, now);
        FirstMatchAppended(before, Row(id, key, now));
        KeysFreshAppended(before, provBase, Row(id, key, now));
        CacheStable(before, store.providers, providerCache);
      } else {
        id := found.value;
      }
      CachePut(store.providers, providerCache, key, id);
      providerCache := providerCache[key := id];
    }

    /** `get_or_create_department`: `None` unless given a non-empty dict. */
    method GetOrCreateDepartment(d: Value) returns (id: Option<int>)
      requires Valid()
      modifies this, store
      ensures Valid() && Extended()
      ensures providerCache == old(providerCache) && store.providers == old(store.providers)
      ensures id == DeptIdIn(d, store.departments)
      ensures Found(DepartmentKind, d, store.departments, store.providers)
      ensures TablesOf(store) == DeptAdded(old(TablesOf(store)), d, now)
      ensures !IsFilledObj(d) ==> unchanged(store) && departmentCache == old(departmentCache)
      ensures IsFilledObj(d) ==> id.Some? && departmentCache == old(departmentCache)[DeptKeyOf(d.fields) := id.value]
      ensures IsFilledObj(d) ==>
        var k := DeptKeyOf(d.fields);
        store.departments == old(store.departments) +
          (if old(FindFirst(store.departments, k)).None? then [Row(old(store.nextId), k, now)] else [])
      ensures IsFilledObj(d) && DeptKeyOf(d.fields) in old(departmentCache) ==>
        id == Some(old(departmentCache)[DeptKeyOf(d.fields)]) && unchanged(store)
    {
      if !IsFilledObj(d) {
        return None;
      }
      var key := DeptKeyOf(d.fields);
      var deptId := DepartmentIdFor(key);
      id := Some(deptId);
    }

    /** `get_or_create_provider`: the embedded "department" is resolved first and popped
        (`p'` is the provider dict as the source leaves it); its id is part of the key. */
    method GetOrCreateProvider(p: Value) returns (id: Option<int>, p': Value)
      requires Valid()
      modifies this, store
      ensures Valid() && Extended()
      ensures id == ProvIdIn(p, store.departments, store.providers)
      ensures Found(ProviderKind, p, store.departments, store.providers)
      ensures TablesOf(store) == ProvAdded(old(TablesOf(store)), p, now)
      ensures !IsFilledObj(p) ==>
        p' == p && unchanged(store) && departmentCache == old(departmentCache) && providerCache == old(providerCache)
      ensures IsFilledObj(p) ==> p' == Obj(p.fields - {"department"})
      ensures IsFilledObj(p) ==>
        var k := ProvKeyOf(p.fields, ProvDeptIdIn(p.fields, store.departments));
        k in old(providerCache) ==> id == Some(old(providerCache)[k]) && store.providers == old(store.providers)
      ensures IsFilledObj(p) ==>
        var k := ProvKeyOf(p.fields, ProvDeptIdIn(p.fields, store.departments));
        id.Some? && providerCache == old(providerCache)[k := id.value]
      ensures IsFilledObj(p) && "department" in p.fields && IsFilledObj(p.fields["department"]) ==>
        var dept := ProvDeptIdIn(p.fields, store.departments);
        dept.Some? && departmentCache == old(departmentCache)[DeptKeyOf(p.fields["department"].fields) := dept.value]
      ensures !(IsFilledObj(p) && "department" in p.fields && IsFilledObj(p.fields["department"])) ==>
        departmentCache == old(departmentCache)
    {
      if !IsFilledObj(p) {
        return None, p;
      }
      var deptId, fields := PopDepartment(p.fields);
      p' := Obj(fields);
      var key := ProvKeyOf(p.fields, deptId);
      assert ProvKeyOf(fields, deptId) == key;
      ghost var D1 := store.departments;
      var provId := ProviderIdFor(key);
      assert store.departments == D1;
      id := Some(provId);
    }

    /** Lines 88-92 of `get_or_create_provider`: the embedded "department" is
        resolved and popped. */
    method PopDepartment(fields: Record) returns (deptId: Option<int>, rest: Record)
      requires Valid()
      modifies this, store
      ensures Valid() && Extended()
      ensures providerCache == old(providerCache) && store.providers == old(store.providers)
      ensures deptId == ProvDeptIdIn(fields, store.departments)
      ensures rest == fields - {"department"}
      ensures TablesOf(store) ==
        if "department" in fields then DeptAdded(old(TablesOf(store)), fields["department"], now) else old(TablesOf(store))
      ensures "department" !in fields ==> unchanged(store)
      ensures "department" in fields && IsFilledObj(fields["department"]) ==>
        deptId.Some? && departmentCache == old(departmentCache)[DeptKeyOf(fields["department"].fields) := deptId.value]
      ensures !("department" in fields && IsFilledObj(fields["department"])) ==> departmentCache == old(departmentCache)
      ensures "department" in fields ==> Found(DepartmentKind, fields["department"], store.departments, store.providers)
    {
      rest := fields;
      deptId := None;
      if "department" in fields {
        deptId := GetOrCreateDepartment(fields["department"]);
        rest := fields - {"department"};
      }
    }

    /** `replace_obj_with_id` */
    method ReplaceObjWithId(rec: Record, field: string, kind: Kind) returns (r: Record)
      requires Valid()
      modifies this, store
      ensures Valid() && Extended()
      ensures FoundAt(rec, field, kind, store.departments, store.providers)
      ensures r == ReplaceAt(rec, field, kind, store.departments, store.providers)
      ensures TablesOf(store) == AddedAt(old(TablesOf(store)), rec, field, kind, now)
      ensures !(field in rec && rec[field].Obj?) ==> unchanged(store)
    {
      r := rec;
      if field in rec && rec[field].Obj? {
        ghost var T0 := TablesOf(store);
        var resolved: Option<int>;
        if kind == DepartmentKind {
          resolved := GetOrCreateDepartment(rec[field]);
          assert TablesOf(store) == AddedAt(T0, rec, field, kind, now);
        } else {
          var popped;
          resolved, popped := GetOrCreateProvider(rec[field]);
          assert TablesOf(store) == AddedAt(T0, rec, field, kind, now);
        }
        assert resolved == IdIn(kind, rec[field], store.departments, store.providers);
        r := rec[field + "_id" := IdValue(resolved)] - {field};
      }
    }

    /** The allow-listed fields of one record of `section`, in order. */
    method ResolveLocations(section: string, rec: Record) returns (r: Record)
      requires Valid()
      requires section in Sections
      modifies this, store
      ensures Valid() && Extended()
      ensures FoundAll(rec, Locations(section), store.departments, store.providers)
      ensures r == ReplaceAll(rec, Locations(section), store.departments, store.providers)
      ensures TablesOf(store) == AddedAll(old(TablesOf(store)), rec, Locations(section), now)
    {
      var locs := Locations(section);
      assert 1 <= |locs| <= 2;
      ghost var T0 := TablesOf(store);
      AddedAllSteps(T0, rec, locs, now);
      r := ReplaceObjWithId(rec, locs[0].0, locs[0].1);
      if |locs| == 2 {
        ghost var D1, P1 := store.departments, store.providers;
        var r1 := r;
        r := ReplaceObjWithId(r1, locs[1].0, locs[1].1);
        ReplaceAtStable(rec, locs[0].0, locs[0].1, D1, P1, store.departments, store.providers);
        ghost var D, P := store.departments, store.providers;
        assert locs[1..][1..] == [];
        assert ReplaceAll(r1, locs[1..], D, P) == r;
        assert FoundAll(r1, locs[1..], D, P);
      } else {
        assert locs[1..] == [];
      }
    }

    /** The calls the source makes for one record of `section`. */
    method ResolveRecord(section: string, rec: Record) returns (r: Record)
      requires Valid()
      requires section in Sections
      requires section == "visit" ==> VisitNotesIsObj(rec)
      modifies this, store
      ensures Valid() && Extended()
      ensures RecordFound(section, rec, store.departments, store.providers)
      ensures r == Resolved(section, rec, store.departments, store.providers)
      ensures TablesOf(store) == AddedRecord(old(TablesOf(store)), section, rec, now)
    {
      r := ResolveLocations(section, rec);
      if section == "visit" {
        VisitNotesUntouched(rec, store.departments, store.providers);
      }
      if section == "visit" && "visit_notes" in r {
        ghost var D2, P2 := store.departments, store.providers;
        var notes := ReplaceObjWithId(r["visit_notes"].fields, "author_provider", ProviderKind);
        ReplaceAllStable(rec, Locations(section), D2, P2, store.departments, store.providers);
        r := r["visit_notes" := Obj(notes)];
      }
    }

    /** One of the source's per-section loops: every record of the list, in order. */
    method ResolveSection(section: string, items: seq<Value>) returns (out: seq<Value>)
      requires Valid()
      requires section in Sections && AllObjs(items)
      requires section == "visit" ==> forall i | 0 <= i < |items| :: VisitNotesIsObj(items[i].fields)
      modifies this, store
      ensures Valid() && Extended()
      ensures ItemsFound(section, items, store.departments, store.providers)
      ensures out == ResolvedItems(section, items, store.departments, store.providers)
      ensures TablesOf(store) == AddedItems(old(TablesOf(store)), section, items, now)
    {
      out := [];
      var i := 0;
      while i < |items|
        invariant 0 <= i <= |items|
        invariant Valid() && Extended()
        invariant ItemsFound(section, items[..i], store.departments, store.providers)
        invariant out == ResolvedItems(section, items[..i], store.departments, store.providers)
        invariant TablesOf(store) == AddedItems(old(TablesOf(store)), section, items[..i], now)
      {
        assert items[..i + 1][..i] == items[..i];
        ghost var D0, P0 := store.departments, store.providers;
        var r := ResolveRecord(section, items[i].fields);
        ItemsStable(section, items[..i], D0, P0, store.departments, store.providers);
        ItemsAppend(section, items, i, store.departments, store.providers);
        out := out + [Obj(r)];
        i := i + 1;
      }
      assert items[..i] == items;
    }

    /** One of the source's per-section loops, applied to the document. */
    method ResolveDocSection(data: Document, done: seq<string>, s: string, doc: Document) returns (doc': Document)
      requires Valid()
      requires ResolvableShape(data) && s in Sections && s !in done
      requires DocFoundIn(data, done, store.departments, store.providers)
      requires doc == PartlyResolved(data, done, store.departments, store.providers)
      modifies this, store
      ensures Valid() && Extended()
      ensures DocFoundIn(data, done + [s], store.departments, store.providers)
      ensures doc' == PartlyResolved(data, done + [s], store.departments, store.providers)
      ensures TablesOf(store) ==
        if s in data && data[s].Arr? then AddedItems(old(TablesOf(store)), s, data[s].items, now) else old(TablesOf(store))
    {
      ghost var D0, P0 := store.departments, store.providers;
      var items := [];
      doc' := doc;
      if s in data {
        items := ResolveSection(s, data[s].items);
        doc' := doc[s := Arr(items)];
      }
      PartlyResolvedStep(data, done, s, items, D0, P0, store.departments, store.providers);
    }

    /** The per-section loops of `resolve_providers_and_departments`, in the
        source's order. */
    method ResolveSections(data: Document) returns (result: Document)
      requires Valid() && ResolvableShape(data)
      modifies this, store
      ensures Valid() && Extended()
      ensures DocFoundIn(data, Sections, store.departments, store.providers)
      ensures result == ResolvedDoc(data, store.departments, store.providers)
      ensures TablesOf(store) == AddedDoc(old(TablesOf(store)), data, Sections, now)
    {
      ghost var T0 := TablesOf(store);
      result := data;
      for j := 0 to |Sections|
        invariant Valid() && Extended()
        invariant DocFoundIn(data, Sections[..j], store.departments, store.providers)
        invariant result == PartlyResolved(data, Sections[..j], store.departments, store.providers)
        invariant TablesOf(store) == AddedDoc(T0, data, Sections[..j], now)
      {
        SectionsStep(j);
        AddedDocStep(T0, data, Sections[..j], Sections[j], now);
        result := ResolveDocSection(data, Sections[..j], Sections[j], result);
      }
      assert Sections[..|Sections|] == Sections;
    }
  }

  /** Resolving one more section keeps the sections already done as they were. */
  lemma PartlyResolvedStep(data: Document, done: seq<string>, s: string, items: seq<Value>,
                           D0: seq<Row<DeptKey>>, P0: seq<Row<ProvKey>>, D: seq<Row<DeptKey>>, P: seq<Row<ProvKey>>)
    requires DocFoundIn(data, done, D0, P0) && D0 <= D && P0 <= P
    requires s !in done
    requires s in data ==> data[s].Arr? && ItemsFound(s, data[s].items, D, P) && items == ResolvedItems(s, data[s].items, D, P)
    ensures DocFoundIn(data, done + [s], D, P)
    ensures PartlyResolved(data, done + [s], D, P) ==
      (if s in data then PartlyResolved(data, done, D0, P0)[s := Arr(items)] else PartlyResolved(data, done, D0, P0))
  {
    forall k | k in done && k in data && data[k].Arr?
      ensures ItemsFound(k, data[k].items, D, P)
      ensures ResolvedItems(k, data[k].items, D, P) == ResolvedItems(k, data[k].items, D0, P0)
    {
      ItemsStable(k, data[k].items, D0, P0, D, P);
    }
  }

  /** `AddedDoc` on one more section. */
  lemma AddedDocStep(t: Tables, data: Document, done: seq<string>, s: string, now: Value)
    ensures var t1 := AddedDoc(t, data, done, now);
      AddedDoc(t, data, done + [s], now) == if s in data && data[s].Arr? then AddedItems(t1, s, data[s].items, now) else t1
  {
    assert (done + [s])[..|done|] == done;
  }

  /** The sections are handled one after another, each once. */
  lemma SectionsStep(j: nat)
    requires j < |Sections|
    ensures Sections[..j + 1] == Sections[..j] + [Sections[j]]
    ensures Sections[j] in Sections && Sections[j] !in Sections[..j]
  {
    assert Sections[..j + 1] == Sections[..j] + [Sections[j]];
  }

  /** `resolve_providers_and_departments`: a fresh pair of caches, the sections in the
      source's order, one commit. */
  method ResolveProvidersAndDepartments(store: Store, data: Document, now: Value) returns (result: Document)
    requires store.Valid()
    requires ResolvableShape(data)
    modifies store
    ensures store.Valid()
    ensures old(store.departments) <= store.departments && old(store.providers) <= store.providers
    ensures KeysFreshFrom(store.departments, |old(store.departments)|)
    ensures KeysFreshFrom(store.providers, |old(store.providers)|)
    ensures store.patients == old(store.patients) && store.visits == old(store.visits)
    ensures store.staged == old(store.staged) && store.commits == old(store.commits) + 1
    ensures DocFoundIn(data, Sections, store.departments, store.providers)
    ensures result == ResolvedDoc(data, store.departments, store.providers)
    ensures TablesOf(store) == AddedDoc(old(TablesOf(store)), data, Sections, now)
  {
    var resolver := new Resolver(store, now);
    result := resolver.ResolveSections(data);
    store.Commit();
  }

  // ---------------------------------------------------------------------------
  // Properties of the rewrite.

  /** No dict left at `field`. */
  predicate NotEmbedded(rec: Record, field: string) {
    field !in rec || !rec[field].Obj?
  }

  /** After resolution no allow-listed location of any record holds a dict. */
  ghost predicate NoEmbedded(data: Document) {
    forall k, i | k in data && k in Sections && data[k].Arr? && 0 <= i < |data[k].items| && data[k].items[i].Obj? ::
      var rec := data[k].items[i].fields;
      && (forall f | f in LocationFields(k) :: NotEmbedded(rec, f))
      && (k == "visit" && "visit_notes" in rec && rec["visit_notes"].Obj? ==>
            NotEmbedded(rec["visit_notes"].fields, "author_provider"))
  }

  function LocationFields(section: string): set<string> {
    set l | l in Locations(section) :: l.0
  }

  /** Replacing one field never puts a dict anywhere: it deletes the field and writes
      an id or `None`. */
  lemma ReplaceAtKeepsNotEmbedded(rec: Record, field: string, kind: Kind, D: seq<Row<DeptKey>>, P: seq<Row<ProvKey>>, g: string)
    requires NotEmbedded(rec, g) || g == field
    ensures NotEmbedded(ReplaceAt(rec, field, kind, D, P), g)
  {
  }

  lemma {:induction false} ReplaceAllClears(rec: Record, locs: seq<(string, Kind)>, D: seq<Row<DeptKey>>, P: seq<Row<ProvKey>>, g: string)
    requires NotEmbedded(rec, g) || exists l | l in locs :: l.0 == g
    ensures NotEmbedded(ReplaceAll(rec, locs, D, P), g)
    decreases |locs|
  {
    if locs != [] {
      var rec' := ReplaceAt(rec, locs[0].0, locs[0].1, D, P);
      if NotEmbedded(rec, g) || locs[0].0 == g {
        ReplaceAtKeepsNotEmbedded(rec, locs[0].0, locs[0].1, D, P, g);
      } else {
        var l :| l in locs && l.0 == g;
        assert locs == [locs[0]] + locs[1..];
        assert l in locs[1..];
      }
      ReplaceAllClears(rec', locs[1..], D, P, g);
    }
  }

  /** A resolved record holds no dict at any allow-listed location of its section. */
  lemma ResolvedClears(section: string, rec: Record, D: seq<Row<DeptKey>>, P: seq<Row<ProvKey>>)
    ensures forall f | f in LocationFields(section) :: NotEmbedded(Resolved(section, rec, D, P), f)
    ensures var r := Resolved(section, rec, D, P);
      section == "visit" && "visit_notes" in r && r["visit_notes"].Obj? ==>
        NotEmbedded(r["visit_notes"].fields, "author_provider")
  {
    var locs := Locations(section);
    var rAll := ReplaceAll(rec, locs, D, P);
    forall f | f in LocationFields(section)
      ensures NotEmbedded(rAll, f)
    {
      var l :| l in locs && l.0 == f;
      ReplaceAllClears(rec, locs, D, P, f);
    }
    if section == "visit" && "visit_notes" in rAll && rAll["visit_notes"].Obj? {
      ReplaceAtKeepsNotEmbedded(rAll["visit_notes"].fields, "author_provider", ProviderKind, D, P, "author_provider");
    }
  }

  /** After `resolve_providers_and_departments` no allow-listed location holds a dict. */
  lemma ResolvedDocHasNoEmbedded(data: Document, D: seq<Row<DeptKey>>, P: seq<Row<ProvKey>>)
    ensures NoEmbedded(ResolvedDoc(data, D, P))
  {
    var out := ResolvedDoc(data, D, P);
    forall k, i | k in out && k in Sections && out[k].Arr? && 0 <= i < |out[k].items| && out[k].items[i].Obj?
      ensures var rec := out[k].items[i].fields;
        && (forall f | f in LocationFields(k) :: NotEmbedded(rec, f))
        && (k == "visit" && "visit_notes" in rec && rec["visit_notes"].Obj? ==>
              NotEmbedded(rec["visit_notes"].fields, "author_provider"))
    {
      assert data[k].Arr?;
      assert data[k].items[i].Obj?;
      ResolvedClears(k, data[k].items[i].fields, D, P);
    }
  }

  lemma {:induction false} ReplaceAllNoop(rec: Record, locs: seq<(string, Kind)>, D: seq<Row<DeptKey>>, P: seq<Row<ProvKey>>)
    requires forall l | l in locs :: NotEmbedded(rec, l.0)
    ensures ReplaceAll(rec, locs, D, P) == rec
    decreases |locs|
  {
    if locs != [] {
      assert locs[0] in locs;
      forall l | l in locs[1..] ensures NotEmbedded(rec, l.0) {
        assert l in locs;
      }
      ReplaceAllNoop(rec, locs[1..], D, P);
    }
  }

  /** Resolving a resolved record again, against any rows, changes nothing: every
      allow-listed field is gone, so `replace_obj_with_id` is a no-op on it. */
  lemma ResolvedIdempotent(section: string, rec: Record, D: seq<Row<DeptKey>>, P: seq<Row<ProvKey>>,
                           D': seq<Row<DeptKey>>, P': seq<Row<ProvKey>>)
    ensures Resolved(section, Resolved(section, rec, D, P), D', P') == Resolved(section, rec, D, P)
  {
    var r := Resolved(section, rec, D, P);
    ResolvedClears(section, rec, D, P);
    forall l | l in Locations(section) ensures NotEmbedded(r, l.0) {
      assert l.0 in LocationFields(section);
    }
    ReplaceAllNoop(r, Locations(section), D', P');
    if section == "visit" && "visit_notes" in r && r["visit_notes"].Obj? {
      var notes := r["visit_notes"].fields;
      assert ReplaceAt(notes, "author_provider", ProviderKind, D', P') == notes;
      assert r["visit_notes" := Obj(notes)] == r;
    }
  }

  /** The whole rewrite is idempotent: running it on its own output, whatever rows the
      store holds by then, returns that output unchanged. */
  lemma ResolvedDocIdempotent(data: Document, D: seq<Row<DeptKey>>, P: seq<Row<ProvKey>>,
                              D': seq<Row<DeptKey>>, P': seq<Row<ProvKey>>)
    ensures ResolvedDoc(ResolvedDoc(data, D, P), D', P') == ResolvedDoc(data, D, P)
  {
    var once := ResolvedDoc(data, D, P);
    forall k | k in once && k in Sections && once[k].Arr?
      ensures ResolvedItems(k, once[k].items, D', P') == once[k].items
    {
      forall i | 0 <= i < |once[k].items|
        ensures ResolvedItem(k, once[k].items[i], D', P') == once[k].items[i]
      {
        if data[k].items[i].Obj? {
          ResolvedIdempotent(k, data[k].items[i].fields, D, P, D', P');
        }
      }
    }
  }

  // ---------------------------------------------------------------------------
  // Properties of the rows added.

  /** A second `get_or_create_department` of the same dict adds no row. */
  lemma DeptAddedIdempotent(t: Tables, d: Value, now: Value)
    ensures DeptAdded(DeptAdded(t, d, now), d, now) == DeptAdded(t, d, now)
  {
    if IsFilledObj(d) && FindFirst(t.departments, DeptKeyOf(d.fields)).None? {
      FirstMatchAppended(t.departments, Row(t.nextId, DeptKeyOf(d.fields), now));
    }
  }

  /** After `get_or_create_department` a non-empty dict has a stored match, and rows
      are only appended. */
  lemma DeptAddedFinds(t: Tables, d: Value, now: Value)
    ensures t.departments <= DeptAdded(t, d, now).departments && t.providers == DeptAdded(t, d, now).providers
    ensures IsFilledObj(d) ==> FindFirst(DeptAdded(t, d, now).departments, DeptKeyOf(d.fields)).Some?
  {
    if IsFilledObj(d) && FindFirst(t.departments, DeptKeyOf(d.fields)).None? {
      FirstMatchAppended(t.departments, Row(t.nextId, DeptKeyOf(d.fields), now));
    }
  }

  /** A second `get_or_create_provider` of the same dict adds no row: its department
      and then its own key are found by then. */
  lemma ProvAddedIdempotent(t: Tables, p: Value, now: Value)
    ensures ProvAdded(ProvAdded(t, p, now), p, now) == ProvAdded(t, p, now)
  {
    if IsFilledObj(p) {
      var t1 := if "department" in p.fields then DeptAdded(t, p.fields["department"], now) else t;
      var k := ProvKeyOf(p.fields, ProvDeptIdIn(p.fields, t1.departments));
      var t2 := ProvAdded(t, p, now);
      if FindFirst(t1.providers, k).None? {
        FirstMatchAppended(t1.providers, Row(t1.nextId, k, now));
      }
      assert FindFirst(t2.providers, k).Some?;
      assert t1.departments <= t2.departments;
      if "department" in p.fields {
        var d := p.fields["department"];
        DeptAddedFinds(t, d, now);
        if IsFilledObj(d) {
          FirstMatchStable(t1.departments, t2.departments, DeptKeyOf(d.fields));
        }
        DeptAddedIdempotent(t, d, now);
        assert DeptAdded(t2, d, now) == t2;
      }
      assert ProvDeptIdIn(p.fields, t2.departments) == ProvDeptIdIn(p.fields, t1.departments);
    }
  }

  /** A record with no dict at any allow-listed location adds no row. */
  lemma {:induction false} AddedAllNoop(t: Tables, rec: Record, locs: seq<(string, Kind)>, now: Value)
    requires forall l | l in locs :: NotEmbedded(rec, l.0)
    ensures AddedAll(t, rec, locs, now) == t
    decreases |locs|
  {
    if locs != [] {
      assert locs[0] in locs;
      forall l | l in locs[1..] ensures NotEmbedded(rec, l.0) {
        assert l in locs;
      }
      AddedAllNoop(t, rec, locs[1..], now);
    }
  }

  /** A list whose records embed nothing adds no row. */
  lemma {:induction false} AddedItemsNoop(t: Tables, section: string, items: seq<Value>, now: Value)
    requires forall i | 0 <= i < |items| && items[i].Obj? :: RecordEmbedsNothing(section, items[i].fields)
    ensures AddedItems(t, section, items, now) == t
    decreases |items|
  {
    if items != [] {
      var init := items[..|items| - 1];
      assert forall i | 0 <= i < |init| :: init[i] == items[i];
      AddedItemsNoop(t, section, init, now);
      var last := items[|items| - 1];
      if last.Obj? {
        forall l | l in Locations(section) ensures NotEmbedded(last.fields, l.0) {
          assert l.0 in LocationFields(section);
        }
        AddedAllNoop(t, last.fields, Locations(section), now);
      }
    }
  }

  /** No dict at an allow-listed location of a record of `section`. */
  ghost predicate RecordEmbedsNothing(section: string, rec: Record) {
    && (forall f | f in LocationFields(section) :: NotEmbedded(rec, f))
    && (section == "visit" && "visit_notes" in rec && rec["visit_notes"].Obj? ==>
          NotEmbedded(rec["visit_notes"].fields, "author_provider"))
  }

  /** A document with no embedded department or provider adds no row. */
  lemma {:induction false} AddedDocNoop(t: Tables, data: Document, done: seq<string>, now: Value)
    requires NoEmbedded(data)
    requires forall j | 0 <= j < |done| :: done[j] in Sections
    ensures AddedDoc(t, data, done, now) == t
    decreases |done|
  {
    if done != [] {
      var init := done[..|done| - 1];
      assert forall j | 0 <= j < |init| :: init[j] == done[j];
      AddedDocNoop(t, data, init, now);
      var s := done[|done| - 1];
      if s in data && data[s].Arr? {
        AddedItemsNoop(t, s, data[s].items, now);
      }
    }
  }

  /** Resolving the resolver's own output creates no row, whatever rows the store
      holds by then. */
  lemma SecondRunAddsNothing(t: Tables, data: Document, D: seq<Row<DeptKey>>, P: seq<Row<ProvKey>>, now: Value)
    ensures AddedDoc(t, ResolvedDoc(data, D, P), Sections, now) == t
  {
    ResolvedDocHasNoEmbedded(data, D, P);
    AddedDocNoop(t, ResolvedDoc(data, D, P), Sections, now);
  }

  /** Where a resolved id lands: an allow-listed field holding a dict is replaced by
      `<field>_id` holding the id of that dict's first matching row (or `None` for
      `{}`), and the field itself is gone. */
  lemma ResolvedIdAt(section: string, rec: Record, n: nat, D: seq<Row<DeptKey>>, P: seq<Row<ProvKey>>)
    requires n < |Locations(section)|
    requires var (f, _) := Locations(section)[n]; f in rec && rec[f].Obj?
    ensures var (f, kind) := Locations(section)[n];
      var r := Resolved(section, rec, D, P);
      && f !in r
      && f + "_id" in r && r[f + "_id"] == IdValue(IdIn(kind, rec[f], D, P))
  {
    var locs := Locations(section);
    LocationsApart(section);
    ReplaceAllIdAt(rec, locs, n, D, P);
  }

  /** The nested location of a visit: an `author_provider` dict inside a dict
      `visit_notes` is replaced by `author_provider_id` holding the id of the first
      matching provider row, and the rest of `visit_notes` is kept. */
  lemma ResolvedNotesIdAt(rec: Record, D: seq<Row<DeptKey>>, P: seq<Row<ProvKey>>)
    requires "visit_notes" in rec && rec["visit_notes"].Obj?
    requires "author_provider" in rec["visit_notes"].fields && rec["visit_notes"].fields["author_provider"].Obj?
    ensures var notes := rec["visit_notes"].fields;
      var r := Resolved("visit", rec, D, P);
      && "visit_notes" in r && r["visit_notes"].Obj?
      && "author_provider" !in r["visit_notes"].fields
      && "author_provider_id" in r["visit_notes"].fields
      && r["visit_notes"].fields["author_provider_id"] == IdValue(ProvIdIn(notes["author_provider"], D, P))
      && (forall k | k in notes && k != "author_provider" && k != "author_provider_id" ::
            k in r["visit_notes"].fields && r["visit_notes"].fields[k] == notes[k])
  {
    VisitNotesUntouched(rec, D, P);
    var notes := rec["visit_notes"].fields;
    var r0 := ReplaceAll(rec, Locations("visit"), D, P);
    assert r0["visit_notes"].fields == notes;
    assert "author_provider" + "_id" == "author_provider_id";
    assert Resolved("visit", rec, D, P)["visit_notes"].fields == ReplaceAt(notes, "author_provider", ProviderKind, D, P);
  }

  /** The allow-list of a section names one or two fields, and rewriting one of
      them never touches the other or `visit_notes`. */
  lemma LocationsApart(section: string)
    ensures var locs := Locations(section);
      && |locs| <= 2
      && (forall l | l in locs :: l.0 != "visit_notes" && l.0 + "_id" != "visit_notes")
      && (|locs| == 2 ==> Apart(locs[0].0, locs[1].0))
  {
  }

  /** Rewriting `a` keeps `b` and `b_id`, and the other way round. */
  predicate Apart(a: string, b: string) {
    a != b && a + "_id" != b && b + "_id" != a && a + "_id" != b + "_id"
  }

  /** The field at position `n` of a short allow-list whose fields are apart ends
      up as its id. */
  lemma ReplaceAllIdAt(rec: Record, locs: seq<(string, Kind)>, n: nat, D: seq<Row<DeptKey>>, P: seq<Row<ProvKey>>)
    requires n < |locs| <= 2
    requires |locs| == 2 ==> Apart(locs[0].0, locs[1].0)
    requires locs[n].0 in rec && rec[locs[n].0].Obj?
    ensures var r := ReplaceAll(rec, locs, D, P);
      && locs[n].0 !in r
      && locs[n].0 + "_id" in r && r[locs[n].0 + "_id"] == IdValue(IdIn(locs[n].1, rec[locs[n].0], D, P))
  {
    var r0 := ReplaceAt(rec, locs[0].0, locs[0].1, D, P);
    if |locs| == 1 {
      assert locs[1..] == [];
      assert ReplaceAll(rec, locs, D, P) == r0;
    } else {
      assert locs[1..][1..] == [];
      var r1 := ReplaceAt(r0, locs[1].0, locs[1].1, D, P);
      assert ReplaceAll(r1, locs[1..][1..], D, P) == r1;
      assert ReplaceAll(r0, locs[1..], D, P) == r1;
      assert ReplaceAll(rec, locs, D, P) == r1;
      if n == 1 {
        assert r0[locs[1].0] == rec[locs[1].0];
      }
    }
  }

  /** Two departments whose natural keys differ (for instance only in system_name)
      resolve to two different rows, with different ids. */
  lemma DifferentDepartmentsDifferentIds(a: Value, b: Value, D: seq<Row<DeptKey>>, next: int)
    requires WellNumbered(D, next)
    requires IsFilledObj(a) && IsFilledObj(b)
    requires DeptIdIn(a, D).Some? && DeptIdIn(b, D).Some?
    requires DeptKeyOf(a.fields) != DeptKeyOf(b.fields)
    ensures DeptIdIn(a, D) != DeptIdIn(b, D)
  {
    DistinctKeysDistinctIds(D, next, DeptKeyOf(a.fields), DeptKeyOf(b.fields));
  }

  /** Two providers with equal natural keys resolve to the same id, whatever else
      their dicts hold; one without active_status and one with active_status True
      are the same provider. */
  lemma EqualProviderKeysShareId(a: Value, b: Value, D: seq<Row<DeptKey>>, P: seq<Row<ProvKey>>)
    requires IsFilledObj(a) && IsFilledObj(b)
    requires forall f | f in ["provider_name", "npi_number", "specialty"] :: Get(a.fields, f) == Get(b.fields, f)
    requires GetOr(a.fields, "active_status", Bool(true)) == GetOr(b.fields, "active_status", Bool(true))
    requires ProvDeptIdIn(a.fields, D) == ProvDeptIdIn(b.fields, D)
    ensures ProvIdIn(a, D, P) == ProvIdIn(b, D, P)
  {
    assert "provider_name" in ["provider_name", "npi_number", "specialty"];
    assert "npi_number" in ["provider_name", "npi_number", "specialty"];
    assert "specialty" in ["provider_name", "npi_number", "specialty"];
  }
}
