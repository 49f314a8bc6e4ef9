/** The visit remapper (`JSONFormatter.insert_visits_and_resolve_ids`): every visit
    of the document becomes a Visit row with a store-assigned id, a table maps each
    provisional `visit_id` written by the extraction step to that id, and every
    dependent record that names a provisional id is rewritten to name the row. */
module VisitRemap {
  import opened Json
  import opened Db

  /** The sections whose records may carry a provisional visit_id, in the order they
      are rewritten. */
  const DependentSections: seq<string> :=
    ["symptom", "diagnosis", "medication", "vitalsigns", "labresult", "imagingstudy", "proceduretreatment", "visitnotes"]

  /** The columns of the Visit row built from one visit dict; every other key of the
      dict, visit_notes included, is not persisted. */
  function VisitColsOf(v: Record): VisitCols {
    VisitCols(Get(v, "patient_id"), Get(v, "visit_date"), Get(v, "visit_type"),
              Get(v, "department_id"), Get(v, "primary_provider_id"), Get(v, "discharge_date"))
  }

  /** The provisional id of a visit (`visit.get("visit_id")`, `None` when absent). */
  function TempId(v: Value): Value
    requires v.Obj?
  {
    Get(v.fields, "visit_id")
  }

  /** The Visit rows inserted for `visits`, in order, numbered from `first`. */
  function VisitRows(visits: seq<Value>, first: int, now: Value): seq<Row<VisitCols>>
    requires AllObjs(visits)
  {
    seq(|visits|, i requires 0 <= i < |visits| => Row(first + i, VisitColsOf(visits[i].fields), now))
  }

  /** The provisional-id table after inserting `visits` in order with ids `first`,
      `first + 1`, ...: each entry overwrites any earlier entry for the same key. */
  function RemapTable(visits: seq<Value>, first: int): map<Value, int>
    requires AllObjs(visits)
    decreases |visits|
  {
    if visits == [] then map[]
    else
      var n := |visits| - 1;
      RemapTable(visits[..n], first)[TempId(visits[n]) := first + n]
  }

  /** A provisional id is in the table exactly when some visit carries it, and then
      it maps to the id of the LAST visit carrying it. */
  lemma {:induction false} RemapTableLast(visits: seq<Value>, first: int, t: Value)
    requires AllObjs(visits)
    ensures t in RemapTable(visits, first) <==> exists i | 0 <= i < |visits| :: TempId(visits[i]) == t
    ensures t in RemapTable(visits, first) ==>
      exists i | 0 <= i < |visits| ::
        && TempId(visits[i]) == t
        && RemapTable(visits, first)[t] == first + i
        && forall j | i < j < |visits| :: TempId(visits[j]) != t
    decreases |visits|
  {
    if visits != [] {
      var n := |visits| - 1;
      var pre := visits[..n];
      RemapTableLast(pre, first, t);
      var table := RemapTable(visits, first);
      assert table == RemapTable(pre, first)[TempId(visits[n]) := first + n];
      if TempId(visits[n]) == t {
        assert table[t] == first + n;
      } else {
        if t in table {
          var i :| 0 <= i < n && TempId(pre[i]) == t && RemapTable(pre, first)[t] == first + i
                   && forall j | i < j < n :: TempId(pre[j]) != t;
          assert TempId(visits[i]) == t;
          assert forall j | i < j < |visits| :: TempId(visits[j]) != t by {
            assert forall j | i < j < n :: pre[j] == visits[j];
          }
        } else {
          forall i | 0 <= i < |visits| ensures TempId(visits[i]) != t {
            if i < n {
              assert pre[i] == visits[i];
            }
          }
        }
      }
    }
  }

  /** `replace_visit_ids` on one element: a dict whose visit_id (read with `.get`,
      so a missing one reads as `None`) is a provisional id gets the row id. */
  function RemapItem(v: Value, table: map<Value, int>): (r: Value)
    ensures r.Obj? <==> v.Obj?
    ensures r.Obj? ==> forall k | k != "visit_id" ::
      (k in r.fields <==> k in v.fields) && (k in v.fields ==> r.fields[k] == v.fields[k])
  {
    if v.Obj? && Get(v.fields, "visit_id") in table then
      Obj(v.fields["visit_id" := Int(table[Get(v.fields, "visit_id")])])
    else v
  }

  /** A section after `replace_visit_ids`: a list is rewritten element by element;
      iterating a dict or a string visits keys or characters, which are left alone. */
  function RemapSection(v: Value, table: map<Value, int>): Value {
    if v.Arr? then Arr(seq(|v.items|, i requires 0 <= i < |v.items| => RemapItem(v.items[i], table)))
    else v
  }

  /** The document once the sections in `done` have been rewritten. */
  function PartlyRemapped(data: Document, done: seq<string>, table: map<Value, int>): Document {
    map k | k in data :: if k in done then RemapSection(data[k], table) else data[k]
  }

  /** The document the remapper returns: every dependent section rewritten and the
      visit section removed. */
  function RemappedDoc(data: Document, table: map<Value, int>): (r: Document)
    ensures r.Keys == data.Keys - {"visit"}
    ensures forall k | k in r && k !in DependentSections :: r[k] == data[k]
  {
    PartlyRemapped(data, DependentSections, table) - {"visit"}
  }

  /** A dependent section of the returned document is that section rewritten. */
  lemma RemappedSection(data: Document, table: map<Value, int>, s: string)
    requires s in DependentSections && s in data
    ensures s in RemappedDoc(data, table) && RemappedDoc(data, table)[s] == RemapSection(data[s], table)
  {
    assert s != "visit";
  }

  /** Python iterates a section with `for obj in ...`: a list, a dict or a string. */
  predicate Iterable(v: Value) {
    v.Arr? || v.Obj? || v.Str?
  }

  /** Inputs the model covers: visits form a list of dicts,
      each dependent section present is iterable, and no dependent dict lacks a
      visit_id while some visit lacks one (the rewrite would read the missing key
      with `[]` and raise). */
  predicate RemappableShape(data: Document) {
    Truthy(Get(data, "visit")) ==>
      && data["visit"].Arr? && AllObjs(data["visit"].items)
      && (forall s | s in DependentSections && s in data :: Iterable(data[s]))
      && ((exists i | 0 <= i < |data["visit"].items| :: TempId(data["visit"].items[i]) == Null) ==>
            forall s | s in DependentSections && s in data && data[s].Arr? ::
              forall i | 0 <= i < |data[s].items| && data[s].items[i].Obj? :: "visit_id" in data[s].items[i].fields)
  }

  /** `replace_visit_ids(objs)`: rewrites the list in place, element by element. */
  method ReplaceVisitIds(objs: seq<Value>, table: map<Value, int>) returns (out: seq<Value>)
    requires forall i | 0 <= i < |objs| && objs[i].Obj? && Get(objs[i].fields, "visit_id") in table ::
      "visit_id" in objs[i].fields
    ensures Arr(out) == RemapSection(Arr(objs), table)
  {
    out := objs;
    for i := 0 to |objs|
      invariant |out| == |objs|
      invariant forall k | 0 <= k < i :: out[k] == RemapItem(objs[k], table)
      invariant forall k | i <= k < |objs| :: out[k] == objs[k]
    {
      var obj := out[i];
      if obj.Obj? && Get(obj.fields, "visit_id") in table {
        out := out[i := Obj(obj.fields["visit_id" := Int(table[obj.fields["visit_id"]])])];
      }
    }
  }

  lemma PartlyRemappedStep(data: Document, done: seq<string>, s: string, table: map<Value, int>)
    requires s !in done
    ensures s in data ==>
      PartlyRemapped(data, done + [s], table) == PartlyRemapped(data, done, table)[s := RemapSection(data[s], table)]
    ensures s !in data ==> PartlyRemapped(data, done + [s], table) == PartlyRemapped(data, done, table)
    ensures s in data && !data[s].Arr? ==> PartlyRemapped(data, done + [s], table) == PartlyRemapped(data, done, table)
  {
    assert forall k | k in done + [s] :: k in done || k == s;
    assert forall k | k in done :: k in done + [s];
  }

  /** Inserting one more visit adds its row and files its provisional id. */
  lemma VisitRowsStep(visits: seq<Value>, i: nat, first: int, now: Value)
    requires AllObjs(visits) && i < |visits|
    ensures VisitRows(visits[..i + 1], first, now) ==
      VisitRows(visits[..i], first, now) + [Row(first + i, VisitColsOf(visits[i].fields), now)]
    ensures RemapTable(visits[..i + 1], first) == RemapTable(visits[..i], first)[TempId(visits[i]) := first + i]
  {
    assert visits[..i + 1][..i] == visits[..i];
    assert VisitRows(visits[..i + 1], first, now) ==
      VisitRows(visits[..i], first, now) + [Row(first + i, VisitColsOf(visits[i].fields), now)];
  }

  /** The insertion loop: one Visit row per visit, flushed to obtain its id, each id
      filed in the table under the visit's provisional id. */
  method InsertVisitRows(store: Store, visits: seq<Value>, now: Value) returns (table: map<Value, int>)
    requires store.Valid() && AllObjs(visits)
    modifies store`visits, store`nextId
    ensures store.Valid()
    ensures store.visits == old(store.visits) + VisitRows(visits, old(store.nextId), now)
    ensures store.nextId == old(store.nextId) + |visits|
    ensures table == RemapTable(visits, old(store.nextId))
  {
    ghost var first := store.nextId;
    table := map[];
    for i := 0 to |visits|
      invariant store.Valid()
      invariant store.nextId == first + i
      invariant store.visits == old(store.visits) + VisitRows(visits[..i], first, now)
      invariant table == RemapTable(visits[..i], first)
    {
      var visit := visits[i].fields;
      var id := store.AddVisit(VisitColsOf(visit), now);
      table := table[Get(visit, "visit_id") := id];
      VisitRowsStep(visits, i, first, now);
    }
    assert visits[..|visits|] == visits;
  }

  /** The dependent sections are rewritten one after another, each once. */
  lemma DependentStep(j: nat)
    requires j < |DependentSections|
    ensures DependentSections[..j + 1] == DependentSections[..j] + [DependentSections[j]]
    ensures DependentSections[j] !in DependentSections[..j]
  {
    assert DependentSections[..j + 1] == DependentSections[..j] + [DependentSections[j]];
  }

  /** The rewriting loop over the dependent sections present in the document. */
  method RemapDependentSections(data: Document, table: map<Value, int>) returns (result: Document)
    requires forall s | s in DependentSections && s in data && data[s].Arr? ::
      forall i | 0 <= i < |data[s].items| && data[s].items[i].Obj? && Get(data[s].items[i].fields, "visit_id") in table ::
        "visit_id" in data[s].items[i].fields
    ensures result == PartlyRemapped(data, DependentSections, table)
  {
    result := data;
    for j := 0 to |DependentSections|
      invariant result == PartlyRemapped(data, DependentSections[..j], table)
    {
      var s := DependentSections[j];
      DependentStep(j);
      PartlyRemappedStep(data, DependentSections[..j], s, table);
      if s in result && result[s].Arr? {
        assert result[s] == data[s];
        var items := ReplaceVisitIds(result[s].items, table);
        result := result[s := Arr(items)];
      }
    }
    assert DependentSections[..|DependentSections|] == DependentSections;
  }

  /** `insert_visits_and_resolve_ids`: with no (or an empty) visit section the
      document is returned as it is and the store is untouched; otherwise one Visit
      row per visit is added, in order, the dependent sections are rewritten through
      the provisional-id table, the visit section is removed and the session commits. */
  method InsertVisitsAndResolveIds(store: Store, data: Document, now: Value) returns (result: Document)
    requires store.Valid()
    requires RemappableShape(data)
    modifies store
    ensures store.Valid()
    ensures !Truthy(Get(data, "visit")) ==> result == data && unchanged(store)
    ensures Truthy(Get(data, "visit")) ==>
      var visits := data["visit"].items;
      && store.visits == old(store.visits) + VisitRows(visits, old(store.nextId), now)
      && store.nextId == old(store.nextId) + |visits|
      && result == RemappedDoc(data, RemapTable(visits, old(store.nextId)))
      && store.commits == old(store.commits) + 1
      && store.patients == old(store.patients) && store.departments == old(store.departments)
      && store.providers == old(store.providers) && store.staged == old(store.staged)
      && store.queries == old(store.queries)
  {
    if !Truthy(Get(data, "visit")) {
      return data;
    }
    var visits := data["visit"].items;
    var table := InsertVisitRows(store, visits, now);
    RemapKeyGuard(data, old(store.nextId));
    result := RemapDependentSections(data, table);
    result := result - {"visit"};
    store.Commit();
  }

  /** The shape requirement rules out the missing-key read: a dependent dict whose
      `.get("visit_id")` is in the table does hold the key. */
  lemma RemapKeyGuard(data: Document, first: int)
    requires Truthy(Get(data, "visit")) && RemappableShape(data)
    ensures var table := RemapTable(data["visit"].items, first);
      forall s | s in DependentSections && s in data && data[s].Arr? ::
        forall i | 0 <= i < |data[s].items| && data[s].items[i].Obj? && Get(data[s].items[i].fields, "visit_id") in table ::
          "visit_id" in data[s].items[i].fields
  {
    var visits := data["visit"].items;
    if Null in RemapTable(visits, first) {
      RemapTableLast(visits, first, Null);
    }
  }

  /** The visit section is a list of dicts. */
  predicate VisitsListed(data: Document) {
    "visit" in data && data["visit"].Arr? && AllObjs(data["visit"].items)
  }

  /** The rewrite's guarantee: a dependent dict naming a provisional id ends up naming
      the row inserted for the last visit that carried that id. */
  lemma RemappedToLastVisit(data: Document, first: int, now: Value, s: string, n: nat)
    requires VisitsListed(data)
    requires s in DependentSections && s in data && data[s].Arr?
    requires n < |data[s].items| && data[s].items[n].Obj?
    requires var visits := data["visit"].items;
      exists i | 0 <= i < |visits| :: TempId(visits[i]) == Get(data[s].items[n].fields, "visit_id")
    ensures var visits := data["visit"].items;
      var t := Get(data[s].items[n].fields, "visit_id");
      var r := RemappedDoc(data, RemapTable(visits, first))[s];
      && r.Arr? && n < |r.items| && r.items[n].Obj? && "visit_id" in r.items[n].fields
      && exists i | 0 <= i < |visits| ::
           && TempId(visits[i]) == t
           && (forall j | i < j < |visits| :: TempId(visits[j]) != t)
           && r.items[n].fields["visit_id"] == Int(VisitRows(visits, first, now)[i].id)
  {
    var visits := data["visit"].items;
    var table := RemapTable(visits, first);
    var t := Get(data[s].items[n].fields, "visit_id");
    RemappedSection(data, table, s);
    RemapTableLast(visits, first, t);
    var i :| 0 <= i < |visits| && TempId(visits[i]) == t && table[t] == first + i
             && forall j | i < j < |visits| :: TempId(visits[j]) != t;
    var r := RemapSection(data[s], table);
    assert r.items[n] == RemapItem(data[s].items[n], table);
    assert VisitRows(visits, first, now)[i].id == first + i;
  }

  /** A dependent record whose visit_id is no visit's provisional id is left exactly
      as it was. */
  lemma UnmatchedLeftAlone(data: Document, first: int, s: string, n: nat)
    requires VisitsListed(data)
    requires s in DependentSections && s in data && data[s].Arr? && n < |data[s].items|
    requires var visits := data["visit"].items; var v := data[s].items[n];
      v.Obj? ==> forall i | 0 <= i < |visits| :: TempId(visits[i]) != Get(v.fields, "visit_id")
    ensures var r := RemappedDoc(data, RemapTable(data["visit"].items, first))[s];
      r.Arr? && n < |r.items| && r.items[n] == data[s].items[n]
  {
    var table := RemapTable(data["visit"].items, first);
    RemappedSection(data, table, s);
    var v := data[s].items[n];
    if v.Obj? {
      RemapTableLast(data["visit"].items, first, Get(v.fields, "visit_id"));
    }
    assert RemapSection(data[s], table).items[n] == RemapItem(v, table);
  }

  /** Every dict of a list section names, as visit_id, one of the `count` rows
      numbered from `first`. */
  predicate NamesNewRows(v: Value, first: int, count: nat) {
    v.Arr? && forall n | 0 <= n < |v.items| && v.items[n].Obj? ::
      var id := Get(v.items[n].fields, "visit_id");
      id.Int? && first <= id.i < first + count
  }

  /** No dangling visit reference is left: once every dependent dict named some
      provisional id, every dependent dict names one of the Visit rows just inserted
      (numbered `first` to `first + |visits| - 1`, see `VisitRows`). */
  lemma AllVisitReferencesResolved(data: Document, first: int, s: string)
    requires VisitsListed(data)
    requires s in DependentSections && s in data && data[s].Arr?
    requires forall n | 0 <= n < |data[s].items| && data[s].items[n].Obj? ::
      exists i | 0 <= i < |data["visit"].items| :: TempId(data["visit"].items[i]) == Get(data[s].items[n].fields, "visit_id")
    ensures NamesNewRows(RemappedDoc(data, RemapTable(data["visit"].items, first))[s], first, |data["visit"].items|)
  {
    var visits := data["visit"].items;
    var table := RemapTable(visits, first);
    RemappedSection(data, table, s);
    var r := RemapSection(data[s], table);
    forall n | 0 <= n < |r.items| && r.items[n].Obj?
      ensures var id := Get(r.items[n].fields, "visit_id"); id.Int? && first <= id.i < first + |visits|
    {
      RemappedToLastVisit(data, first, Int(0), s, n);
    }
  }

  /** Two visits with different provisional ids a and b, and three diagnoses naming
      a, a and b: the first two diagnoses share the first visit's row id, the third
      names the second row. */
  lemma TwoVisitsThreeDiagnoses(a: Value, b: Value, first: int, now: Value)
    requires a != b
    ensures
      var visits := [Obj(map["visit_id" := a]), Obj(map["visit_id" := b])];
      var dx := [Obj(map["visit_id" := a]), Obj(map["visit_id" := a]), Obj(map["visit_id" := b])];
      var data := map["visit" := Arr(visits), "diagnosis" := Arr(dx)];
      var rows := VisitRows(visits, first, now);
      var out := RemappedDoc(data, RemapTable(visits, first));
      && "visit" !in out
      && out["diagnosis"] == Arr([Obj(map["visit_id" := Int(rows[0].id)]), Obj(map["visit_id" := Int(rows[0].id)]),
                                  Obj(map["visit_id" := Int(rows[1].id)])])
      && rows[0].id != rows[1].id
  {
    var v1, v2 := Obj(map["visit_id" := a]), Obj(map["visit_id" := b]);
    var visits := [v1, v2];
    var table := TwoVisitTable(v1, v2, first);
    var data := map["visit" := Arr(visits), "diagnosis" := Arr([v1, v1, v2])];
    RemappedSection(data, table, "diagnosis");
    var w1, w2 := Obj(map["visit_id" := Int(first)]), Obj(map["visit_id" := Int(first + 1)]);
    RemapLoneId(a, table);
    RemapLoneId(b, table);
    assert RemapSection(Arr([v1, v1, v2]), table) == Arr([w1, w1, w2]);
    var rows := VisitRows(visits, first, now);
    assert rows[0].id == first && rows[1].id == first + 1;
  }

  /** A dict holding only a provisional id in the table gets the row id. */
  lemma RemapLoneId(t: Value, table: map<Value, int>)
    requires t in table
    ensures RemapItem(Obj(map["visit_id" := t]), table) == Obj(map["visit_id" := Int(table[t])])
  {
    assert map["visit_id" := t]["visit_id" := Int(table[t])] == map["visit_id" := Int(table[t])];
  }

  /** The table for two visits. */
  lemma TwoVisitTable(v1: Value, v2: Value, first: int) returns (table: map<Value, int>)
    requires v1.Obj? && v2.Obj?
    ensures table == RemapTable([v1, v2], first)
    ensures table == map[TempId(v1) := first][TempId(v2) := first + 1]
  {
    assert [v1, v2][..1] == [v1] && [v1][..0] == [];
    assert RemapTable([v1][..0], first) == map[];
    table := map[TempId(v1) := first][TempId(v2) := first + 1];
  }

  /** A visit without a visit_id is filed under `None`, so a dependent record whose
      visit_id is an explicit `null` is linked to it. */
  lemma NullVisitIdLinks(first: int)
    ensures
      var visits := [Obj(map["visit_date" := Str("2024-01-02")])];
      var data := map["visit" := Arr(visits), "symptom" := Arr([Obj(map["visit_id" := Null])])];
      RemappedDoc(data, RemapTable(visits, first))["symptom"] == Arr([Obj(map["visit_id" := Int(first)])])
  {
    var visits := [Obj(map["visit_date" := Str("2024-01-02")])];
    var sx := Obj(map["visit_id" := Null]);
    var data := map["visit" := Arr(visits), "symptom" := Arr([sx])];
    assert visits[..0] == [];
    assert "visit_id" !in visits[0].fields;
    assert TempId(visits[0]) == Null;
    assert RemapTable(visits[..0], first) == map[];
    assert RemapTable(visits, first) == RemapTable(visits[..0], first)[TempId(visits[0]) := first + 0];
    var table := map[Null := first];
    assert RemapTable(visits, first) == table;
    RemappedSection(data, table, "symptom");
    assert RemapItem(sx, table) == Obj(map["visit_id" := Int(first)]);
    assert RemapSection(Arr([sx]), table) == Arr([Obj(map["visit_id" := Int(first)])]);
  }
}
