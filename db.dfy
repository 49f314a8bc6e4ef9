/** The relational store as the reconciliation layer sees it through its session:
    one sequence of rows per table in insertion order, a counter that hands out
    surrogate ids when a new row is flushed, a count of lookups issued, the rows the
    batch persister has staged but not yet numbered, and a count of commits. */
module Db {
  import opened Json

  /** A persisted row: its surrogate id, the table's own columns, and the creation
      timestamp (an opaque value supplied by the caller). */
  datatype Row<C> = Row(id: int, cols: C, created: Value)

  /** Department columns; they are exactly its natural key
      (department_name, department_type, system_name). */
  datatype DeptKey = DeptKey(name: Value, kind: Value, system: Value)

  /** Provider columns; they are exactly its natural key (provider_name, npi_number,
      specialty, department_id, active_status). */
  datatype ProvKey = ProvKey(name: Value, npi: Value, specialty: Value, department: Option<int>, active: Value)

  /** Visit columns as the visit remapper fills them. */
  datatype VisitCols = VisitCols(
    patient: Value, date: Value, kind: Value, department: Value, primaryProvider: Value, discharge: Value)

  /** Patient columns other than id and created_date. */
  datatype PatientCols = PatientCols(mrn: Value, updated: Value)

  /** A row handed to the session by the batch persister: its table and its columns. */
  datatype Staged = Staged(table: string, fields: Record)

  /** Position of the first row whose columns equal `c`: what a filter on every
      column followed by `.first()` finds, rows taken in insertion order. */
  function FirstMatch<C(==)>(rows: seq<Row<C>>, c: C): (r: Option<nat>)
    ensures r.None? ==> forall i | 0 <= i < |rows| :: rows[i].cols != c
    ensures r.Some? ==> r.value < |rows| && rows[r.value].cols == c
    ensures r.Some? ==> forall j | 0 <= j < r.value :: rows[j].cols != c
  {
    if rows == [] then None
    else if rows[0].cols == c then Some(0)
    else match FirstMatch(rows[1..], c)
      case None => None
      case Some(i) => Some(i + 1)
  }

  /** The id of the first row whose columns equal `c`, if any. */
  function FindFirst<C(==)>(rows: seq<Row<C>>, c: C): Option<int> {
    match FirstMatch(rows, c)
    case None => None
    case Some(i) => Some(rows[i].id)
  }

  /** Appending rows never changes which row is the first match of a key that
      already had one. */
  lemma FirstMatchStable<C>(rows: seq<Row<C>>, more: seq<Row<C>>, c: C)
    requires FirstMatch(rows, c).Some?
    requires rows <= more
    ensures FirstMatch(more, c) == FirstMatch(rows, c)
    ensures FindFirst(more, c) == FindFirst(rows, c)
  {
    var i := FirstMatch(rows, c).value;
    assert more[i] == rows[i];
    assert forall j | 0 <= j < i :: more[j] == rows[j];
  }

  /** A key with no match gains exactly the row appended for it. */
  lemma FirstMatchAppended<C>(rows: seq<Row<C>>, row: Row<C>)
    requires FirstMatch(rows, row.cols).None?
    ensures FirstMatch(rows + [row], row.cols) == Some(|rows|)
    ensures FindFirst(rows + [row], row.cols) == Some(row.id)
  {
    var all := rows + [row];
    assert all[|rows|] == row;
    assert forall j | 0 <= j < |rows| :: all[j] == rows[j];
  }

  /** Every id is below the next id to hand out, and no id occurs twice. */
  ghost predicate WellNumbered<C>(rows: seq<Row<C>>, next: int) {
    && (forall i | 0 <= i < |rows| :: rows[i].id < next)
    && (forall i, j | 0 <= i < j < |rows| :: rows[i].id != rows[j].id)
  }

  /** Rows from position `base` on were each added for a key no earlier row had:
      no run duplicated a natural key. */
  ghost predicate KeysFreshFrom<C>(rows: seq<Row<C>>, base: nat) {
    forall i, j | 0 <= j < i < |rows| && base <= i :: rows[j].cols != rows[i].cols
  }

  /** Appending a row for a key no row has keeps the run from `base` free of
      repeated keys. */
  lemma KeysFreshAppended<C>(rows: seq<Row<C>>, base: nat, row: Row<C>)
    requires KeysFreshFrom(rows, base) && base <= |rows|
    requires FirstMatch(rows, row.cols).None?
    ensures KeysFreshFrom(rows + [row], base)
  {
    var all := rows + [row];
    forall i, j | 0 <= j < i < |all| && base <= i ensures all[j].cols != all[i].cols {
      if i == |rows| {
        assert all[j] == rows[j];
      } else {
        assert all[j] == rows[j] && all[i] == rows[i];
      }
    }
  }

  /** Every cached id is the id of the first row with that key. */
  ghost predicate Caches<C>(rows: seq<Row<C>>, cache: map<C, int>) {
    forall k | k in cache :: FindFirst(rows, k) == Some(cache[k])
  }

  /** A cache of first matches stays one when rows are appended. */
  lemma CacheStable<C>(rows: seq<Row<C>>, more: seq<Row<C>>, cache: map<C, int>)
    requires rows <= more
    requires Caches(rows, cache)
    ensures Caches(more, cache)
  {
    forall k | k in cache ensures FindFirst(more, k) == Some(cache[k]) {
      FirstMatchStable(rows, more, k);
    }
  }

  /** Caching a first match keeps a cache of first matches. */
  lemma CachePut<C>(rows: seq<Row<C>>, cache: map<C, int>, key: C, id: int)
    requires Caches(rows, cache)
    requires FindFirst(rows, key) == Some(id)
    ensures Caches(rows, cache[key := id])
  {
  }

  /** Two first matches of different keys are different rows, hence different ids. */
  lemma DistinctKeysDistinctIds<C>(rows: seq<Row<C>>, next: int, a: C, b: C)
    requires WellNumbered(rows, next)
    requires FindFirst(rows, a).Some? && FindFirst(rows, b).Some?
    requires a != b
    ensures FindFirst(rows, a) != FindFirst(rows, b)
  {
    var i, j := FirstMatch(rows, a).value, FirstMatch(rows, b).value;
    assert i != j;
    if i < j {
      assert rows[i].id != rows[j].id;
    } else {
      assert rows[j].id != rows[i].id;
    }
  }

  /** Id of the patient row whose id equals `pid` (`filter_by(id=pid).first()`). */
  function PatientWithId(rows: seq<Row<PatientCols>>, pid: Value): (r: Option<int>)
    ensures r.Some? <==> exists i | 0 <= i < |rows| :: Int(rows[i].id) == pid
    ensures r.Some? ==> pid == Int(r.value)
  {
    if pid.Int? && exists i | 0 <= i < |rows| :: rows[i].id == pid.i then Some(pid.i) else None
  }

  /** Id of the first patient row whose medical record number equals `mrn`. */
  function PatientWithMrn(rows: seq<Row<PatientCols>>, mrn: Value): (r: Option<int>)
    ensures r.None? <==> forall i | 0 <= i < |rows| :: rows[i].cols.mrn != mrn
    ensures r.Some? ==> exists i | 0 <= i < |rows| :: rows[i].cols.mrn == mrn && rows[i].id == r.value
  {
    if rows == [] then None
    else if rows[0].cols.mrn == mrn then Some(rows[0].id)
    else
      var r := PatientWithMrn(rows[1..], mrn);
      assert forall i | 1 <= i < |rows| :: rows[i] == rows[1..][i - 1];
      r
  }

  class Store {
    var patients: seq<Row<PatientCols>>
    var departments: seq<Row<DeptKey>>
    var providers: seq<Row<ProvKey>>
    var visits: seq<Row<VisitCols>>
    var staged: seq<Staged>
    var nextId: int
    var queries: nat
    var commits: nat

    ghost predicate Valid()
      reads this
    {
      && WellNumbered(patients, nextId)
      && WellNumbered(departments, nextId)
      && WellNumbered(providers, nextId)
      && WellNumbered(visits, nextId)
    }

    constructor ()
      ensures Valid()
      ensures patients == [] && departments == [] && providers == [] && visits == []
      ensures staged == [] && queries == 0 && commits == 0
    {
      patients, departments, providers, visits := [], [], [], [];
      staged := [];
      nextId, queries, commits := 1, 0, 0;
    }

    /** Filter departments on every key column and take the first. */
    method QueryDepartment(k: DeptKey) returns (id: Option<int>)
      modifies this`queries
      ensures id == FindFirst(departments, k)
      ensures queries == old(queries) + 1
    {
      id := FindFirst(departments, k);
      queries := queries + 1;
    }

    /** Filter providers on every key column and take the first. */
    method QueryProvider(k: ProvKey) returns (id: Option<int>)
      modifies this`queries
      ensures id == FindFirst(providers, k)
      ensures queries == old(queries) + 1
    {
      id := FindFirst(providers, k);
      queries := queries + 1;
    }

    /** `session.add(Department(...))` followed by `session.flush()`. */
    method AddDepartment(k: DeptKey, created: Value) returns (id: int)
      requires Valid()
      modifies this`departments, this`nextId
      ensures Valid()
      ensures id == old(nextId) && nextId == old(nextId) + 1
      ensures departments == old(departments) + [Row(id, k, created)]
    {
      id := nextId;
      departments := departments + [Row(id, k, created)];
      nextId := nextId + 1;
    }

    /** `session.add(Provider(...))` followed by `session.flush()`. */
    method AddProvider(k: ProvKey, created: Value) returns (id: int)
      requires Valid()
      modifies this`providers, this`nextId
      ensures Valid()
      ensures id == old(nextId) && nextId == old(nextId) + 1
      ensures providers == old(providers) + [Row(id, k, created)]
    {
      id := nextId;
      providers := providers + [Row(id, k, created)];
      nextId := nextId + 1;
    }

    /** `session.add(Visit(...))` followed by `session.flush()`. */
    method AddVisit(c: VisitCols, created: Value) returns (id: int)
      requires Valid()
      modifies this`visits, this`nextId
      ensures Valid()
      ensures id == old(nextId) && nextId == old(nextId) + 1
      ensures visits == old(visits) + [Row(id, c, created)]
    {
      id := nextId;
      visits := visits + [Row(id, c, created)];
      nextId := nextId + 1;
    }

    /** `filter_by(id=pid).first()` on patients. */
    method QueryPatientById(pid: Value) returns (id: Option<int>)
      modifies this`queries
      ensures id == PatientWithId(patients, pid)
      ensures queries == old(queries) + 1
    {
      id := PatientWithId(patients, pid);
      queries := queries + 1;
    }

    /** `filter_by(medical_record_number=mrn).first()` on patients. */
    method QueryPatientByMrn(mrn: Value) returns (id: Option<int>)
      modifies this`queries
      ensures id == PatientWithMrn(patients, mrn)
      ensures queries == old(queries) + 1
    {
      id := PatientWithMrn(patients, mrn);
      queries := queries + 1;
    }

    /** `session.add(Patient(id=...))` followed by `session.flush()`: an explicit id is
        kept and the id counter moves past it; without one the counter supplies it. */
    method AddPatient(explicit: Option<int>, c: PatientCols, created: Value) returns (id: int)
      requires Valid()
      requires explicit.Some? ==> PatientWithId(patients, Int(explicit.value)).None?
      modifies this`patients, this`nextId
      ensures Valid()
      ensures id == (if explicit.Some? then explicit.value else old(nextId))
      ensures nextId == (if id < old(nextId) then old(nextId) else id + 1)
      ensures patients == old(patients) + [Row(id, c, created)]
    {
      id := if explicit.Some? then explicit.value else nextId;
      if id >= nextId {
        nextId := id + 1;
      }
      assert forall i | 0 <= i < |patients| :: patients[i].id != id;
      patients := patients + [Row(id, c, created)];
    }

    /** `session.add(obj)` of a row whose id is left to the commit. */
    method Stage(table: string, fields: Record)
      modifies this`staged
      ensures staged == old(staged) + [Staged(table, fields)]
    {
      staged := staged + [Staged(table, fields)];
    }

    /** `session.commit()` */
    method Commit()
      modifies this`commits
      ensures commits == old(commits) + 1
    {
      commits := commits + 1;
    }
  }
}
