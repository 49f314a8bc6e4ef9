/** The patient upsert (`JSONFormatter.insert_patient_from_json`): find the patient
    by its supplied id, or failing that by its medical record number, and insert a
    row only when neither finds one. */
module PatientUpsert {
  import opened Json
  import opened Db

  /** The three ways the upsert ends: the ValueError raised for a document without
      a patient, the id of a patient row that already exists (the document keeps its
      patient), or the document without its patient once a row was inserted. */
  datatype Outcome = MissingPatient | Existing(id: int) | Inserted(data: Document)

  /** The lookup made before inserting: by id when patient_id is truthy, else by
      medical record number when that is truthy, else none at all. */
  function ExistingPatient(rows: seq<Row<PatientCols>>, p: Record): (r: Option<int>)
    ensures r.Some? ==> exists i | 0 <= i < |rows| :: rows[i].id == r.value
    ensures Truthy(Get(p, "patient_id")) ==>
      (r.Some? <==> exists i | 0 <= i < |rows| :: Int(rows[i].id) == Get(p, "patient_id"))
    ensures !Truthy(Get(p, "patient_id")) && Truthy(Get(p, "medical_record_number")) ==>
      (r.Some? <==> exists i | 0 <= i < |rows| :: rows[i].cols.mrn == Get(p, "medical_record_number"))
    ensures !Truthy(Get(p, "patient_id")) && !Truthy(Get(p, "medical_record_number")) ==> r.None?
  {
    var pid := Get(p, "patient_id");
    var mrn := Get(p, "medical_record_number");
    if Truthy(pid) then PatientWithId(rows, pid)
    else if Truthy(mrn) then PatientWithMrn(rows, mrn)
    else None
  }

  /** The id handed to the store for a new row: the supplied patient_id, except that
      `None` and `0` let the store generate one. */
  function ExplicitId(pid: Value): Option<int> {
    if pid.Int? && pid.i != 0 then Some(pid.i) else None
  }

  /** The creation timestamp of a new row: the supplied created_date when truthy,
      else the current time. */
  function CreatedOf(p: Record, now: Value): Value {
    if Truthy(Get(p, "created_date")) then Get(p, "created_date") else now
  }

  /** Documents the model covers: a patient, when present, is a dict whose
      patient_id is `None` or an integer. */
  predicate Upsertable(data: Document) {
    "patient" in data ==>
      && data["patient"].Obj?
      && (Get(data["patient"].fields, "patient_id").Null? || Get(data["patient"].fields, "patient_id").Int?)
  }

  /** The lookup made before inserting, as queries against the store. */
  method LookUpPatient(store: Store, p: Record) returns (existing: Option<int>)
    modifies store`queries
    ensures existing == ExistingPatient(store.patients, p)
    ensures store.queries == old(store.queries) +
      (if Truthy(Get(p, "patient_id")) || Truthy(Get(p, "medical_record_number")) then 1 else 0)
  {
    var pid := Get(p, "patient_id");
    var mrn := Get(p, "medical_record_number");
    existing := None;
    if Truthy(pid) {
      existing := store.QueryPatientById(pid);
    } else if Truthy(mrn) {
      existing := store.QueryPatientByMrn(mrn);
    }
  }

  /** `insert_patient_from_json` */
  method InsertPatientFromJson(store: Store, data: Document, now: Value) returns (out: Outcome)
    requires store.Valid()
    requires Upsertable(data)
    modifies store
    ensures store.Valid()
    ensures "patient" !in data ==> out == MissingPatient && unchanged(store)
    ensures "patient" in data ==>
      var p := data["patient"].fields;
      var pid := Get(p, "patient_id");
      var found := ExistingPatient(old(store.patients), p);
      && store.queries == old(store.queries) + (if Truthy(pid) || Truthy(Get(p, "medical_record_number")) then 1 else 0)
      && store.departments == old(store.departments) && store.providers == old(store.providers)
      && store.visits == old(store.visits) && store.staged == old(store.staged)
      && (found.Some? ==>
            && out == Existing(found.value)
            && store.patients == old(store.patients) && store.nextId == old(store.nextId)
            && store.commits == old(store.commits))
      && (found.None? ==>
            var id := if ExplicitId(pid).Some? then ExplicitId(pid).value else old(store.nextId);
            && out == Inserted(data - {"patient"})
            && store.patients == old(store.patients)
                 + [Row(id, PatientCols(Get(p, "medical_record_number"), Get(p, "updated_date")), CreatedOf(p, now))]
            && store.nextId == (if id < old(store.nextId) then old(store.nextId) else id + 1)
            && store.commits == old(store.commits) + 1)
  {
    if "patient" !in data {
      return MissingPatient;
    }
    var p := data["patient"].fields;
    var pid := Get(p, "patient_id");
    var mrn := Get(p, "medical_record_number");
    var existing := LookUpPatient(store, p);
    if existing.Some? {
      return Existing(existing.value);
    }
    var created := Get(p, "created_date");
    var updated := Get(p, "updated_date");
    var id := store.AddPatient(ExplicitId(pid), PatientCols(mrn, updated), if Truthy(created) then created else now);
    store.Commit();
    out := Inserted(data - {"patient"});
  }

  /** A key with no match in `rows` finds the row appended for it. */
  lemma {:induction false} PatientWithMrnAppended(rows: seq<Row<PatientCols>>, row: Row<PatientCols>)
    requires PatientWithMrn(rows, row.cols.mrn).None?
    ensures PatientWithMrn(rows + [row], row.cols.mrn) == Some(row.id)
    decreases |rows|
  {
    if rows != [] {
      assert (rows + [row])[1..] == rows[1..] + [row];
      PatientWithMrnAppended(rows[1..], row);
    }
  }

  /** Upserting the same patient again, in a fresh document, finds the row the first
      upsert inserted instead of adding a second one, whenever the patient carries a
      truthy id or medical record number. */
  lemma SecondUpsertFindsRow(rows: seq<Row<PatientCols>>, p: Record, next: int, created: Value)
    requires Get(p, "patient_id").Null? || Get(p, "patient_id").Int?
    requires ExistingPatient(rows, p).None?
    requires Truthy(Get(p, "patient_id")) || Truthy(Get(p, "medical_record_number"))
    ensures
      var pid := Get(p, "patient_id");
      var id := if ExplicitId(pid).Some? then ExplicitId(pid).value else next;
      var row := Row(id, PatientCols(Get(p, "medical_record_number"), Get(p, "updated_date")), created);
      ExistingPatient(rows + [row], p) == Some(id)
  {
    var pid := Get(p, "patient_id");
    var id := if ExplicitId(pid).Some? then ExplicitId(pid).value else next;
    var row := Row(id, PatientCols(Get(p, "medical_record_number"), Get(p, "updated_date")), created);
    if Truthy(pid) {
      assert (rows + [row])[|rows|].id == pid.i;
    } else {
      PatientWithMrnAppended(rows, row);
    }
  }
}
