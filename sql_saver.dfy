/** The batch persister (`SQLSaver.insert_non_patient_entities`): every record of
    every mapped section becomes one staged row holding only the record's non-null
    fields that are columns of the section's table; one commit ends the batch. */
module SqlSaver {
  import opened Json
  import opened Db

  /** Section name and the table (model class) its records go to, in the order the
      sections are processed. */
  const ModelMap: seq<(string, string)> := [
    ("visitnotes", "VisitNotes"),
    ("diagnosis", "Diagnosis"),
    ("symptom", "Symptom"),
    ("medication", "Medication"),
    ("vitalsigns", "VitalSigns"),
    ("labresult", "LabResult"),
    ("imagingstudy", "ImagingStudy"),
    ("proceduretreatment", "ProcedureTreatment"),
    ("provider", "Provider"),
    ("department", "Department")
  ]

  /** The mapped column attributes of each table. */
  function Columns(model: string): set<string> {
    if model == "Provider" then
      {"id", "provider_name", "npi_number", "specialty", "department_id", "active_status", "created_date"}
    else if model == "Department" then
      {"id", "department_name", "department_type", "system_name", "created_date"}
    else if model == "VisitNotes" then
      {"id", "visit_id", "patient_id", "note_date", "note_type", "full_note_text", "chief_complaint",
       "history_present_illness", "review_of_systems", "physical_exam", "assessment", "plan",
       "author_provider_id", "extraction_confidence", "extraction_method", "extraction_timestamp", "created_date"}
    else if model == "Diagnosis" then
      {"id", "patient_id", "visit_id", "diagnosis_name", "icd10_code", "onset_date", "resolution_date",
       "is_chronic", "is_active", "severity", "diagnosing_provider_id", "diagnosis_source",
       "diagnosis_context", "confidence_score", "updated_date", "created_date"}
    else if model == "Symptom" then
      {"id", "patient_id", "visit_id", "symptom_name", "onset_date", "duration", "frequency", "severity",
       "symptom_description", "alleviating_factors", "aggravating_factors", "reported_date",
       "resolution_date", "created_date"}
    else if model == "Medication" then
      {"id", "patient_id", "visit_id", "medication_name", "generic_name", "rxnorm_code", "dose", "dose_unit",
       "frequency", "route", "start_date", "end_date", "discontinuation_reason", "is_active", "is_prn",
       "prescribing_provider_id", "sig_text", "patient_instructions", "updated_date", "created_date"}
    else if model == "VitalSigns" then
      {"id", "patient_id", "visit_id", "measurement_datetime", "weight_kg", "height_cm", "bmi", "pulse_bpm",
       "blood_pressure_systolic", "blood_pressure_diastolic", "temperature_celsius", "respiratory_rate",
       "oxygen_saturation_percent", "pain_scale", "additional_vitals", "measurement_context",
       "measured_by_id", "created_date"}
    else if model == "LabResult" then
      {"id", "patient_id", "visit_id", "lab_name", "test_name", "loinc_code", "result_value", "result_numeric",
       "unit_of_measurement", "reference_range_low", "reference_range_high", "reference_range_text",
       "abnormality_flag", "abnormality_type", "collection_datetime", "result_datetime",
       "ordering_provider_id", "result_status", "clinical_significance", "created_date"}
    else if model == "ImagingStudy" then
      {"id", "patient_id", "visit_id", "imaging_type", "modality", "body_region", "study_datetime",
       "ordering_provider_id", "radiologist_id", "indication", "technique", "comparison", "findings",
       "impression", "key_findings", "report_status", "critical_findings", "created_date"}
    else if model == "ProcedureTreatment" then
      {"id", "patient_id", "visit_id", "procedure_name", "procedure_type", "cpt_code", "procedure_date",
       "duration_minutes", "outcome", "outcome_details", "complications", "primary_provider_id",
       "therapy_type", "sessions_completed", "sessions_planned", "created_date"}
    else {}
  }

  /** The constructor arguments built from one record: exactly its fields that are
      columns of the table and are not `None`, with their values. */
  function Filtered(record: Record, cols: set<string>): (r: Record)
    ensures r.Keys <= cols
    ensures forall k | k in r :: r[k] != Null
    ensures forall k | k in record :: (k in r <==> k in cols && record[k] != Null)
    ensures forall k | k in r :: k in record && r[k] == record[k]
  {
    map k | k in record && k in cols && record[k] != Null :: record[k]
  }

  /** The records of a section: none when it is falsy, a dict taken as a list of one. */
  function SectionRecords(v: Value): (rs: seq<Value>)
    ensures !Truthy(v) ==> rs == []
    ensures v.Obj? && Truthy(v) ==> rs == [v]
    ensures v.Arr? ==> rs == v.items
  {
    if !Truthy(v) then [] else if v.Obj? then [v] else if v.Arr? then v.items else []
  }

  /** A section the persister can run through: when truthy, a dict or a list of dicts. */
  predicate Stageable(data: Document, entry: (string, string)) {
    var v := Get(data, entry.0);
    Truthy(v) ==> v.Obj? || (v.Arr? && AllObjs(v.items))
  }

  /** Every section named by `entries` is one the persister can run through. */
  predicate AllStageable(data: Document, entries: seq<(string, string)>) {
    forall i | 0 <= i < |entries| :: Stageable(data, entries[i])
  }

  /** Documents the persister runs through to the end. */
  predicate PersistableShape(data: Document) {
    AllStageable(data, ModelMap)
  }

  /** The fields of a record.  The persister is only run over dicts (see
      `PersistableShape`); anything else is given no fields here. */
  function FieldsOf(v: Value): Record {
    if v.Obj? then v.fields else map[]
  }

  /** The rows staged for `records` of table `model`, one per record, in order. */
  function RowsFor(model: string, records: seq<Value>): seq<Staged> {
    seq(|records|, i requires 0 <= i < |records| => Staged(model, Filtered(FieldsOf(records[i]), Columns(model))))
  }

  /** The rows staged for one section: one per record, in order. */
  function SectionStaged(data: Document, entry: (string, string)): seq<Staged> {
    RowsFor(entry.1, SectionRecords(Get(data, entry.0)))
  }

  /** The lists of a sequence of lists, one after the other. */
  function Concat<T>(parts: seq<seq<T>>): seq<T>
    decreases |parts|
  {
    if parts == [] then [] else Concat(parts[..|parts| - 1]) + parts[|parts| - 1]
  }

  lemma {:induction false} ConcatAppend<T>(p: seq<seq<T>>, q: seq<seq<T>>)
    ensures Concat(p + q) == Concat(p) + Concat(q)
    decreases |q|
  {
    if q == [] {
      assert p + q == p;
    } else {
      var n := |q| - 1;
      assert (p + q)[..|p + q| - 1] == p + q[..n];
      assert (p + q)[|p + q| - 1] == q[n];
      ConcatAppend(p, q[..n]);
    }
  }

  lemma {:induction false} ConcatMember<T>(parts: seq<seq<T>>, x: T)
    ensures x in Concat(parts) ==> exists i | 0 <= i < |parts| :: x in parts[i]
    decreases |parts|
  {
    if parts != [] {
      var n := |parts| - 1;
      ConcatMember(parts[..n], x);
      if x in Concat(parts[..n]) {
        var i :| 0 <= i < n && x in parts[..n][i];
        assert x in parts[i];
      }
    }
  }

  /** When every list but the `j`th is empty, the concatenation is the `j`th. */
  lemma {:induction false} ConcatOnly<T>(parts: seq<seq<T>>, j: nat)
    requires j < |parts|
    requires forall i | 0 <= i < |parts| && i != j :: parts[i] == []
    ensures Concat(parts) == parts[j]
    decreases |parts|
  {
    var n := |parts| - 1;
    if j < n {
      ConcatOnly(parts[..n], j);
    } else {
      ConcatNone(parts[..n]);
    }
  }

  lemma {:induction false} ConcatNone<T>(parts: seq<seq<T>>)
    requires forall i | 0 <= i < |parts| :: parts[i] == []
    ensures Concat(parts) == []
    decreases |parts|
  {
    if parts != [] {
      ConcatNone(parts[..|parts| - 1]);
    }
  }

  lemma AppendAssoc<T>(a: seq<T>, b: seq<T>, c: seq<T>)
    ensures (a + b) + c == a + (b + c)
  {
  }

  /** `f` applied to every element, in order. */
  function MapSeq<A, B>(f: A -> B, xs: seq<A>): (r: seq<B>)
    ensures |r| == |xs| && forall i | 0 <= i < |xs| :: r[i] == f(xs[i])
  {
    seq(|xs|, i requires 0 <= i < |xs| => f(xs[i]))
  }

  lemma MapSeqAppend<A, B>(f: A -> B, xs: seq<A>, ys: seq<A>)
    ensures MapSeq(f, xs + ys) == MapSeq(f, xs) + MapSeq(f, ys)
  {
  }

  /** The rows staged for each of the given entries of the map. */
  function PerSection(data: Document, entries: seq<(string, string)>): (r: seq<seq<Staged>>)
    ensures |r| == |entries|
  {
    MapSeq(e => SectionStaged(data, e), entries)
  }

  /** The rows staged for the given entries of the map, section after section. */
  function StagedFrom(data: Document, entries: seq<(string, string)>): seq<Staged> {
    Concat(PerSection(data, entries))
  }

  /** Everything one call stages. */
  function StagedRows(data: Document): seq<Staged> {
    StagedFrom(data, ModelMap)
  }

  /** Staging runs section by section: the rows for two runs of entries are the
      rows for the first followed by the rows for the second. */
  lemma StagedFromAppend(data: Document, a: seq<(string, string)>, b: seq<(string, string)>)
    ensures StagedFrom(data, a + b) == StagedFrom(data, a) + StagedFrom(data, b)
  {
    MapSeqAppend(e => SectionStaged(data, e), a, b);
    ConcatAppend(PerSection(data, a), PerSection(data, b));
  }

  lemma StagedFromStep(data: Document, entries: seq<(string, string)>, j: nat)
    requires j < |entries|
    ensures StagedFrom(data, entries[..j + 1]) == StagedFrom(data, entries[..j]) + SectionStaged(data, entries[j])
  {
    assert entries[..j + 1] == entries[..j] + [entries[j]];
    StagedFromAppend(data, entries[..j], [entries[j]]);
    StagedFromOne(data, entries[j]);
  }

  lemma StagedFromOne(data: Document, e: (string, string))
    ensures StagedFrom(data, [e]) == SectionStaged(data, e)
  {
    var one := PerSection(data, [e]);
    assert one[..0] == [];
    assert Concat(one) == Concat(one[..0]) + one[0];
  }

  /** The inner loop: one staged row per record of one section. */
  method StageSection(store: Store, model: string, records: seq<Value>)
    requires AllObjs(records)
    modifies store`staged
    ensures store.staged == old(store.staged) + RowsFor(model, records)
  {
    var cols := Columns(model);
    for i := 0 to |records|
      invariant store.staged == old(store.staged) + RowsFor(model, records[..i])
    {
      var filtered := Filtered(records[i].fields, cols);
      store.Stage(model, filtered);
      assert RowsFor(model, records[..i + 1]) == RowsFor(model, records[..i]) + [Staged(model, filtered)];
    }
    assert records[..|records|] == records;
  }

  /** One pass of the outer loop: a falsy section is skipped, a dict is taken as a
      list of one, and every record is staged. */
  method StageMapped(store: Store, data: Document, entry: (string, string))
    requires Stageable(data, entry)
    modifies store`staged
    ensures store.staged == old(store.staged) + SectionStaged(data, entry)
  {
    var (key, model) := entry;
    var records := Get(data, key);
    if !Truthy(records) {
      return;
    }
    var list := if records.Obj? then [records] else records.items;
    StageSection(store, model, list);
  }

  /** The outer loop, over the entries of the section-to-table map in order. */
  method StageEntries(store: Store, data: Document, entries: seq<(string, string)>)
    requires AllStageable(data, entries)
    modifies store`staged
    ensures store.staged == old(store.staged) + StagedFrom(data, entries)
  {
    for j := 0 to |entries|
      invariant store.staged == old(store.staged) + StagedFrom(data, entries[..j])
    {
      StagedFromStep(data, entries, j);
      StageMapped(store, data, entries[j]);
      AppendAssoc(old(store.staged), StagedFrom(data, entries[..j]), SectionStaged(data, entries[j]));
    }
    assert entries[..|entries|] == entries;
  }

  /** `insert_non_patient_entities` */
  method InsertNonPatientEntities(store: Store, data: Document)
    requires PersistableShape(data)
    modifies store`staged, store`commits
    ensures store.staged == old(store.staged) + StagedRows(data)
    ensures store.commits == old(store.commits) + 1
  {
    StageEntries(store, data, ModelMap);
    store.Commit();
  }

  /** Every staged row goes to a mapped table and holds only that table's columns,
      none of them `None`. */
  lemma StagedRowsFit(data: Document, entries: seq<(string, string)>)
    ensures forall r | r in StagedFrom(data, entries) ::
      && (exists i | 0 <= i < |entries| :: entries[i].1 == r.table)
      && r.fields.Keys <= Columns(r.table)
      && forall k | k in r.fields :: r.fields[k] != Null
  {
    var parts := PerSection(data, entries);
    forall r | r in StagedFrom(data, entries)
      ensures exists i | 0 <= i < |entries| :: entries[i].1 == r.table
      ensures r.fields.Keys <= Columns(r.table)
      ensures forall k | k in r.fields :: r.fields[k] != Null
    {
      ConcatMember(parts, r);
      var i :| 0 <= i < |parts| && r in parts[i];
      var j :| 0 <= j < |parts[i]| && parts[i][j] == r;
    }
  }

  /** A key of the document that names no mapped section (patient, visit, anything
      unknown) never influences what is staged. */
  lemma UnmappedKeysIgnored(data: Document, entries: seq<(string, string)>, k: string, v: Value)
    requires forall i | 0 <= i < |entries| :: entries[i].0 != k
    ensures StagedFrom(data[k := v], entries) == StagedFrom(data, entries)
  {
    forall i | 0 <= i < |entries| ensures Get(data[k := v], entries[i].0) == Get(data, entries[i].0) {
    }
    assert PerSection(data[k := v], entries) == PerSection(data, entries);
  }

  /** A document holding one mapped section and no other stages exactly that
      section's rows; one holding none stages nothing. */
  lemma SingleSection(data: Document, entries: seq<(string, string)>, j: nat)
    requires j < |entries|
    requires forall i | 0 <= i < |entries| && i != j :: entries[i].0 !in data
    ensures StagedFrom(data, entries) == SectionStaged(data, entries[j])
  {
    ConcatOnly(PerSection(data, entries), j);
  }

  lemma AbsentSectionsStageNothing(data: Document, entries: seq<(string, string)>)
    requires forall i | 0 <= i < |entries| :: entries[i].0 !in data
    ensures StagedFrom(data, entries) == []
  {
    ConcatNone(PerSection(data, entries));
  }

  /** The filter applied to a symptom with a field the table lacks and a known field
      set to null. */
  lemma SymptomFiltered(rec: Record)
    requires rec == map["symptom_name" := Str("cough"), "severity" := Null, "llm_note" := Str("x")]
    ensures Filtered(rec, Columns("Symptom")) == map["symptom_name" := Str("cough")]
  {
    var cols := Columns("Symptom");
    assert "symptom_name" in cols && "severity" in cols && "llm_note" !in cols;
  }

  /** Such a symptom is staged without either field, and nothing else is staged. */
  lemma ExtraAndNullFieldsDropped(data: Document, rec: Record)
    requires rec == map["symptom_name" := Str("cough"), "severity" := Null, "llm_note" := Str("x")]
    requires data == map["symptom" := Arr([Obj(rec)])]
    ensures PersistableShape(data)
    ensures StagedRows(data) == [Staged("Symptom", map["symptom_name" := Str("cough")])]
  {
    var m := ModelMap;
    assert m[2] == ("symptom", "Symptom");
    SingleSection(data, m, 2);
    SymptomFiltered(rec);
    assert SectionRecords(Get(data, "symptom")) == [Obj(rec)];
    forall i | 0 <= i < |m| ensures Stageable(data, m[i]) {
      if i != 2 {
        assert m[i].0 !in data;
      }
    }
  }
}
