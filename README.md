# Reconciliation layer of the data-extraction agent, in Dafny

The data-extraction agent reads a medical document and asks a language model to
fill a JSON template. It then reconciles the nested JSON it gets back with a
relational store. This project models that reconciliation layer and the template
generator, and proves properties of both. It covers five parts.

- **Patient upsert** (`JSONFormatter.insert_patient_from_json`). It looks a patient
  up by id, or failing that by medical record number. It inserts a row only when
  neither lookup finds one.
- **Provider and department resolution**
  (`JSONFormatter.resolve_providers_and_departments`).
  - Each embedded department or provider at a fixed allow-list of (section, field)
    locations is replaced by `<field>_id`.
  - That id belongs to the first stored row with the same natural key.
  - A row is created and flushed only when no stored row has that key.
  - Two per-call caches remember the ids already resolved.
- **Visit remapping** (`JSONFormatter.insert_visits_and_resolve_ids`).
  - Each visit becomes a Visit row, inserted in order.
  - A table maps the provisional `visit_id` written by the model to the new row id.
  - Eight dependent sections are rewritten through that table.
  - The visit section is then dropped.
- **Batch persistence** (`SQLSaver.insert_non_patient_entities`).
  - Every record of every mapped section becomes one staged row.
  - The row keeps only the record's non-null fields that are columns of the table.
  - One commit ends the batch.
- **Prompt templates** (`JSONPromptGen.get_prompt_template` and
  `generate_json_prompt`).
  - A schema of typed fields becomes a JSON template.
  - Foreign `_id` fields are skipped.
  - `patient_id` is filled in.
  - Nested models and lists of models recurse.

## How the model is organised

The modules follow the program's structure, one per file.

- `json.dfy`, module `Json`: JSON values, Python truthiness, and `dict.get`.
- `db.dfy`, module `Db`: the store as the session shows it.
  - The `Store` class holds one sequence of rows per table, in insertion order.
  - It also holds an id counter that a flush advances, a lookup count, the rows
    staged by the persister, and a commit count.
  - A query ending in `.first()` is `FirstMatch`: the first row in insertion order
    whose columns equal the key.
- `provider_resolution.dfy`, module `ProviderResolution`.
  - The `Resolver` class holds the two caches of one call.
  - Its methods modify the store and the caches.
  - Each method is proved against `Resolved` and `ResolvedDoc`, which describe the
    rewrite in terms of the rows the store holds when the call ends.
  - Each method is also proved against `DeptAdded`, `ProvAdded`, `AddedAt`,
    `AddedAll`, `AddedRecord`, `AddedItems` and `AddedDoc`. These give the
    department and provider tables and the id counter after each get-or-create,
    as functions of the tables before it.
- `visit_remap.dfy`, module `VisitRemap`: the visit insertion loop and the
  remapping loop. They are proved against `VisitRows`, `RemapTable` and
  `RemappedDoc`.
- `patient_upsert.dfy`, module `PatientUpsert`: the patient upsert. Its result is
  the datatype `Outcome`, which has three cases:
  - the ValueError for a missing patient;
  - the id of an existing row;
  - the document without its patient.
- `sql_saver.dfy`, module `SqlSaver`.
  - Holds the section-to-table map and the column set of each table.
  - The nested staging loops are proved against `StagedRows`.
- `prompt_gen.dfy`, module `PromptGen`.
  - Type annotations form an inductive datatype.
  - `resolve_type` and `get_type_string` are functions.
  - `build_fields` and `generate_json_prompt` are methods with loops. They are
    proved against the functions `Template` and `PromptEntries`.
  - JSON objects are sequences of (key, value) pairs, kept in insertion order.
- `findings.dfy`, module `Findings`: the mismatch between the vital-signs schema
  and the resolver, described under "Findings" below.

Python dicts that the source mutates in place (`del obj[key]`, `obj[k] = v`,
`dict.pop`) become methods that return the new dict. The source's own loops
build each of these dicts fresh from `json.loads`, so none of them is aliased.

Behaviour of the code that is easy to misread:

- **Visit rewrite order.** A visit's `primary_provider` and `department` are
  rewritten before its nested `visit_notes.author_provider`, not after it
  (utils/json_formatter.py:140-143).
- **Patient removal.** The patient is removed from the document only when a row is
  inserted. When a row is found, its id is returned and the document keeps its
  patient.
- **Unknown visit ids.** A `visit_id` that matches no visit is left as it is
  (`UnmatchedLeftAlone`), and nothing fails.
- **Provider and department sections.** The persister stages `provider` and
  `department` sections like any other, with no deduplication.

## Model

| member | source | states |
|---|---|---|
| Db.FirstMatch | utils/json_formatter.py:63-69 | the first position whose columns equal the key, with no earlier match; none only when no row matches |
| Db.FirstMatchStable | utils/json_formatter.py:60-61 | appending rows never changes the first match of a key that already has one, so a cached id stays the first match |
| Db.DistinctKeysDistinctIds | utils/json_formatter.py:63-83 | in a well-numbered table, the first matches of two different keys have different ids |
| Db.PatientWithId | utils/json_formatter.py:184 | finds a patient exactly when some row has the given id, and returns that id |
| Db.PatientWithMrn | utils/json_formatter.py:186 | none exactly when no row has the medical record number; otherwise the id of a row that has it |
| Db.Store.AddPatient | utils/json_formatter.py:202-210 | the new row gets the explicit id, or the counter's id when there is none; the counter moves past it; the row is appended |
| Db.Store.AddDepartment | utils/json_formatter.py:72-79 | a flush appends the row under the next id and advances the counter |
| Db.Store.AddProvider | utils/json_formatter.py:116-125 | a flush appends the row under the next id and advances the counter |
| Db.Store.AddVisit | utils/json_formatter.py:20-30 | a flush appends the row under the next id and advances the counter |
| ProviderResolution.Resolver.constructor | utils/json_formatter.py:53-54 | each call starts with two empty caches over the current store |
| ProviderResolution.Resolver.DepartmentIdFor | utils/json_formatter.py:60-83 | on a cache hit, returns the cached id with no query and no new row; on a miss, one query, and a row appended under the next id only when no stored row has the key; either way the id is the key's first match and the cache afterwards maps the key to it, the other entries kept |
| ProviderResolution.Resolver.DepartmentMiss | utils/json_formatter.py:63-83 | one query; the first stored match, or a new row under the next id when there is none; the cache gains the key with that id |
| ProviderResolution.Resolver.ProviderIdFor | utils/json_formatter.py:102-129 | as for departments: cached id with the store unchanged, else one query and a new row only when no row has the key; the cache afterwards maps the key to the id |
| ProviderResolution.Resolver.ProviderMiss | utils/json_formatter.py:105-129 | one query; the first stored match, or a new row under the next id when there is none; the cache gains the key with that id |
| ProviderResolution.Resolver.GetOrCreateDepartment | utils/json_formatter.py:56-83 | `None` and no store or cache change for anything but a non-empty dict; otherwise the id of the first row with its (name, type, system) key; the tables are exactly `DeptAdded` of the old ones (a row under the next id only when the key is missing), and the cache maps the key to the id |
| ProviderResolution.Resolver.GetOrCreateProvider | utils/json_formatter.py:85-129 | the embedded department is resolved first and popped; its id is part of the provider key, with active_status defaulting to True; the result is the first row with that key; the tables are exactly `ProvAdded` of the old ones, and both caches gain the keys resolved |
| ProviderResolution.Resolver.PopDepartment | utils/json_formatter.py:89-92 | the provider dict loses its `department` key and the department's id is the one the key uses; a department row is added only when the key is present, holds a non-empty dict and has no stored match, and with no `department` key the store is unchanged |
| ProviderResolution.Resolver.ReplaceObjWithId | utils/json_formatter.py:131-136 | only a field holding a dict is replaced: `<field>_id` gets the resolved id and the field is deleted; the tables are exactly one get-or-create of that dict (`AddedAt`); otherwise the record and the store are unchanged |
| ProviderResolution.Resolver.ResolveLocations | utils/json_formatter.py:139-165 | every allow-listed field of one record is rewritten, in order, and the tables are exactly those get-or-creates in that order (`AddedAll`) |
| ProviderResolution.Resolver.ResolveRecord | utils/json_formatter.py:139-143 | a visit's nested visit_notes author is rewritten after its own fields; the tables are exactly `AddedRecord` of the old ones |
| ProviderResolution.Resolver.ResolveSection | utils/json_formatter.py:139-165 | every record of a section is resolved, in order, earlier ids staying valid as rows are added; the tables are exactly `AddedItems` of the old ones |
| ProviderResolution.Resolver.ResolveDocSection | utils/json_formatter.py:139-165 | one per-section loop applied to the document: that section is resolved, the sections done before keep their rewrite, and the tables grow by that section's `AddedItems` only |
| ProviderResolution.Resolver.ResolveSections | utils/json_formatter.py:139-165 | the per-section loops in the source's order: the result is the resolved document and the tables are exactly `AddedDoc` of the old ones |
| ProviderResolution.ResolveProvidersAndDepartments | utils/json_formatter.py:52-168 | the result is the document with every allow-listed embedded object replaced by its row id in the final store; the tables are exactly `AddedDoc` of the old ones, so every new row comes from an embedded object, in document order, and no new row repeats an earlier row's natural key; one commit; patients, visits and staged rows are unchanged |
| ProviderResolution.DeptAddedIdempotent | utils/json_formatter.py:56-83 | a second get-or-create of the same department adds nothing |
| ProviderResolution.DeptAddedFinds | utils/json_formatter.py:56-83 | rows are only appended, and afterwards a non-empty dict has a stored match |
| ProviderResolution.ProvAddedIdempotent | utils/json_formatter.py:85-129 | a second get-or-create of the same provider adds nothing, its department included |
| ProviderResolution.AddedDocNoop | utils/json_formatter.py:131-165 | a document with no dict at any allow-listed location adds no row |
| ProviderResolution.SecondRunAddsNothing | utils/json_formatter.py:52-168 | resolving the resolver's own output creates no row |
| ProviderResolution.ResolvedIdAt | utils/json_formatter.py:131-135 | an allow-listed field holding a dict is gone after resolution, and `<field>_id` holds the id of that dict's first matching row (`None` for `{}`) |
| ProviderResolution.ResolvedNotesIdAt | utils/json_formatter.py:142-143 | inside a visit's dict `visit_notes`, an `author_provider` dict is gone after resolution, `author_provider_id` holds the id of the first matching provider row, and every other field of `visit_notes` is kept |
| ProviderResolution.LocationsApart | utils/json_formatter.py:139-165 | each section's allow-list names one or two fields, and rewriting one never touches the other or `visit_notes` |
| ProviderResolution.ReplaceAllNoop | utils/json_formatter.py:131-132 | a record with no dict at any allow-listed field is left unchanged |
| ProviderResolution.ResolvedIdempotent | utils/json_formatter.py:131-143 | resolving a resolved record again, against any rows, changes nothing |
| ProviderResolution.ResolvedDocIdempotent | utils/json_formatter.py:139-165 | running the whole rewrite on its own output returns that output |
| ProviderResolution.ResolvedClears | utils/json_formatter.py:131-143 | a resolved record holds no dict at any allow-listed field of its section, nor at a visit's `visit_notes.author_provider` |
| ProviderResolution.ResolvedDocHasNoEmbedded | utils/json_formatter.py:139-165 | after resolution, no allow-listed location of any record holds a dict |
| ProviderResolution.DifferentDepartmentsDifferentIds | utils/json_formatter.py:59-83 | two departments whose keys differ, for instance only in system_name, resolve to different ids |
| ProviderResolution.EqualProviderKeysShareId | utils/json_formatter.py:94-113 | two providers with equal name, NPI, specialty, department id and active_status resolve to the same id, with an absent active_status counting as True |
| ProviderResolution.FoundStable | utils/json_formatter.py:60-61 | once an embedded object has a matching row, appending rows keeps its id |
| VisitRemap.InsertVisitRows | utils/json_formatter.py:18-33 | one Visit row per visit, in order, numbered from the counter; the table maps each provisional id to its row's id |
| VisitRemap.RemapTableLast | utils/json_formatter.py:32 | a provisional id is in the table exactly when some visit carries it, and it maps to the row of the last such visit |
| VisitRemap.RemapItem | utils/json_formatter.py:38-39 | only a dict's `visit_id` can change; every other key and value is kept |
| VisitRemap.ReplaceVisitIds | utils/json_formatter.py:36-39 | every element of the list is rewritten with `RemapItem`, in place and in order |
| VisitRemap.RemapDependentSections | utils/json_formatter.py:41-43 | the eight dependent sections are rewritten; other keys are untouched |
| VisitRemap.RemappedDoc | utils/json_formatter.py:41-47 | the visit key is removed and every non-dependent key is unchanged |
| VisitRemap.InsertVisitsAndResolveIds | utils/json_formatter.py:10-50 | with no visits, or an empty list, the document and store are unchanged; otherwise one row per visit, the dependent sections remapped, the visit key dropped and one commit, with the other tables unchanged |
| VisitRemap.RemapKeyGuard | utils/json_formatter.py:38-39 | a dependent dict whose `.get("visit_id")` is in the table holds the key, so the indexed read cannot fail |
| VisitRemap.RemappedToLastVisit | utils/json_formatter.py:32-39 | a dependent dict naming a provisional id ends up naming the row of the last visit that carried it |
| VisitRemap.UnmatchedLeftAlone | utils/json_formatter.py:38-39 | a dependent entry whose visit_id is no visit's provisional id is left exactly as it was |
| VisitRemap.AllVisitReferencesResolved | utils/json_formatter.py:18-43 | when every dependent dict names some visit's provisional id, every one ends up naming one of the rows just inserted |
| VisitRemap.TwoVisitsThreeDiagnoses | utils/json_formatter.py:18-47 | visits a, b and diagnoses a, a, b: the first two diagnoses share the first row's id and the third names the second, different, row |
| VisitRemap.NullVisitIdLinks | utils/json_formatter.py:19-39 | a visit without visit_id is filed under `None`, so a dependent dict whose visit_id is `null` is linked to it |
| PatientUpsert.ExistingPatient | utils/json_formatter.py:178-188 | a truthy patient_id finds a row exactly when a row has that id; otherwise a truthy medical record number finds a row exactly when a row has it; with neither, no lookup |
| PatientUpsert.LookUpPatient | utils/json_formatter.py:182-186 | one query when patient_id or the medical record number is truthy, none otherwise, and it returns `ExistingPatient` |
| PatientUpsert.InsertPatientFromJson | utils/json_formatter.py:170-216 | a missing patient is the ValueError case, with the store untouched; a found row returns its id with no new row and no commit; otherwise one row is added, under the given id unless that is `None` or 0, dated with created_date or now, and the id counter moves past that id; one commit, and the document is returned without its patient |
| PatientUpsert.PatientWithMrnAppended | utils/json_formatter.py:186 | a medical record number with no row finds the row appended for it |
| PatientUpsert.SecondUpsertFindsRow | utils/json_formatter.py:182-190 | upserting the same patient again finds the row the first upsert inserted |
| SqlSaver.Filtered | utils/save_to_sql.py:42-45 | exactly the record's keys that are columns and not `None`, with values passed through |
| SqlSaver.SectionRecords | utils/save_to_sql.py:32-37 | a falsy section gives no records, a dict is a list of one, and a list is itself |
| SqlSaver.StageSection | utils/save_to_sql.py:41-48 | one staged row per record, in order |
| SqlSaver.StageMapped | utils/save_to_sql.py:31-48 | one pass of the outer loop stages exactly the section's rows |
| SqlSaver.StageEntries | utils/save_to_sql.py:31-48 | the sections are staged in map order, each one's rows after the previous one's |
| SqlSaver.InsertNonPatientEntities | utils/save_to_sql.py:13-50 | exactly `StagedRows(data)` is staged, followed by one commit |
| SqlSaver.StagedFromAppend | utils/save_to_sql.py:31 | staging two runs of map entries stages the first run's rows, then the second's |
| SqlSaver.StagedRowsFit | utils/save_to_sql.py:39-45 | every staged row goes to a mapped table and holds only that table's columns, none of them `None` |
| SqlSaver.UnmappedKeysIgnored | utils/save_to_sql.py:18-32 | a document key outside the map (patient, visit, anything unknown) never changes what is staged |
| SqlSaver.SingleSection | utils/save_to_sql.py:31-48 | a document holding one mapped section stages exactly that section's rows |
| SqlSaver.AbsentSectionsStageNothing | utils/save_to_sql.py:32-34 | with no mapped section present, nothing is staged |
| SqlSaver.SymptomFiltered | utils/save_to_sql.py:42-45 | a symptom's unknown field and its `None` field are both dropped |
| SqlSaver.ExtraAndNullFieldsDropped | utils/save_to_sql.py:36-47 | such a symptom is staged as one Symptom row holding only its known, non-null field |
| PromptGen.NonNone | utils/json_prompt_gen.py:20 | no argument of the result is `None`, each comes from the Union; empty exactly when every argument is `None`; its head is the first such argument |
| PromptGen.NonNoneKeepsAll | utils/json_prompt_gen.py:20 | every argument other than `None` is kept, as often as it occurs (multisets agree once `None` is removed) |
| PromptGen.NonNoneInOrder | utils/json_prompt_gen.py:20 | filtering distributes over concatenation, so the arguments kept stay in their original order |
| PromptGen.ResolveType | utils/json_prompt_gen.py:15-22 | never a Union; a non-Union is unchanged; an all-`None` Union gives `str` |
| PromptGen.ResolveTypeUnwraps | utils/json_prompt_gen.py:17-21 | a Union with an argument other than `None` resolves to the resolved type of its first such argument, every argument before it being `None` |
| PromptGen.OptionalResolves | utils/json_prompt_gen.py:17-21 | `Optional[X]` (a Union of X and `None`) with X not `None` resolves as X does |
| PromptGen.TypeString | utils/json_prompt_gen.py:24-41 | "unknown" exactly for types other than str, bool, int, float, list, a model and datetime |
| PromptGen.Put | utils/json_prompt_gen.py:73 | after `result[name] = entry` the key holds the entry and other keys keep their values; a new key goes last |
| PromptGen.Lower | utils/json_prompt_gen.py:81 | same length; no character of the result is an uppercase ASCII letter; every character that is not one is kept; each uppercase letter becomes the lowercase letter at the same alphabet position |
| PromptGen.LowerIdempotent | utils/json_prompt_gen.py:81 | lowering twice is lowering once |
| PromptGen.BuildFields | utils/json_prompt_gen.py:43-74 | the loop builds `Template(m, pid)`, recursing into nested models and lists of models |
| PromptGen.GetPromptTemplate | utils/json_prompt_gen.py:14-76 | returns `Template(m, pid)` |
| PromptGen.GenerateJsonPrompt | utils/json_prompt_gen.py:78-87 | the loop builds `PromptEntries` over all schemas |
| PromptGen.PromptLayout | utils/json_prompt_gen.py:80-86 | with distinct class names, there is one entry per schema, in order, keyed by the lower-cased class name; it holds `[template]` when the flag is set and the bare template otherwise |
| PromptGen.TemplateWellFormed | utils/json_prompt_gen.py:43-66 | at every depth, no foreign `_id` key appears and every patient_id holds the given patient id |
| PromptGen.FieldEntryWellFormed | utils/json_prompt_gen.py:55-71 | every field's entry, list, nested model or leaf, is well formed in the same sense |
| PromptGen.TemplateKeysAreFieldNames | utils/json_prompt_gen.py:45-48 | every template key is a declared field name, and never a foreign `_id` |
| PromptGen.TemplateKeysInOrder | utils/json_prompt_gen.py:45-73 | with distinct field names, the keys are exactly the kept field names, in declared order |
| PromptGen.TemplateValueAt | utils/json_prompt_gen.py:55-73 | a kept, unshadowed field holds the entry built from its annotation |
| PromptGen.LeafFieldTemplate | utils/json_prompt_gen.py:55-71 | a field that is neither a list nor a model holds `{"type": <type string>, "optional": <a Union admitting None>}` |
| PromptGen.ProviderTemplate | utils/json_prompt_gen.py:47-71 | the provider template omits department_id, marks npi_number as an optional str, and marks active_status as a required bool |
| Findings.MeasurerNeverRequested | utils/json_prompt_gen.py:47-48 | with the schema as declared, the vital-signs template has neither `measured_by_id` nor `measured_by` |
| Findings.MeasurerNeverLinked | utils/json_formatter.py:154-155 | a vital-signs record without `measured_by` is left unchanged by the resolver |
| Findings.MeasurerRequested | utils/json_prompt_gen.py:65-66 | with the field named `measured_by`, the template asks for it as a provider template |
| Findings.MeasurerLinked | utils/json_formatter.py:154-155 | an embedded measurer is replaced by `measured_by_id` holding its provider row's id |
| Findings.MeasurerColumn | schemas/sql_schema.py:144 | the VitalSigns table has a `measured_by_id` column to receive it |

## Left out

- **Floating-point values.** `Value` has no float case. The layer only passes
  floats through.
- **Timestamps.** `datetime.utcnow()` and `datetime.fromisoformat` become a
  caller-supplied opaque value `now` and the values as given. Date parsing and its
  errors are not modelled.
- **`print` logging.** No logging is modelled.
- **Store-side semantics.**
  - The unique constraints on `npi_number` and `medical_record_number` are not
    modelled, and neither are foreign keys.
  - String collation and case-insensitive comparison in the database are not
    modelled.
  - Rollback and transaction isolation are not modelled.
  - A row missing a required column fails only at commit time, in the store.
    The model does not report it.
  - A commit is a counter.
- **Order of `.first()`.** The database does not specify which row `.first()`
  returns without an ORDER BY. The model takes the first row in insertion order.
- **Ids.** One counter hands out ids for every table, so ids are unique across
  tables. A database keeps one auto-increment sequence per table.
- **Python equality quirks.** In Python `True == 1`, so `True` and `1` compare
  and hash equal in keys and caches. In the model they are different values.
- **Input shapes outside the model.** The preconditions keep the model to
  documents shaped as the extraction schema describes them. Some excluded shapes
  make the source raise:
  - a listed section that is `None` or not iterable, or a visit that is not a dict;
  - a visit whose `visit_notes` is `None`;
  - a patient that is not a dict;
  - a dependent dict with no `visit_id` key when some visit also lacks one.
    The `.get` lookup then finds `None` in the table, and the indexed read
    `obj["visit_id"]` raises.
  - for the persister, a truthy section that is neither a dict nor a list, or a
    list entry that is not a dict (utils/save_to_sql.py:36-43): `record.items()`
    then raises AttributeError, or the loop raises TypeError on a number.

  Other excluded shapes do not raise, and the model does not say what the
  source does with them:
  - a patient_id that is a string, float or bool (truthy ones are passed to
    the query and to the new row as they are);
  - a listed section that is a dict, which the loops walk key by key;
  - a `visit_notes` that is a string or a list, which only gets a membership
    test for `author_provider`.
- **Unhashable keys.** A list or dict inside a department's or provider's key
  fields (utils/json_formatter.py:59-60, 94-104), as a visit's `visit_id`
  (utils/json_formatter.py:32) or as a dependent dict's `visit_id`
  (utils/json_formatter.py:38) makes Python raise `TypeError: unhashable type`
  when it is used as a cache or table key. The model compares such values like
  any other and does not raise.
- **Unused visit ids.** `new_visit_ids` in `insert_visits_and_resolve_ids` is
  never read, and it is not modelled.
- **Class names.** `str.lower` on class names is modelled for ASCII letters only.
- **Type annotations.** Only the annotations the schemas use are modelled. Any
  other annotation is `Other` and reads as "unknown". pydantic field metadata
  (defaults, bounds, descriptions) plays no part in the template.
- **Recursive models.** A model that contains itself would make `build_fields`
  recurse forever. The `Annotation` datatype is finite, so such models cannot be
  expressed.
- PromptGen.ProviderTemplate: this contract states three lookups in the provider
  template rather than the whole template. `TemplateKeysInOrder` and
  `LeafFieldTemplate` give the rest for any schema.

## Findings

| source | as written | input that shows it | evidently intended | confidence | as-written member | corrected member |
|---|---|---|---|---|---|---|
| schemas/json_schemas.py:126 with utils/json_formatter.py:155 and utils/json_prompt_gen.py:47-48 | the vital-signs schema declares the measurer as `measured_by_id: Optional[Provider]`. The template generator skips every field ending in `_id`, and the resolver looks for a provider under `measured_by`. So the measurer is never requested, never resolved, and never reaches the `measured_by_id` column | any vital-signs schema as declared: its template has no measurer key, and a record without `measured_by` passes through the resolver unchanged | declare the field as `measured_by: Optional[Provider]`. The template then asks for a provider object, and the resolver turns it into `measured_by_id` | not executed | Findings.MeasurerNeverRequested, Findings.MeasurerNeverLinked | Findings.MeasurerRequested, Findings.MeasurerLinked |
