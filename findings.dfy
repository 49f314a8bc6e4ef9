/** The vital-signs measurer.  The prompt schema declares the measurer as
    `measured_by_id: Optional[Provider]`, but the prompt generator drops every field
    whose name ends in `_id`, and the provider resolver looks for an embedded
    provider under `measured_by`.  As written, the measurer is never asked for and so
    never reaches the `measured_by_id` column; with the field named `measured_by` it
    is asked for as a provider object, resolved to a provider id and stored. */
module Findings {
  import opened Json
  import opened Db
  import opened PromptGen
  import ProviderResolution
  import SqlSaver

  /** The fields of the vital-signs schema before the measurer, in declared order. */
  const VitalFields: seq<(string, Annotation)> := [
    ("patient_id", Optional(IntT)),
    ("visit_id", Optional(IntT)),
    ("measurement_datetime", StrT),
    ("weight_kg", Optional(FloatT)),
    ("height_cm", Optional(FloatT)),
    ("bmi", Optional(FloatT)),
    ("pulse_bpm", Optional(IntT)),
    ("blood_pressure_systolic", Optional(IntT)),
    ("blood_pressure_diastolic", Optional(IntT)),
    ("temperature_celsius", Optional(FloatT)),
    ("respiratory_rate", Optional(IntT)),
    ("oxygen_saturation_percent", Optional(IntT)),
    ("pain_scale", Optional(IntT)),
    ("additional_vitals", Optional(StrT)),
    ("measurement_context", Optional(StrT))]

  /** No other vital-signs field has a name as long as `measured_by`. */
  lemma VitalFieldNameLengths()
    ensures forall i | 0 <= i < |VitalFields| :: |VitalFields[i].0| != |"measured_by"|
  {
  }

  /** The schema with the measurer declared under `name`. */
  function VitalSignsWith(name: string): (m: Annotation)
    ensures m.Model? && |m.fields| == 17
    ensures m.fields[15] == (name, Optional(ProviderSchema))
    ensures m.fields[..15] == VitalFields && m.fields[16].0 == "created_date"
  {
    Model("VitalSigns", VitalFields + [(name, Optional(ProviderSchema)), ("created_date", DatetimeT)])
  }

  /** The schema as declared, with `measured_by_id`. */
  function VitalSignsAsWritten(): Annotation {
    VitalSignsWith("measured_by_id")
  }

  /** The schema with the measurer under the name the resolver reads. */
  function VitalSigns(): Annotation {
    VitalSignsWith("measured_by")
  }

  /** As written, the vital-signs template holds the measurer under neither name. */
  lemma MeasurerNeverRequested(m: Annotation, pid: int)
    requires m == VitalSignsAsWritten()
    ensures var es := Template(m, pid).entries;
      Lookup(es, "measured_by_id").None? && Lookup(es, "measured_by").None?
  {
    assert IsForeignId("measured_by_id");
    TemplateKeysAreFieldNames(m, 17, pid, "measured_by_id");
    TemplateKeysAreFieldNames(m, 17, pid, "measured_by");
    VitalFieldNameLengths();
    forall i | 0 <= i < 17 ensures m.fields[i].0 != "measured_by" {
      if i < 15 {
        assert m.fields[i] == m.fields[..15][i];
      }
    }
  }

  /** A vital-signs record without a `measured_by` entry leaves the resolver
      unchanged, whatever rows the store holds: nothing is written to
      `measured_by_id`. */
  lemma MeasurerNeverLinked(rec: Record, D: seq<Row<DeptKey>>, P: seq<Row<ProvKey>>)
    requires "measured_by" !in rec
    ensures ProviderResolution.Resolved("vitalsigns", rec, D, P) == rec
  {
    ProviderResolution.ReplaceAllNoop(rec, ProviderResolution.Locations("vitalsigns"), D, P);
  }

  /** Corrected, the template asks for the measurer under `measured_by`, as a
      provider object without its department id. */
  lemma MeasurerRequested(m: Annotation, pid: int)
    requires m == VitalSigns()
    ensures Lookup(Template(m, pid).entries, "measured_by") == Some(Template(ProviderSchema, pid))
  {
    assert !IsForeignId("measured_by");
    assert m.fields[16].0 == "created_date";
    TemplateValueAt(m, 17, 15, pid);
    assert ResolveType(Optional(ProviderSchema)) == ProviderSchema;
  }

  /** Corrected, an embedded measurer is stored as the id of its provider row. */
  lemma MeasurerLinked(rec: Record, D: seq<Row<DeptKey>>, P: seq<Row<ProvKey>>)
    requires "measured_by" in rec && rec["measured_by"].Obj?
    ensures var r := ProviderResolution.Resolved("vitalsigns", rec, D, P);
      && "measured_by" !in r
      && "measured_by_id" in r
      && r["measured_by_id"] == IdValue(ProviderResolution.ProvIdIn(rec["measured_by"], D, P))
  {
    ProviderResolution.ResolvedIdAt("vitalsigns", rec, 0, D, P);
    assert "measured_by" + "_id" == "measured_by_id";
  }

  /** The vital-signs table has a `measured_by_id` column for the resolved id. */
  lemma MeasurerColumn()
    ensures "measured_by_id" in SqlSaver.Columns("VitalSigns")
  {
  }
}
