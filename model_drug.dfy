/** `Drug` of models/drug.go and its rule set. */
module DrugModel {
  import opened Base
  import opened Validation
  import Text
  import Uuid

  datatype Drug = Drug(
    id: string,
    brandName: string,
    dosageFormId: string,
    routeId: string,
    strengthUnitId: string,
    dose: real,
    apiId: string,
    createdAt: Option<Time>,
    updatedAt: Option<Time>)

  /** The tagged fields in declaration order; the timestamps carry no tag. */
  function Fields(d: Drug): seq<Field> {
    [ Field("ID", true, [Uuid4], Str(d.id)),
      Field("BrandName", false, [Required, NotBlank, Max(200)], Str(d.brandName)),
      Field("DosageFormID", false, [Required, Uuid4], Str(d.dosageFormId)),
      Field("RouteID", false, [Required, Uuid4], Str(d.routeId)),
      Field("StrengthUnitID", false, [Required, Uuid4], Str(d.strengthUnitId)),
      Field("Dose", false, [Required, Gt(0)], Num(d.dose)),
      Field("APIID", false, [Required, Uuid4], Str(d.apiId)) ]
  }

  /** What each tag demands of its field. */
  lemma FieldsPassHead(d: Drug)
    ensures Passes(Fields(d)[0]) <==> d.id == "" || Uuid.IsUuid4(d.id)
    ensures Passes(Fields(d)[1]) <==> !Text.AllSpace(d.brandName) && |d.brandName| <= 200
    ensures Passes(Fields(d)[2]) <==> Uuid.IsUuid4(d.dosageFormId)
    ensures Passes(Fields(d)[3]) <==> Uuid.IsUuid4(d.routeId)
  {
    OptionalUuid4("ID", d.id);
    NotBlankMax("BrandName", 200, d.brandName);
    RequiredUuid4("DosageFormID", d.dosageFormId);
    RequiredUuid4("RouteID", d.routeId);
  }

  lemma FieldsPassTail(d: Drug)
    ensures Passes(Fields(d)[4]) <==> Uuid.IsUuid4(d.strengthUnitId)
    ensures Passes(Fields(d)[5]) <==> d.dose > 0.0
    ensures Passes(Fields(d)[6]) <==> Uuid.IsUuid4(d.apiId)
  {
    RequiredUuid4("StrengthUnitID", d.strengthUnitId);
    PositiveNumber("Dose", d.dose);
    RequiredUuid4("APIID", d.apiId);
  }

  /** What a valid drug is: an empty id or a UUID, a brand name that is not
      blank and at most 200 characters, four version-4 UUID references and
      a positive dose. */
  predicate Acceptable(d: Drug) {
    (d.id == "" || Uuid.IsUuid4(d.id))
    && !Text.AllSpace(d.brandName) && |d.brandName| <= 200
    && Uuid.IsUuid4(d.dosageFormId)
    && Uuid.IsUuid4(d.routeId)
    && Uuid.IsUuid4(d.strengthUnitId)
    && d.dose > 0.0
    && Uuid.IsUuid4(d.apiId)
  }

  lemma AllFieldsPass(d: Drug)
    ensures AllPass(Fields(d)) <==> Acceptable(d)
  {
    FieldsPassHead(d);
    FieldsPassTail(d);
  }

  /** `(*Drug).Validate`, with `notblank` evaluated as intended. */
  function Validate(d: Drug): Option<ValidationError> {
    Struct(Fields(d))
  }

  lemma ValidateAccepts(d: Drug)
    ensures Validate(d).None? <==> Acceptable(d)
  {
    AllFieldsPass(d);
  }

  lemma Messages()
    ensures "Dose" + " is invalid" == "Dose is invalid"
  {
  }

  /** An invalid Dose is reported even when APIID is invalid too, because
      APIID is declared after it. */
  lemma DoseReportedBeforeApiId(d: Drug)
    requires d.id == "" || Uuid.IsUuid4(d.id)
    requires !Text.AllSpace(d.brandName) && |d.brandName| <= 200
    requires Uuid.IsUuid4(d.dosageFormId) && Uuid.IsUuid4(d.routeId) && Uuid.IsUuid4(d.strengthUnitId)
    requires d.dose <= 0.0
    ensures FirstError(Validate(d)) == ("Dose is invalid", false)
  {
    var fs := Fields(d);
    FieldsPassHead(d);
    FieldsPassTail(d);
    FirstFailureReported(fs, 5);
    Messages();
  }

  /** The timestamps are not validated. */
  lemma TimestampsUnconstrained(d: Drug, c: Option<Time>, u: Option<Time>)
    ensures Validate(d.(createdAt := c, updatedAt := u)) == Validate(d)
  {
  }

  /** As written, `notblank` is unregistered and validating any Drug panics. */
  lemma ValidateAsWrittenPanics(d: Drug)
    ensures StructAsWritten(Fields(d)).Panic?
  {
    assert Fields(d)[1].rules[1] == NotBlank;
    NotBlankPanics(Fields(d), 1, 1);
  }
}
