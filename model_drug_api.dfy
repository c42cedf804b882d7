/** `DrugAPI` of models/drug_api.go, the link of a drug to one of its
    active ingredients with a strength, and its rule set. */
module DrugApiModel {
  import opened Base
  import opened Validation
  import Uuid

  datatype DrugApi = DrugApi(
    id: string,
    drugId: string,
    apiId: string,
    strengthValue: real,
    strengthUnitId: string)

  function Fields(l: DrugApi): seq<Field> {
    [ Field("ID", true, [Uuid4], Str(l.id)),
      Field("DrugID", false, [Required, Uuid4], Str(l.drugId)),
      Field("APIID", false, [Required, Uuid4], Str(l.apiId)),
      Field("StrengthValue", false, [Required, Gt(0)], Num(l.strengthValue)),
      Field("StrengthUnitID", false, [Required, Uuid4], Str(l.strengthUnitId)) ]
  }

  lemma FieldsPass(l: DrugApi)
    ensures Passes(Fields(l)[0]) <==> l.id == "" || Uuid.IsUuid4(l.id)
    ensures Passes(Fields(l)[1]) <==> Uuid.IsUuid4(l.drugId)
    ensures Passes(Fields(l)[2]) <==> Uuid.IsUuid4(l.apiId)
    ensures Passes(Fields(l)[3]) <==> l.strengthValue > 0.0
    ensures Passes(Fields(l)[4]) <==> Uuid.IsUuid4(l.strengthUnitId)
  {
    OptionalUuid4("ID", l.id);
    RequiredUuid4("DrugID", l.drugId);
    RequiredUuid4("APIID", l.apiId);
    PositiveNumber("StrengthValue", l.strengthValue);
    RequiredUuid4("StrengthUnitID", l.strengthUnitId);
  }

  /** An empty id or a UUID, three version-4 UUID references and a positive
      strength. */
  predicate Acceptable(l: DrugApi) {
    (l.id == "" || Uuid.IsUuid4(l.id))
    && Uuid.IsUuid4(l.drugId) && Uuid.IsUuid4(l.apiId)
    && l.strengthValue > 0.0
    && Uuid.IsUuid4(l.strengthUnitId)
  }

  /** `(*DrugAPI).Validate`. */
  function Validate(l: DrugApi): Option<ValidationError> {
    Struct(Fields(l))
  }

  lemma ValidateAccepts(l: DrugApi)
    ensures Validate(l).None? <==> Acceptable(l)
  {
    FieldsPass(l);
  }
}
