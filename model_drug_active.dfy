/** `DrugActive` of models/drug_active.go, the strength of one active
    ingredient of a drug, and its value-receiver `Validate`. */
module DrugActiveModel {
  import opened Base
  import opened Validation
  import Uuid

  datatype DrugActive = DrugActive(drugId: string, innId: string, strengthValue: real, strengthUnit: string)

  function Fields(a: DrugActive): seq<Field> {
    [ Field("DrugID", false, [Required, Uuid4], Str(a.drugId)),
      Field("INNID", false, [Required, Uuid4], Str(a.innId)),
      Field("StrengthValue", false, [Required, Gt(0)], Num(a.strengthValue)),
      Field("StrengthUnit", false, [Required, Uppercase, Alphanum, Max(8)], Str(a.strengthUnit)) ]
  }

  lemma FieldsPass(a: DrugActive)
    ensures Passes(Fields(a)[0]) <==> Uuid.IsUuid4(a.drugId)
    ensures Passes(Fields(a)[1]) <==> Uuid.IsUuid4(a.innId)
    ensures Passes(Fields(a)[2]) <==> a.strengthValue > 0.0
    ensures Passes(Fields(a)[3]) <==>
      a.strengthUnit != "" && NoLower(a.strengthUnit) && AllAlnum(a.strengthUnit) && |a.strengthUnit| <= 8
  {
    RequiredUuid4("DrugID", a.drugId);
    RequiredUuid4("INNID", a.innId);
    PositiveNumber("StrengthValue", a.strengthValue);
    RequiredUpperAlnumMax("StrengthUnit", 8, a.strengthUnit);
  }

  /** Two UUID references, a positive strength, and a unit of 1 to 8 ASCII
      letters and digits with no lower-case letter. */
  predicate Acceptable(a: DrugActive) {
    Uuid.IsUuid4(a.drugId) && Uuid.IsUuid4(a.innId)
    && a.strengthValue > 0.0
    && a.strengthUnit != "" && NoLower(a.strengthUnit) && AllAlnum(a.strengthUnit) && |a.strengthUnit| <= 8
  }

  /** `DrugActive.Validate`. */
  function Validate(a: DrugActive): (string, bool) {
    FirstError(Struct(Fields(a)))
  }

  lemma ValidateAccepts(a: DrugActive)
    ensures Validate(a).1 <==> Acceptable(a)
    ensures Validate(a).1 ==> Validate(a).0 == ""
  {
    FieldsPass(a);
  }
}
