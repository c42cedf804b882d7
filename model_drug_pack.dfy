/** `DrugPack` of models/drug_pack.go, a saleable pack of a drug, and its
    value-receiver `Validate`. */
module DrugPackModel {
  import opened Base
  import opened Validation
  import Uuid

  datatype DrugPack = DrugPack(
    id: string,
    drugId: string,
    gtin: string,
    packSize: int,
    packUnit: string,
    createdAt: Option<Time>,
    updatedAt: Option<Time>)

  function Fields(p: DrugPack): seq<Field> {
    [ Field("ID", false, [Required, Uuid4], Str(p.id)),
      Field("DrugID", false, [Required, Uuid4], Str(p.drugId)),
      Field("GTIN", true, [Numeric, Min(8), Max(20)], Str(p.gtin)),
      Field("PackSize", false, [Required, Gt(0)], Int(p.packSize)),
      Field("PackUnit", false, [Required, AlphanumUnicode, Max(16)], Str(p.packUnit)),
      Field("CreatedAt", true, [], OptTime(p.createdAt)),
      Field("UpdatedAt", true, [], OptTime(p.updatedAt)) ]
  }

  lemma FieldsPassHead(p: DrugPack)
    ensures Passes(Fields(p)[0]) <==> Uuid.IsUuid4(p.id)
    ensures Passes(Fields(p)[1]) <==> Uuid.IsUuid4(p.drugId)
    ensures Passes(Fields(p)[2]) <==> p.gtin == "" || (IsNumeric(p.gtin) && 8 <= |p.gtin| <= 20)
  {
    RequiredUuid4("ID", p.id);
    RequiredUuid4("DrugID", p.drugId);
    OptionalNumericLength("GTIN", 8, 20, p.gtin);
  }

  lemma FieldsPassTail(p: DrugPack)
    ensures Passes(Fields(p)[3]) <==> p.packSize > 0
    ensures Passes(Fields(p)[4]) <==> p.packUnit != "" && AllAlnum(p.packUnit) && |p.packUnit| <= 16
    ensures Passes(Fields(p)[5]) && Passes(Fields(p)[6])
  {
    PositiveInteger("PackSize", p.packSize);
    RequiredAlnumMax("PackUnit", 16, p.packUnit);
    OmitEmptyOnly("CreatedAt", OptTime(p.createdAt));
    OmitEmptyOnly("UpdatedAt", OptTime(p.updatedAt));
  }

  /** Both ids are UUIDs (neither may be empty), the GTIN is empty or a
      number of 8 to 20 characters, the pack size is positive and the unit
      is 1 to 16 letters and digits. */
  predicate Acceptable(p: DrugPack) {
    Uuid.IsUuid4(p.id) && Uuid.IsUuid4(p.drugId)
    && (p.gtin == "" || (IsNumeric(p.gtin) && 8 <= |p.gtin| <= 20))
    && p.packSize > 0
    && p.packUnit != "" && AllAlnum(p.packUnit) && |p.packUnit| <= 16
  }

  lemma AllFieldsPass(p: DrugPack)
    ensures AllPass(Fields(p)) <==> Acceptable(p)
  {
    FieldsPassHead(p);
    FieldsPassTail(p);
  }

  /** `DrugPack.Validate`. */
  function Validate(p: DrugPack): (string, bool) {
    FirstError(Struct(Fields(p)))
  }

  lemma ValidateAccepts(p: DrugPack)
    ensures Validate(p).1 <==> Acceptable(p)
    ensures Validate(p).1 ==> Validate(p).0 == ""
  {
    AllFieldsPass(p);
  }
}
