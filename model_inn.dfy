/** `INN` (an International Nonproprietary Name) of models/inn.go, its rule
    set, and its value-receiver `Validate`. */
module InnModel {
  import opened Base
  import opened Validation
  import Uuid

  datatype Inn = Inn(id: string, name: string, createdAt: Option<Time>, updatedAt: Option<Time>)

  function Fields(n: Inn): seq<Field> {
    [ Field("ID", false, [Required, Uuid4], Str(n.id)),
      Field("Name", false, [Required, Min(2), Max(120)], Str(n.name)),
      Field("CreatedAt", true, [], OptTime(n.createdAt)),
      Field("UpdatedAt", true, [], OptTime(n.updatedAt)) ]
  }

  lemma FieldsPass(n: Inn)
    ensures Passes(Fields(n)[0]) <==> Uuid.IsUuid4(n.id)
    ensures Passes(Fields(n)[1]) <==> 2 <= |n.name| <= 120
    ensures Passes(Fields(n)[2]) && Passes(Fields(n)[3])
  {
    RequiredUuid4("ID", n.id);
    RequiredLength("Name", 2, 120, n.name);
    OmitEmptyOnly("CreatedAt", OptTime(n.createdAt));
    OmitEmptyOnly("UpdatedAt", OptTime(n.updatedAt));
  }

  /** The id is a version-4 UUID (an empty id is refused) and the name has 2
      to 120 characters. */
  predicate Acceptable(n: Inn) {
    Uuid.IsUuid4(n.id) && 2 <= |n.name| <= 120
  }

  /** `INN.Validate`: `FirstError` of the validator's verdict. */
  function Validate(n: Inn): (string, bool) {
    FirstError(Struct(Fields(n)))
  }

  lemma ValidateAccepts(n: Inn)
    ensures Validate(n).1 <==> Acceptable(n)
    ensures Validate(n).1 ==> Validate(n).0 == ""
    ensures !Validate(n).1 ==> Validate(n).0 != ""
  {
    FieldsPass(n);
  }

  /** The timestamps are tagged `omitempty` alone and never decide the
      outcome. */
  lemma TimestampsUnconstrained(n: Inn, c: Option<Time>, u: Option<Time>)
    ensures Validate(n.(createdAt := c, updatedAt := u)) == Validate(n)
  {
    SameOutcome(Fields(n), Fields(n.(createdAt := c, updatedAt := u)));
  }
}
