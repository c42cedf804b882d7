/** `MAHolder` of models/ma_holder.go, the link of a marketing authorization to
    a holder, and its value-receiver `Validate`. */
module MaHolderModel {
  import opened Base
  import opened Validation
  import Uuid

  /** The values the `oneof` of `Role` lists. */
  const RoleValues: seq<string> := ["PRIMARY", "CO_HOLDER", "LOCAL_AGENT"]

  datatype MAHolder = MAHolder(maId: string, holderId: string, role: string, validFrom: Time, validTo: Option<Time>)

  function Fields(l: MAHolder): seq<Field> {
    [ Field("MAID", false, [Required, Uuid4], Str(l.maId)),
      Field("HolderID", false, [Required, Uuid4], Str(l.holderId)),
      Field("Role", false, [Required, OneOf(RoleValues)], Str(l.role)),
      Field("ValidFrom", false, [Required], TimeVal(l.validFrom)),
      Field("ValidTo", true, [], OptTime(l.validTo)) ]
  }

  lemma FieldsPass(l: MAHolder)
    ensures Passes(Fields(l)[0]) <==> Uuid.IsUuid4(l.maId)
    ensures Passes(Fields(l)[1]) <==> Uuid.IsUuid4(l.holderId)
    ensures Passes(Fields(l)[2]) <==> l.role in RoleValues
    ensures Passes(Fields(l)[3]) <==> l.validFrom != ZeroTime
    ensures Passes(Fields(l)[4])
  {
    RequiredUuid4("MAID", l.maId);
    RequiredUuid4("HolderID", l.holderId);
    RequiredOneOf("Role", RoleValues, l.role);
    RequiredTime("ValidFrom", l.validFrom);
    OmitEmptyOnly("ValidTo", OptTime(l.validTo));
  }

  /** Two UUID references, one of the listed roles and a non-zero start
      date; the end date is free. */
  predicate Acceptable(l: MAHolder) {
    Uuid.IsUuid4(l.maId) && Uuid.IsUuid4(l.holderId)
    && l.role in RoleValues
    && l.validFrom != ZeroTime
  }

  /** `MAHolder.Validate`. */
  function Validate(l: MAHolder): (string, bool) {
    FirstError(Struct(Fields(l)))
  }

  lemma ValidateAccepts(l: MAHolder)
    ensures Validate(l).1 <==> Acceptable(l)
    ensures Validate(l).1 ==> Validate(l).0 == ""
  {
    FieldsPass(l);
  }

  /** `ValidTo` is optional and not ordered against `ValidFrom`: any end
      date, one before the start included, gives the same outcome. */
  lemma ValidToUnconstrained(l: MAHolder, to: Option<Time>)
    ensures Validate(l.(validTo := to)) == Validate(l)
  {
    SameOutcome(Fields(l), Fields(l.(validTo := to)));
  }
}
