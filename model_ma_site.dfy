/** `MASite` of models/ma_site.go, the link of a marketing authorization to
    a site, and its value-receiver `Validate`. */
module MaSiteModel {
  import opened Base
  import opened Validation
  import Uuid

  /** The values the `oneof` of `Role` lists. */
  const RoleValues: seq<string> := ["API", "FINISHED_DOSE", "PACKER", "RELEASE_SITE"]

  datatype MASite = MASite(maId: string, siteId: string, role: string, validFrom: Time, validTo: Option<Time>)

  function Fields(l: MASite): seq<Field> {
    [ Field("MAID", false, [Required, Uuid4], Str(l.maId)),
      Field("SiteID", false, [Required, Uuid4], Str(l.siteId)),
      Field("Role", false, [Required, OneOf(RoleValues)], Str(l.role)),
      Field("ValidFrom", false, [Required], TimeVal(l.validFrom)),
      Field("ValidTo", true, [], OptTime(l.validTo)) ]
  }

  lemma FieldsPass(l: MASite)
    ensures Passes(Fields(l)[0]) <==> Uuid.IsUuid4(l.maId)
    ensures Passes(Fields(l)[1]) <==> Uuid.IsUuid4(l.siteId)
    ensures Passes(Fields(l)[2]) <==> l.role in RoleValues
    ensures Passes(Fields(l)[3]) <==> l.validFrom != ZeroTime
    ensures Passes(Fields(l)[4])
  {
    RequiredUuid4("MAID", l.maId);
    RequiredUuid4("SiteID", l.siteId);
    RequiredOneOf("Role", RoleValues, l.role);
    RequiredTime("ValidFrom", l.validFrom);
    OmitEmptyOnly("ValidTo", OptTime(l.validTo));
  }

  /** Two UUID references, one of the listed roles and a non-zero start
      date; the end date is free. */
  predicate Acceptable(l: MASite) {
    Uuid.IsUuid4(l.maId) && Uuid.IsUuid4(l.siteId)
    && l.role in RoleValues
    && l.validFrom != ZeroTime
  }

  /** `MASite.Validate`. */
  function Validate(l: MASite): (string, bool) {
    FirstError(Struct(Fields(l)))
  }

  lemma ValidateAccepts(l: MASite)
    ensures Validate(l).1 <==> Acceptable(l)
    ensures Validate(l).1 ==> Validate(l).0 == ""
  {
    FieldsPass(l);
  }

  /** `ValidTo` is optional and not ordered against `ValidFrom`: any end
      date, one before the start included, gives the same outcome. */
  lemma ValidToUnconstrained(l: MASite, to: Option<Time>)
    ensures Validate(l.(validTo := to)) == Validate(l)
  {
    SameOutcome(Fields(l), Fields(l.(validTo := to)));
  }
}
