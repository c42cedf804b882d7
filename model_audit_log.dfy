/** `AuditLog` of models/audit_log.go, one entry of the audit trail, and its
    value-receiver `Validate`. */
module AuditLogModel {
  import opened Base
  import opened Validation
  import Uuid

  /** The entities an entry can be about. */
  const EntityValues: seq<string> := ["DRUG", "PACK", "BATCH", "AUTH", "INN"]

  datatype AuditLog = AuditLog(
    id: int,
    actor: string,
    action: string,
    entity: string,
    entityId: string,
    before: Raw,
    after: Raw,
    createdAt: Time)

  function Fields(e: AuditLog): seq<Field> {
    [ Field("ID", false, [Required, Gt(0)], Int(e.id)),
      Field("Actor", false, [Required, Min(1), Max(120)], Str(e.actor)),
      Field("Action", false, [Required, Min(1), Max(80)], Str(e.action)),
      Field("Entity", false, [Required, OneOf(EntityValues)], Str(e.entity)),
      Field("EntityID", false, [Required, Uuid4], Str(e.entityId)),
      Field("Before", true, [], RawVal(e.before)),
      Field("After", false, [Required], RawVal(e.after)),
      Field("CreatedAt", false, [Required], TimeVal(e.createdAt)) ]
  }

  lemma FieldsPassHead(e: AuditLog)
    ensures Passes(Fields(e)[0]) <==> e.id > 0
    ensures Passes(Fields(e)[1]) <==> 1 <= |e.actor| <= 120
    ensures Passes(Fields(e)[2]) <==> 1 <= |e.action| <= 80
    ensures Passes(Fields(e)[3]) <==> e.entity in EntityValues
  {
    PositiveInteger("ID", e.id);
    RequiredLength("Actor", 1, 120, e.actor);
    RequiredLength("Action", 1, 80, e.action);
    RequiredOneOf("Entity", EntityValues, e.entity);
  }

  lemma FieldsPassTail(e: AuditLog)
    ensures Passes(Fields(e)[4]) <==> Uuid.IsUuid4(e.entityId)
    ensures Passes(Fields(e)[5])
    ensures Passes(Fields(e)[6]) <==> e.after != Nil
    ensures Passes(Fields(e)[7]) <==> e.createdAt != ZeroTime
  {
    RequiredUuid4("EntityID", e.entityId);
    OmitEmptyOnly("Before", RawVal(e.before));
    RequiredRaw("After", e.after);
    RequiredTime("CreatedAt", e.createdAt);
  }

  /** A positive id, an actor and an action, a known entity with a UUID, an
      after-image that is present (a non-nil slice) and a creation time. */
  predicate Acceptable(e: AuditLog) {
    e.id > 0 && 1 <= |e.actor| <= 120 && 1 <= |e.action| <= 80
    && e.entity in EntityValues && Uuid.IsUuid4(e.entityId)
    && e.after != Nil && e.createdAt != ZeroTime
  }

  lemma AllFieldsPass(e: AuditLog)
    ensures AllPass(Fields(e)) <==> Acceptable(e)
  {
    FieldsPassHead(e);
    FieldsPassTail(e);
  }

  /** `AuditLog.Validate`. */
  function Validate(e: AuditLog): (string, bool) {
    FirstError(Struct(Fields(e)))
  }

  lemma ValidateAccepts(e: AuditLog)
    ensures Validate(e).1 <==> Acceptable(e)
    ensures Validate(e).1 ==> Validate(e).0 == ""
  {
    AllFieldsPass(e);
  }

  /** The before-image is optional and never checked. */
  lemma BeforeUnconstrained(e: AuditLog, b: Raw)
    ensures Validate(e.(before := b)) == Validate(e)
  {
    SameOutcome(Fields(e), Fields(e.(before := b)));
  }
}
