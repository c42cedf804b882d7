/** `OutboxRow` of models/outbox.go, an event waiting to be published, and
    its value-receiver `Validate`. */
module OutboxModel {
  import opened Base
  import opened Validation
  import Uuid

  /** The aggregates an event can be about, and the two operations. */
  const AggregateValues: seq<string> := ["DRUG", "PACK", "BATCH", "AUTH", "INN"]
  const OpValues: seq<string> := ["UPSERT", "DELETE"]

  datatype OutboxRow = OutboxRow(
    id: int,
    aggregate: string,
    aggregateId: string,
    op: string,
    payload: Raw,
    createdAt: Time)

  function Fields(o: OutboxRow): seq<Field> {
    [ Field("ID", false, [Required, Gt(0)], Int(o.id)),
      Field("Aggregate", false, [Required, OneOf(AggregateValues)], Str(o.aggregate)),
      Field("AggregateID", false, [Required, Uuid4], Str(o.aggregateId)),
      Field("Op", false, [Required, OneOf(OpValues)], Str(o.op)),
      Field("Payload", true, [], RawVal(o.payload)),
      Field("CreatedAt", false, [Required], TimeVal(o.createdAt)) ]
  }

  lemma FieldsPass(o: OutboxRow)
    ensures Passes(Fields(o)[0]) <==> o.id > 0
    ensures Passes(Fields(o)[1]) <==> o.aggregate in AggregateValues
    ensures Passes(Fields(o)[2]) <==> Uuid.IsUuid4(o.aggregateId)
    ensures Passes(Fields(o)[3]) <==> o.op in OpValues
    ensures Passes(Fields(o)[4])
    ensures Passes(Fields(o)[5]) <==> o.createdAt != ZeroTime
  {
    PositiveInteger("ID", o.id);
    RequiredOneOf("Aggregate", AggregateValues, o.aggregate);
    RequiredUuid4("AggregateID", o.aggregateId);
    RequiredOneOf("Op", OpValues, o.op);
    OmitEmptyOnly("Payload", RawVal(o.payload));
    RequiredTime("CreatedAt", o.createdAt);
  }

  /** A positive id, a known aggregate with a UUID, UPSERT or DELETE, and a
      creation time; the payload may be absent or any bytes. */
  predicate Acceptable(o: OutboxRow) {
    o.id > 0 && o.aggregate in AggregateValues && Uuid.IsUuid4(o.aggregateId)
    && o.op in OpValues && o.createdAt != ZeroTime
  }

  /** `OutboxRow.Validate`. */
  function Validate(o: OutboxRow): (string, bool) {
    FirstError(Struct(Fields(o)))
  }

  lemma ValidateAccepts(o: OutboxRow)
    ensures Validate(o).1 <==> Acceptable(o)
    ensures Validate(o).1 ==> Validate(o).0 == ""
  {
    FieldsPass(o);
  }

  /** The payload is never checked, not even for being JSON. */
  lemma PayloadUnconstrained(o: OutboxRow, p: Raw)
    ensures Validate(o.(payload := p)) == Validate(o)
  {
    SameOutcome(Fields(o), Fields(o.(payload := p)));
  }
}
