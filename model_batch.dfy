/** `Batch` of models/batch.go and its rule set. */
module BatchModel {
  import opened Base
  import opened Validation
  import Text
  import Uuid
  import Types

  /** The values the `oneof` of `Status` lists. */
  const StatusValues: seq<string> :=
    ["planned", "released", "on_hold", "recalled", "expired", "sold_out", "inactive"]

  datatype Batch = Batch(
    id: string,
    drugId: string,
    drugRegistrationId: string,
    batchNumber: string,
    mfgDate: Time,
    expireDate: Time,
    qtyInBatch: int,
    status: string,
    price: real,
    recallReason: Raw,
    createdAt: Option<Time>,
    updatedAt: Option<Time>)

  /** The tagged fields in declaration order; the timestamps carry no tag. */
  function Fields(b: Batch): seq<Field> {
    [ Field("ID", true, [Uuid4], Str(b.id)),
      Field("DrugID", false, [Required, Uuid4], Str(b.drugId)),
      Field("DrugRegistrationID", true, [Uuid4], Str(b.drugRegistrationId)),
      Field("BatchNumber", false, [Required, NotBlank, Max(120)], Str(b.batchNumber)),
      Field("MfgDate", false, [Required], TimeVal(b.mfgDate)),
      Field("ExpireDate", false, [Required], TimeVal(b.expireDate)),
      Field("QtyInBatch", false, [Gte(0)], Int(b.qtyInBatch)),
      Field("Status", false, [Required, OneOf(StatusValues)], Str(b.status)),
      Field("Price", false, [Gte(0)], Num(b.price)),
      Field("RecallReason", true, [Json], RawVal(b.recallReason)) ]
  }

  lemma FieldsPassHead(b: Batch)
    ensures Passes(Fields(b)[0]) <==> b.id == "" || Uuid.IsUuid4(b.id)
    ensures Passes(Fields(b)[1]) <==> Uuid.IsUuid4(b.drugId)
    ensures Passes(Fields(b)[2]) <==> b.drugRegistrationId == "" || Uuid.IsUuid4(b.drugRegistrationId)
    ensures Passes(Fields(b)[3]) <==> !Text.AllSpace(b.batchNumber) && |b.batchNumber| <= 120
    ensures Passes(Fields(b)[4]) <==> b.mfgDate != ZeroTime
  {
    OptionalUuid4("ID", b.id);
    RequiredUuid4("DrugID", b.drugId);
    OptionalUuid4("DrugRegistrationID", b.drugRegistrationId);
    NotBlankMax("BatchNumber", 120, b.batchNumber);
    RequiredTime("MfgDate", b.mfgDate);
  }

  lemma FieldsPassTail(b: Batch)
    ensures Passes(Fields(b)[5]) <==> b.expireDate != ZeroTime
    ensures Passes(Fields(b)[6]) <==> b.qtyInBatch >= 0
    ensures Passes(Fields(b)[7]) <==> b.status in StatusValues
    ensures Passes(Fields(b)[8]) <==> b.price >= 0.0
    ensures Passes(Fields(b)[9]) <==> b.recallReason == Nil || b.recallReason == Bytes(true)
  {
    RequiredTime("ExpireDate", b.expireDate);
    NonNegativeInteger("QtyInBatch", b.qtyInBatch);
    RequiredOneOf("Status", StatusValues, b.status);
    NonNegativeNumber("Price", b.price);
    OptionalJson("RecallReason", b.recallReason);
  }

  /** `(*Batch).Validate`, with `notblank` evaluated as intended. */
  function Validate(b: Batch): Option<ValidationError> {
    Struct(Fields(b))
  }

  /** What a valid batch is. Nothing relates the two dates to each other. */
  predicate Acceptable(b: Batch) {
    (b.id == "" || Uuid.IsUuid4(b.id))
    && Uuid.IsUuid4(b.drugId)
    && (b.drugRegistrationId == "" || Uuid.IsUuid4(b.drugRegistrationId))
    && !Text.AllSpace(b.batchNumber) && |b.batchNumber| <= 120
    && b.mfgDate != ZeroTime && b.expireDate != ZeroTime
    && b.qtyInBatch >= 0
    && b.status in StatusValues
    && b.price >= 0.0
    && (b.recallReason == Nil || b.recallReason == Bytes(true))
  }

  lemma AllFieldsPass(b: Batch)
    ensures AllPass(Fields(b)) <==> Acceptable(b)
  {
    FieldsPassHead(b);
    FieldsPassTail(b);
  }

  lemma ValidateAccepts(b: Batch)
    ensures Validate(b).None? <==> Acceptable(b)
  {
    AllFieldsPass(b);
  }

  /** The `oneof` list is exactly the set of `BatchStatus` constants of
      models/types.go. */
  lemma StatusValuesAreBatchStatus(s: string)
    ensures s in StatusValues <==> Types.ParseBatchStatus(s).Some?
  {
  }

  /** No rule orders the dates: any two non-zero dates are accepted, an
      expiry before manufacture included. */
  lemma DatesNotOrdered(b: Batch, mfg: Time, expire: Time)
    requires Validate(b).None?
    requires mfg != ZeroTime && expire != ZeroTime
    ensures Validate(b.(mfgDate := mfg, expireDate := expire)).None?
  {
    ValidateAccepts(b);
    ValidateAccepts(b.(mfgDate := mfg, expireDate := expire));
  }

  lemma Messages()
    ensures "DrugID" + " is invalid" == "DrugID is invalid"
    ensures "Status" + " is invalid" == "Status is invalid"
  {
  }

  /** Errors follow declaration order: once ID is acceptable, a bad DrugID
      is the one reported, whatever the later fields hold. */
  lemma DrugIdReportedFirst(b: Batch)
    requires b.id == "" || Uuid.IsUuid4(b.id)
    requires !Uuid.IsUuid4(b.drugId)
    ensures FirstError(Validate(b)) == ("DrugID is invalid", false)
  {
    var fs := Fields(b);
    FieldsPassHead(b);
    FirstFailureReported(fs, 1);
    Messages();
  }

  /** The last two numeric rules are checked after Status: with everything
      before it acceptable, a bad Status is reported even if the quantity
      is negative. */
  lemma StatusReportedBeforePrice(b: Batch)
    requires (b.id == "" || Uuid.IsUuid4(b.id)) && Uuid.IsUuid4(b.drugId)
    requires b.drugRegistrationId == "" || Uuid.IsUuid4(b.drugRegistrationId)
    requires !Text.AllSpace(b.batchNumber) && |b.batchNumber| <= 120
    requires b.mfgDate != ZeroTime && b.expireDate != ZeroTime && b.qtyInBatch >= 0
    requires b.status !in StatusValues
    ensures FirstError(Validate(b)) == ("Status is invalid", false)
  {
    var fs := Fields(b);
    FieldsPassHead(b);
    FieldsPassTail(b);
    FirstFailureReported(fs, 7);
    Messages();
  }

  /** As written, `notblank` is unregistered and validating any Batch
      panics. */
  lemma ValidateAsWrittenPanics(b: Batch)
    ensures StructAsWritten(Fields(b)).Panic?
  {
    assert Fields(b)[3].rules[1] == NotBlank;
    NotBlankPanics(Fields(b), 3, 1);
  }
}
