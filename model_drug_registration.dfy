/** `DrugRegistration` of models/drug_registration.go and its rule set. */
module DrugRegistrationModel {
  import opened Base
  import opened Validation
  import Uuid
  import Types

  /** The values the `oneof` of `Status` lists. */
  const StatusValues: seq<string> := ["active", "suspended", "expired", "withdrawn"]

  datatype DrugRegistration = DrugRegistration(
    id: string,
    drugId: string,
    maId: string,
    registrationNumber: string,
    status: string,
    validFrom: Time,
    validTo: Time,
    isPrimary: bool,
    createdAt: Option<Time>,
    updatedAt: Option<Time>)

  /** The tagged fields in declaration order: the validity dates, the
      primary flag and the timestamps carry no tag. */
  function Fields(r: DrugRegistration): seq<Field> {
    [ Field("ID", true, [Uuid4], Str(r.id)),
      Field("DrugID", false, [Required, Uuid4], Str(r.drugId)),
      Field("MAID", false, [Required, Uuid4], Str(r.maId)),
      Field("RegistrationNumber", true, [Max(100)], Str(r.registrationNumber)),
      Field("Status", false, [Required, OneOf(StatusValues)], Str(r.status)) ]
  }

  lemma FieldsPass(r: DrugRegistration)
    ensures Passes(Fields(r)[0]) <==> r.id == "" || Uuid.IsUuid4(r.id)
    ensures Passes(Fields(r)[1]) <==> Uuid.IsUuid4(r.drugId)
    ensures Passes(Fields(r)[2]) <==> Uuid.IsUuid4(r.maId)
    ensures Passes(Fields(r)[3]) <==> |r.registrationNumber| <= 100
    ensures Passes(Fields(r)[4]) <==> r.status in StatusValues
  {
    OptionalUuid4("ID", r.id);
    RequiredUuid4("DrugID", r.drugId);
    RequiredUuid4("MAID", r.maId);
    OptionalMax("RegistrationNumber", 100, r.registrationNumber);
    RequiredOneOf("Status", StatusValues, r.status);
  }

  /** An empty id or a UUID, UUID references to the drug and the marketing
      authorization, a registration number of at most 100 characters (empty
      allowed) and one of the four statuses. */
  predicate Acceptable(r: DrugRegistration) {
    (r.id == "" || Uuid.IsUuid4(r.id))
    && Uuid.IsUuid4(r.drugId) && Uuid.IsUuid4(r.maId)
    && |r.registrationNumber| <= 100
    && r.status in StatusValues
  }

  /** `(*DrugRegistration).Validate`. */
  function Validate(r: DrugRegistration): Option<ValidationError> {
    Struct(Fields(r))
  }

  lemma ValidateAccepts(r: DrugRegistration)
    ensures Validate(r).None? <==> Acceptable(r)
  {
    FieldsPass(r);
  }

  /** The `oneof` list is exactly the set of `RegistrationStatus` constants
      of models/types.go. */
  lemma StatusValuesAreRegistrationStatus(s: string)
    ensures s in StatusValues <==> Types.ParseRegistrationStatus(s).Some?
  {
  }

  /** Nothing is checked of the validity dates or the primary flag: a
      registration valid to before it is valid from is accepted. */
  lemma ValidityUnconstrained(r: DrugRegistration, from: Time, to: Time, primary: bool)
    ensures Validate(r.(validFrom := from, validTo := to, isPrimary := primary)) == Validate(r)
  {
  }
}
