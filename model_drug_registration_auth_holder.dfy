/** `DrugRegistrationAuthHolder` of models/drug_registration_auth_holder.go, the link of a drug registration to
    an authorization holder, and its rule set. */
module DrugRegistrationAuthHolderModel {
  import opened Base
  import opened Validation
  import Uuid

  datatype DrugRegistrationAuthHolder = DrugRegistrationAuthHolder(id: string, drugRegistrationId: string, authHolderId: string, role: string)

  function Fields(l: DrugRegistrationAuthHolder): seq<Field> {
    [ Field("ID", true, [Uuid4], Str(l.id)),
      Field("DrugRegistrationID", false, [Required, Uuid4], Str(l.drugRegistrationId)),
      Field("AuthHolderID", false, [Required, Uuid4], Str(l.authHolderId)),
      Field("Role", true, [Max(80)], Str(l.role)) ]
  }

  lemma FieldsPass(l: DrugRegistrationAuthHolder)
    ensures Passes(Fields(l)[0]) <==> l.id == "" || Uuid.IsUuid4(l.id)
    ensures Passes(Fields(l)[1]) <==> Uuid.IsUuid4(l.drugRegistrationId)
    ensures Passes(Fields(l)[2]) <==> Uuid.IsUuid4(l.authHolderId)
    ensures Passes(Fields(l)[3]) <==> |l.role| <= 80
  {
    OptionalUuid4("ID", l.id);
    RequiredUuid4("DrugRegistrationID", l.drugRegistrationId);
    RequiredUuid4("AuthHolderID", l.authHolderId);
    OptionalMax("Role", 80, l.role);
  }

  /** An empty id or a UUID, two UUID references, and a role of at most 80
      characters, empty allowed. */
  predicate Acceptable(l: DrugRegistrationAuthHolder) {
    (l.id == "" || Uuid.IsUuid4(l.id))
    && Uuid.IsUuid4(l.drugRegistrationId) && Uuid.IsUuid4(l.authHolderId)
    && |l.role| <= 80
  }

  /** `(*DrugRegistrationAuthHolder).Validate`. */
  function Validate(l: DrugRegistrationAuthHolder): Option<ValidationError> {
    Struct(Fields(l))
  }

  lemma ValidateAccepts(l: DrugRegistrationAuthHolder)
    ensures Validate(l).None? <==> Acceptable(l)
  {
    FieldsPass(l);
  }
}
