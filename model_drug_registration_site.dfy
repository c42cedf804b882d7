/** `DrugRegistrationSite` of models/drug_registration_site.go, the link of a drug registration to
    a manufacturing site, and its rule set. */
module DrugRegistrationSiteModel {
  import opened Base
  import opened Validation
  import Uuid

  datatype DrugRegistrationSite = DrugRegistrationSite(id: string, drugRegistrationId: string, siteId: string, role: string)

  function Fields(l: DrugRegistrationSite): seq<Field> {
    [ Field("ID", true, [Uuid4], Str(l.id)),
      Field("DrugRegistrationID", false, [Required, Uuid4], Str(l.drugRegistrationId)),
      Field("SiteID", false, [Required, Uuid4], Str(l.siteId)),
      Field("Role", true, [Max(80)], Str(l.role)) ]
  }

  lemma FieldsPass(l: DrugRegistrationSite)
    ensures Passes(Fields(l)[0]) <==> l.id == "" || Uuid.IsUuid4(l.id)
    ensures Passes(Fields(l)[1]) <==> Uuid.IsUuid4(l.drugRegistrationId)
    ensures Passes(Fields(l)[2]) <==> Uuid.IsUuid4(l.siteId)
    ensures Passes(Fields(l)[3]) <==> |l.role| <= 80
  {
    OptionalUuid4("ID", l.id);
    RequiredUuid4("DrugRegistrationID", l.drugRegistrationId);
    RequiredUuid4("SiteID", l.siteId);
    OptionalMax("Role", 80, l.role);
  }

  /** An empty id or a UUID, two UUID references, and a role of at most 80
      characters, empty allowed. */
  predicate Acceptable(l: DrugRegistrationSite) {
    (l.id == "" || Uuid.IsUuid4(l.id))
    && Uuid.IsUuid4(l.drugRegistrationId) && Uuid.IsUuid4(l.siteId)
    && |l.role| <= 80
  }

  /** `(*DrugRegistrationSite).Validate`. */
  function Validate(l: DrugRegistrationSite): Option<ValidationError> {
    Struct(Fields(l))
  }

  lemma ValidateAccepts(l: DrugRegistrationSite)
    ensures Validate(l).None? <==> Acceptable(l)
  {
    FieldsPass(l);
  }
}
