/** `ManufacturerSite` of models/manufacturer_site.go, a site with its
    postal address, and its value-receiver `Validate`. */
module ManufacturerSiteModel {
  import opened Base
  import opened Validation
  import Uuid

  datatype ManufacturerSite = ManufacturerSite(
    id: string,
    name: string,
    companyName: string,
    countryIso: string,
    address1: string,
    city: string,
    postalCode: string,
    createdAt: Option<Time>,
    updatedAt: Option<Time>)

  function Fields(m: ManufacturerSite): seq<Field> {
    [ Field("ID", true, [Uuid4], Str(m.id)),
      Field("Name", false, [Required, Min(2), Max(200)], Str(m.name)),
      Field("CompanyName", false, [Required, Min(2), Max(200)], Str(m.companyName)),
      Field("CountryISO", false, [Required, Alpha, Len(2), Uppercase], Str(m.countryIso)),
      Field("Address1", false, [Required, Min(2), Max(200)], Str(m.address1)),
      Field("City", false, [Required, Min(2), Max(120)], Str(m.city)),
      Field("PostalCode", true, [AlphanumUnicode, Max(20)], Str(m.postalCode)),
      Field("CreatedAt", true, [], OptTime(m.createdAt)),
      Field("UpdatedAt", true, [], OptTime(m.updatedAt)) ]
  }

  lemma FieldsPassHead(m: ManufacturerSite)
    ensures Passes(Fields(m)[0]) <==> m.id == "" || Uuid.IsUuid4(m.id)
    ensures Passes(Fields(m)[1]) <==> 2 <= |m.name| <= 200
    ensures Passes(Fields(m)[2]) <==> 2 <= |m.companyName| <= 200
    ensures Passes(Fields(m)[3]) <==> |m.countryIso| == 2 && AllLetters(m.countryIso) && NoLower(m.countryIso)
  {
    OptionalUuid4("ID", m.id);
    RequiredLength("Name", 2, 200, m.name);
    RequiredLength("CompanyName", 2, 200, m.companyName);
    CountryCode("CountryISO", m.countryIso);
  }

  lemma FieldsPassTail(m: ManufacturerSite)
    ensures Passes(Fields(m)[4]) <==> 2 <= |m.address1| <= 200
    ensures Passes(Fields(m)[5]) <==> 2 <= |m.city| <= 120
    ensures Passes(Fields(m)[6]) <==> m.postalCode == "" || (AllAlnum(m.postalCode) && |m.postalCode| <= 20)
    ensures Passes(Fields(m)[7]) && Passes(Fields(m)[8])
  {
    RequiredLength("Address1", 2, 200, m.address1);
    RequiredLength("City", 2, 120, m.city);
    OptionalAlnumMax("PostalCode", 20, m.postalCode);
    OmitEmptyOnly("CreatedAt", OptTime(m.createdAt));
    OmitEmptyOnly("UpdatedAt", OptTime(m.updatedAt));
  }

  /** A country code of exactly two upper-case ASCII letters. */
  predicate IsCountryCode(s: string) {
    |s| == 2 && 'A' <= s[0] <= 'Z' && 'A' <= s[1] <= 'Z'
  }

  lemma CountryCodeShape(s: string)
    ensures |s| == 2 && AllLetters(s) && NoLower(s) <==> IsCountryCode(s)
  {
  }

  /** What a valid site is: an empty id or a UUID, a name, a company name
      and a first address line of 2 to 200 characters each, a two-letter
      upper-case country code, a city of 2 to 120 characters, and a postal
      code that is empty or up to 20 letters and digits. */
  predicate Acceptable(m: ManufacturerSite) {
    (m.id == "" || Uuid.IsUuid4(m.id))
    && 2 <= |m.name| <= 200 && 2 <= |m.companyName| <= 200
    && IsCountryCode(m.countryIso)
    && 2 <= |m.address1| <= 200 && 2 <= |m.city| <= 120
    && (m.postalCode == "" || (AllAlnum(m.postalCode) && |m.postalCode| <= 20))
  }

  lemma AllFieldsPass(m: ManufacturerSite)
    ensures AllPass(Fields(m)) <==> Acceptable(m)
  {
    FieldsPassHead(m);
    FieldsPassTail(m);
    CountryCodeShape(m.countryIso);
  }

  /** `ManufacturerSite.Validate`. */
  function Validate(m: ManufacturerSite): (string, bool) {
    FirstError(Struct(Fields(m)))
  }

  lemma ValidateAccepts(m: ManufacturerSite)
    ensures Validate(m).1 <==> Acceptable(m)
    ensures Validate(m).1 ==> Validate(m).0 == ""
  {
    AllFieldsPass(m);
  }
}
