/** internal/services/services_catalog.go: the create operations of the
    reference catalog (dosage forms, strength units, routes of
    administration, APIs). Each one overwrites the caller's id with a fresh
    server id, normalises the input (codes trimmed and upper-cased, names
    trimmed, an API status trimmed, lower-cased and defaulted to
    "active"), validates, inserts, and maps a unique violation to
    "code already exists" or, for an API, "name already exists". Foreign
    keys do not occur in these tables, so no foreign-key mapping exists. */
module ServicesCatalog {
  import opened Base
  import Text
  import Sql
  import Uuid
  import Types
  import Validation
  import StrengthUnitModel
  import ApiModel

  const CodeTaken: string := "code already exists"
  const NameTaken: string := "name already exists"

  /** `models.DosageForm` as this file uses it: a uuid id, a code and a
      name. The models package declares no type of that name (its dosage
      form is the int-keyed `Dosage`), so the rule set is the parameter
      `validate` of `AddDosageForm`. */
  datatype DosageForm = DosageForm(id: string, code: string, name: string)

  /** `models.RouteOfAdmin` with the id this file assigns to it. The
      declared type has no `ID` field and its `Validate` returns a message
      and a flag rather than an error, so the rule set `AddRouteOfAdmin`
      applies is its parameter `validate`. */
  datatype Route = Route(id: string, code: string, name: string)

  /** What the normalisation promises of a code and a name: trimmed, a code
      with no lower-case ASCII letter, and empty exactly when the input was
      all white space. */
  predicate NormalCode(code: string, original: string) {
    && Text.Trimmed(code)
    && (forall i :: 0 <= i < |code| ==> !('a' <= code[i] <= 'z'))
    && (code == "" <==> Text.AllSpace(original))
  }

  predicate NormalName(name: string, original: string) {
    Text.Trimmed(name) && (name == "" <==> Text.AllSpace(original))
  }

  // ------------------------------------------------------------ Dosage form

  /** The value `AddDosageForm` validates: the server id, the code in upper
      case without surrounding space, the trimmed name. */
  function PrepareDosageForm(f: DosageForm, serverId: string): (r: DosageForm)
    ensures r.id == serverId
    ensures NormalCode(r.code, f.code) && NormalName(r.name, f.name)
  {
    DosageForm(serverId, Text.NormaliseCode(f.code), Text.TrimSpace(f.name))
  }

  /** Preparing a prepared value changes nothing. */
  lemma PrepareDosageFormIdempotent(f: DosageForm, serverId: string)
    ensures PrepareDosageForm(PrepareDosageForm(f, serverId), serverId) == PrepareDosageForm(f, serverId)
  {
    Text.NormaliseCodeIdempotent(f.code);
    Text.TrimSpaceIdempotent(f.name);
  }

  /** `AddDosageForm`; `insert` is the INSERT ... RETURNING on the prepared
      value. */
  function AddDosageForm(f: DosageForm, serverId: string, validate: DosageForm -> Option<Validation.ValidationError>,
                         insert: DosageForm -> Result<DosageForm>): (r: Result<DosageForm>)
    ensures validate(PrepareDosageForm(f, serverId)).Some?
            ==> r == Err(New(Validation.FirstError(validate(PrepareDosageForm(f, serverId))).0)) && r.error.text != ""
    ensures r.Ok? <==> validate(PrepareDosageForm(f, serverId)).None? && insert(PrepareDosageForm(f, serverId)).Ok?
    ensures r.Ok? ==> r.value == insert(PrepareDosageForm(f, serverId)).value
    ensures validate(PrepareDosageForm(f, serverId)).None? && insert(PrepareDosageForm(f, serverId)).Err?
            ==> r.error == Sql.MapError(insert(PrepareDosageForm(f, serverId)).error, None, Some(CodeTaken))
  {
    var p := PrepareDosageForm(f, serverId);
    Sql.Create(validate(p), p, insert, None, Some(CodeTaken))
  }

  /** Neither the caller's id nor space and case in the code make a
      difference: adding an input is adding its prepared form. */
  lemma AddDosageFormNormalises(f: DosageForm, id: string, serverId: string,
                                validate: DosageForm -> Option<Validation.ValidationError>,
                                insert: DosageForm -> Result<DosageForm>)
    ensures AddDosageForm(f.(id := id), serverId, validate, insert) == AddDosageForm(f, serverId, validate, insert)
    ensures AddDosageForm(PrepareDosageForm(f, serverId), serverId, validate, insert) == AddDosageForm(f, serverId, validate, insert)
  {
    assert PrepareDosageForm(f.(id := id), serverId) == PrepareDosageForm(f, serverId);
    PrepareDosageFormIdempotent(f, serverId);
  }

  // ------------------------------------------------------------ Strength unit

  /** The value `AddStrengthUnit` validates. */
  function PrepareStrengthUnit(u: StrengthUnitModel.StrengthUnit, serverId: string): (r: StrengthUnitModel.StrengthUnit)
    ensures r.id == serverId
    ensures NormalCode(r.code, u.code) && NormalName(r.name, u.name)
    ensures r.createdAt == u.createdAt && r.updatedAt == u.updatedAt
  {
    var code := Text.NormaliseCode(u.code);
    var name := Text.TrimSpace(u.name);
    assert NormalCode(code, u.code) && NormalName(name, u.name);
    u.(id := serverId, code := code, name := name)
  }

  lemma PrepareStrengthUnitIdempotent(u: StrengthUnitModel.StrengthUnit, serverId: string)
    ensures PrepareStrengthUnit(PrepareStrengthUnit(u, serverId), serverId) == PrepareStrengthUnit(u, serverId)
  {
    Text.NormaliseCodeIdempotent(u.code);
    Text.TrimSpaceIdempotent(u.name);
  }

  /** `AddStrengthUnit`, with the rule set of models/strength_unit.go. */
  function AddStrengthUnit(u: StrengthUnitModel.StrengthUnit, serverId: string,
                           insert: StrengthUnitModel.StrengthUnit -> Result<StrengthUnitModel.StrengthUnit>): (r: Result<StrengthUnitModel.StrengthUnit>)
    ensures r.Ok? ==> StrengthUnitModel.Acceptable(PrepareStrengthUnit(u, serverId))
    ensures r.Ok? ==> insert(PrepareStrengthUnit(u, serverId)) == Ok(r.value)
    ensures r.Ok? <==> StrengthUnitModel.Acceptable(PrepareStrengthUnit(u, serverId)) && insert(PrepareStrengthUnit(u, serverId)).Ok?
    ensures StrengthUnitModel.Validate(PrepareStrengthUnit(u, serverId)).Some? ==> r == Err(New(Validation.FirstError(StrengthUnitModel.Validate(PrepareStrengthUnit(u, serverId))).0))
    ensures StrengthUnitModel.Acceptable(PrepareStrengthUnit(u, serverId)) && insert(PrepareStrengthUnit(u, serverId)).Err?
            ==> r.error == Sql.MapError(insert(PrepareStrengthUnit(u, serverId)).error, None, Some(CodeTaken))
    ensures !StrengthUnitModel.Acceptable(PrepareStrengthUnit(u, serverId)) ==> r.Err? && r.error.New? && r.error.text != ""
  {
    var p := PrepareStrengthUnit(u, serverId);
    StrengthUnitModel.ValidateAccepts(p);
    Sql.Create(StrengthUnitModel.Validate(p), p, insert, None, Some(CodeTaken))
  }

  /** With a server id from `uuid.NewString`, a strength unit is accepted
      exactly when its code and name are not blank and, once normalised,
      fit their limits of 32 and 120 characters. */
  lemma AddStrengthUnitAccepts(u: StrengthUnitModel.StrengthUnit, random: seq<bv8>)
    requires |random| == 16
    ensures StrengthUnitModel.Acceptable(PrepareStrengthUnit(u, Uuid.NewString(random)))
            <==> !Text.AllSpace(u.code) && |Text.NormaliseCode(u.code)| <= 32
                 && !Text.AllSpace(u.name) && |Text.TrimSpace(u.name)| <= 120
  {
    Uuid.NewStringIsUuid4(random);
    Text.TrimmedBlankIsEmpty(Text.NormaliseCode(u.code));
    Text.TrimmedBlankIsEmpty(Text.TrimSpace(u.name));
  }

  lemma AddStrengthUnitNormalises(u: StrengthUnitModel.StrengthUnit, id: string, serverId: string,
                                  insert: StrengthUnitModel.StrengthUnit -> Result<StrengthUnitModel.StrengthUnit>)
    ensures AddStrengthUnit(u.(id := id), serverId, insert) == AddStrengthUnit(u, serverId, insert)
    ensures AddStrengthUnit(PrepareStrengthUnit(u, serverId), serverId, insert) == AddStrengthUnit(u, serverId, insert)
  {
    assert PrepareStrengthUnit(u.(id := id), serverId) == PrepareStrengthUnit(u, serverId);
    PrepareStrengthUnitIdempotent(u, serverId);
  }

  // ------------------------------------------------------------ Route of administration

  function PrepareRoute(t: Route, serverId: string): (r: Route)
    ensures r.id == serverId
    ensures NormalCode(r.code, t.code) && NormalName(r.name, t.name)
  {
    Route(serverId, Text.NormaliseCode(t.code), Text.TrimSpace(t.name))
  }

  lemma PrepareRouteIdempotent(t: Route, serverId: string)
    ensures PrepareRoute(PrepareRoute(t, serverId), serverId) == PrepareRoute(t, serverId)
  {
    Text.NormaliseCodeIdempotent(t.code);
    Text.TrimSpaceIdempotent(t.name);
  }

  /** `AddRouteOfAdmin`. */
  function AddRouteOfAdmin(t: Route, serverId: string, validate: Route -> Option<Validation.ValidationError>,
                           insert: Route -> Result<Route>): (r: Result<Route>)
    ensures validate(PrepareRoute(t, serverId)).Some?
            ==> r == Err(New(Validation.FirstError(validate(PrepareRoute(t, serverId))).0)) && r.error.text != ""
    ensures r.Ok? <==> validate(PrepareRoute(t, serverId)).None? && insert(PrepareRoute(t, serverId)).Ok?
    ensures r.Ok? ==> r.value == insert(PrepareRoute(t, serverId)).value
    ensures validate(PrepareRoute(t, serverId)).None? && insert(PrepareRoute(t, serverId)).Err?
            ==> r.error == Sql.MapError(insert(PrepareRoute(t, serverId)).error, None, Some(CodeTaken))
  {
    var p := PrepareRoute(t, serverId);
    Sql.Create(validate(p), p, insert, None, Some(CodeTaken))
  }

  lemma AddRouteOfAdminNormalises(t: Route, id: string, serverId: string,
                                  validate: Route -> Option<Validation.ValidationError>, insert: Route -> Result<Route>)
    ensures AddRouteOfAdmin(t.(id := id), serverId, validate, insert) == AddRouteOfAdmin(t, serverId, validate, insert)
    ensures AddRouteOfAdmin(PrepareRoute(t, serverId), serverId, validate, insert) == AddRouteOfAdmin(t, serverId, validate, insert)
  {
    assert PrepareRoute(t.(id := id), serverId) == PrepareRoute(t, serverId);
    PrepareRouteIdempotent(t, serverId);
  }

  // ------------------------------------------------------------ API

  /** The status `AddAPI` stores: trimmed and lower-cased, "active" when
      nothing is left. */
  function NormaliseStatus(s: string): (r: string)
    ensures r != "" && Text.Trimmed(r)
    ensures forall i :: 0 <= i < |r| ==> !('A' <= r[i] <= 'Z')
  {
    var t := Text.NormaliseLower(s);
    if t == "" then
      ActiveIsNormal();
      Types.ApiStatusText(Types.ApiActive)
    else t
  }

  /** The text of `APIStatusActive` is a stored status as it stands. */
  lemma ActiveIsNormal()
    ensures var a := Types.ApiStatusText(Types.ApiActive);
            a != "" && Text.Trimmed(a) && forall i :: 0 <= i < |a| ==> !('A' <= a[i] <= 'Z')
  {
    var a := Types.ApiStatusText(Types.ApiActive);
    assert a == ['a', 'c', 't', 'i', 'v', 'e'];
  }

  /** A blank status becomes `APIStatusActive`; any other status is kept up
      to case and surrounding space, so it names a status constant exactly
      when its lower-cased, trimmed form does. */
  lemma NormaliseStatusMeaning(s: string)
    ensures Text.AllSpace(s) ==> Types.ParseApiStatus(NormaliseStatus(s)) == Some(Types.ApiActive)
    ensures !Text.AllSpace(s) ==> Types.ParseApiStatus(NormaliseStatus(s)) == Types.ParseApiStatus(Text.ToLower(Text.TrimSpace(s)))
  {
  }

  lemma NormaliseStatusIdempotent(s: string)
    ensures NormaliseStatus(NormaliseStatus(s)) == NormaliseStatus(s)
  {
    var r := NormaliseStatus(s);
    Text.TrimSpaceOfTrimmed(r);
    Text.ToLowerOfLower(r);
    assert Text.NormaliseLower(r) == r;
  }

  /** The value `AddAPI` validates. */
  function PrepareApi(a: ApiModel.Api, serverId: string): (r: ApiModel.Api)
    ensures r.id == serverId
    ensures NormalName(r.name, a.name)
    ensures r.createdAt == a.createdAt && r.updatedAt == a.updatedAt
  {
    a.(id := serverId, name := Text.TrimSpace(a.name), status := NormaliseStatus(a.status))
  }

  lemma PrepareApiIdempotent(a: ApiModel.Api, serverId: string)
    ensures PrepareApi(PrepareApi(a, serverId), serverId) == PrepareApi(a, serverId)
  {
    Text.TrimSpaceIdempotent(a.name);
    NormaliseStatusIdempotent(a.status);
  }

  /** `AddAPI`, with the rule set of models/api.go. */
  function AddApi(a: ApiModel.Api, serverId: string, insert: ApiModel.Api -> Result<ApiModel.Api>): (r: Result<ApiModel.Api>)
    ensures r.Ok? ==> ApiModel.Acceptable(PrepareApi(a, serverId))
    ensures r.Ok? ==> insert(PrepareApi(a, serverId)) == Ok(r.value)
    ensures r.Ok? <==> ApiModel.Acceptable(PrepareApi(a, serverId)) && insert(PrepareApi(a, serverId)).Ok?
    ensures ApiModel.Validate(PrepareApi(a, serverId)).Some? ==> r == Err(New(Validation.FirstError(ApiModel.Validate(PrepareApi(a, serverId))).0))
    ensures ApiModel.Acceptable(PrepareApi(a, serverId)) && insert(PrepareApi(a, serverId)).Err?
            ==> r.error == Sql.MapError(insert(PrepareApi(a, serverId)).error, None, Some(NameTaken))
    ensures !ApiModel.Acceptable(PrepareApi(a, serverId)) ==> r.Err? && r.error.New? && r.error.text != ""
  {
    var p := PrepareApi(a, serverId);
    ApiModel.ValidateAccepts(p);
    Sql.Create(ApiModel.Validate(p), p, insert, None, Some(NameTaken))
  }

  /** With a server id from `uuid.NewString`, an API is accepted exactly
      when its name is not blank and at most 200 characters once trimmed,
      and its status is blank or names a status constant up to case and
      surrounding space. */
  lemma AddApiAccepts(a: ApiModel.Api, random: seq<bv8>)
    requires |random| == 16
    ensures ApiModel.Acceptable(PrepareApi(a, Uuid.NewString(random)))
            <==> && !Text.AllSpace(a.name) && |Text.TrimSpace(a.name)| <= 200
                 && (Text.AllSpace(a.status) || Types.ParseApiStatus(Text.ToLower(Text.TrimSpace(a.status))).Some?)
  {
    Uuid.NewStringIsUuid4(random);
    Text.TrimmedBlankIsEmpty(Text.TrimSpace(a.name));
    NormaliseStatusMeaning(a.status);
    ApiModel.StatusValuesAreApiStatus(NormaliseStatus(a.status));
  }

  lemma AddApiNormalises(a: ApiModel.Api, id: string, serverId: string, insert: ApiModel.Api -> Result<ApiModel.Api>)
    ensures AddApi(a.(id := id), serverId, insert) == AddApi(a, serverId, insert)
    ensures AddApi(PrepareApi(a, serverId), serverId, insert) == AddApi(a, serverId, insert)
  {
    assert PrepareApi(a.(id := id), serverId) == PrepareApi(a, serverId);
    PrepareApiIdempotent(a, serverId);
  }
}
