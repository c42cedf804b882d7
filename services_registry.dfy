/** internal/services/services_registry.go: the uuid-keyed create
    operations of the registry's organisations (authorisation holders,
    marketing authorisations, manufacturing sites). Each one overwrites the
    caller's id with a fresh server id, trims the name, trims the
    registration number or trims and upper-cases the country, validates,
    inserts, and maps a unique violation to "... already exists". */
module ServicesRegistry {
  import opened Base
  import Text
  import Sql
  import Validation

  const HolderTaken: string := "auth holder already exists"
  const MarketingTaken: string := "marketing authorization already exists"
  const SiteTaken: string := "manufacturing site already exists"

  /** `models.AuthHolder`, which the models package does not declare: its
      rule set is the parameter `validate` of `AddAuthHolder`. */
  datatype AuthHolder = AuthHolder(id: string, name: string, registrationNumber: string)

  /** `models.MarketingAuthorization` and `models.ManufacturingSite` as
      this file uses them: a uuid id, a name and a country. The first is
      not declared in the models package and the declared
      `ManufacturingSite` has an integer id, so the rule sets are
      parameters here too. */
  datatype Organisation = Organisation(id: string, name: string, country: string)

  // ------------------------------------------------------------ Authorisation holder

  /** The value `AddAuthHolder` validates: the server id, the name and the
      registration number trimmed. */
  function PrepareAuthHolder(h: AuthHolder, serverId: string): (r: AuthHolder)
    ensures r.id == serverId
    ensures Text.Trimmed(r.name) && (r.name == "" <==> Text.AllSpace(h.name))
    ensures Text.Trimmed(r.registrationNumber) && (r.registrationNumber == "" <==> Text.AllSpace(h.registrationNumber))
  {
    AuthHolder(serverId, Text.TrimSpace(h.name), Text.TrimSpace(h.registrationNumber))
  }

  lemma PrepareAuthHolderIdempotent(h: AuthHolder, serverId: string)
    ensures PrepareAuthHolder(PrepareAuthHolder(h, serverId), serverId) == PrepareAuthHolder(h, serverId)
  {
    Text.TrimSpaceIdempotent(h.name);
    Text.TrimSpaceIdempotent(h.registrationNumber);
  }

  /** The statement's parameters: the prepared value and the registration
      number after `NULLIF($3, '')`. */
  function HolderArgs(p: AuthHolder): (AuthHolder, Option<string>) {
    (p, Sql.NullIf(p.registrationNumber, ""))
  }

  /** `AddAuthHolder`. */
  function AddAuthHolder(h: AuthHolder, serverId: string, validate: AuthHolder -> Option<Validation.ValidationError>,
                         insert: ((AuthHolder, Option<string>)) -> Result<AuthHolder>): (r: Result<AuthHolder>)
    ensures validate(PrepareAuthHolder(h, serverId)).Some?
            ==> r == Err(New(Validation.FirstError(validate(PrepareAuthHolder(h, serverId))).0)) && r.error.text != ""
    ensures r.Ok? <==> validate(PrepareAuthHolder(h, serverId)).None? && insert(HolderArgs(PrepareAuthHolder(h, serverId))).Ok?
    ensures r.Ok? ==> r.value == insert(HolderArgs(PrepareAuthHolder(h, serverId))).value
    ensures validate(PrepareAuthHolder(h, serverId)).None? && insert(HolderArgs(PrepareAuthHolder(h, serverId))).Err?
            ==> r.error == Sql.MapError(insert(HolderArgs(PrepareAuthHolder(h, serverId))).error, None, Some(HolderTaken))
  {
    var p := PrepareAuthHolder(h, serverId);
    Sql.Create(validate(p), HolderArgs(p), insert, None, Some(HolderTaken))
  }

  /** A registration number that is blank, white space included, reaches
      the insert as NULL; any other reaches it trimmed. */
  lemma AddAuthHolderStoresBlankAsNull(h: AuthHolder, serverId: string)
    ensures Text.AllSpace(h.registrationNumber) ==> HolderArgs(PrepareAuthHolder(h, serverId)).1 == None
    ensures !Text.AllSpace(h.registrationNumber)
            ==> HolderArgs(PrepareAuthHolder(h, serverId)).1 == Some(Text.TrimSpace(h.registrationNumber))
  {
  }

  /** Whatever id the caller sent is replaced before anything looks at it. */
  lemma AddAuthHolderIgnoresCallerId(h: AuthHolder, id: string, serverId: string,
                                     validate: AuthHolder -> Option<Validation.ValidationError>,
                                     insert: ((AuthHolder, Option<string>)) -> Result<AuthHolder>)
    ensures AddAuthHolder(h.(id := id), serverId, validate, insert) == AddAuthHolder(h, serverId, validate, insert)
  {
    assert PrepareAuthHolder(h.(id := id), serverId) == PrepareAuthHolder(h, serverId);
  }

  /** Surrounding space makes no difference: adding an input is adding its
      prepared form. */
  lemma AddAuthHolderNormalises(h: AuthHolder, serverId: string,
                                validate: AuthHolder -> Option<Validation.ValidationError>,
                                insert: ((AuthHolder, Option<string>)) -> Result<AuthHolder>)
    ensures AddAuthHolder(PrepareAuthHolder(h, serverId), serverId, validate, insert) == AddAuthHolder(h, serverId, validate, insert)
  {
    PrepareAuthHolderIdempotent(h, serverId);
  }

  // ------------------------------------------------------------ Marketing authorisation and site

  /** The value `AddMarketingAuthorization` and `AddManufacturingSite`
      validate: the server id, the name trimmed, the country trimmed and in
      upper case. */
  function PrepareOrganisation(o: Organisation, serverId: string): (r: Organisation)
    ensures r.id == serverId
    ensures Text.Trimmed(r.name) && (r.name == "" <==> Text.AllSpace(o.name))
    ensures Text.Trimmed(r.country) && (r.country == "" <==> Text.AllSpace(o.country))
    ensures forall i :: 0 <= i < |r.country| ==> !('a' <= r.country[i] <= 'z')
  {
    Organisation(serverId, Text.TrimSpace(o.name), Text.NormaliseCode(o.country))
  }

  lemma PrepareOrganisationIdempotent(o: Organisation, serverId: string)
    ensures PrepareOrganisation(PrepareOrganisation(o, serverId), serverId) == PrepareOrganisation(o, serverId)
  {
    Text.TrimSpaceIdempotent(o.name);
    Text.NormaliseCodeIdempotent(o.country);
  }

  /** `AddMarketingAuthorization` (with `taken` the message
      `MarketingTaken`) and `AddManufacturingSite` (with `SiteTaken`): the
      two differ only in table and message. */
  function AddOrganisation(o: Organisation, serverId: string, validate: Organisation -> Option<Validation.ValidationError>,
                           insert: Organisation -> Result<Organisation>, taken: string): (r: Result<Organisation>)
    ensures validate(PrepareOrganisation(o, serverId)).Some?
            ==> r == Err(New(Validation.FirstError(validate(PrepareOrganisation(o, serverId))).0)) && r.error.text != ""
    ensures r.Ok? <==> validate(PrepareOrganisation(o, serverId)).None? && insert(PrepareOrganisation(o, serverId)).Ok?
    ensures r.Ok? ==> r.value == insert(PrepareOrganisation(o, serverId)).value
    ensures validate(PrepareOrganisation(o, serverId)).None? && insert(PrepareOrganisation(o, serverId)).Err?
            ==> r.error == Sql.MapError(insert(PrepareOrganisation(o, serverId)).error, None, Some(taken))
  {
    var p := PrepareOrganisation(o, serverId);
    Sql.Create(validate(p), p, insert, None, Some(taken))
  }

  function AddMarketingAuthorization(o: Organisation, serverId: string, validate: Organisation -> Option<Validation.ValidationError>,
                                     insert: Organisation -> Result<Organisation>): (r: Result<Organisation>)
    ensures validate(PrepareOrganisation(o, serverId)).None? && insert(PrepareOrganisation(o, serverId)).Err?
            && HasSqlState(insert(PrepareOrganisation(o, serverId)).error, UniqueViolation)
            ==> r == Err(New(MarketingTaken))
  {
    AddOrganisation(o, serverId, validate, insert, MarketingTaken)
  }

  function AddManufacturingSite(o: Organisation, serverId: string, validate: Organisation -> Option<Validation.ValidationError>,
                                insert: Organisation -> Result<Organisation>): (r: Result<Organisation>)
    ensures validate(PrepareOrganisation(o, serverId)).None? && insert(PrepareOrganisation(o, serverId)).Err?
            && HasSqlState(insert(PrepareOrganisation(o, serverId)).error, UniqueViolation)
            ==> r == Err(New(SiteTaken))
  {
    AddOrganisation(o, serverId, validate, insert, SiteTaken)
  }

  /** Whatever id the caller sent is replaced before anything looks at it. */
  lemma AddOrganisationIgnoresCallerId(o: Organisation, id: string, serverId: string,
                                       validate: Organisation -> Option<Validation.ValidationError>,
                                       insert: Organisation -> Result<Organisation>, taken: string)
    ensures AddOrganisation(o.(id := id), serverId, validate, insert, taken) == AddOrganisation(o, serverId, validate, insert, taken)
  {
    assert PrepareOrganisation(o.(id := id), serverId) == PrepareOrganisation(o, serverId);
  }

  /** Space around the name and country and the case of the country make no
      difference: adding an input is adding its prepared form. */
  lemma AddOrganisationNormalises(o: Organisation, serverId: string,
                                  validate: Organisation -> Option<Validation.ValidationError>,
                                  insert: Organisation -> Result<Organisation>, taken: string)
    ensures AddOrganisation(PrepareOrganisation(o, serverId), serverId, validate, insert, taken)
            == AddOrganisation(o, serverId, validate, insert, taken)
  {
    PrepareOrganisationIdempotent(o, serverId);
  }
}
