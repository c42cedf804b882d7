/** internal/services/services_drug.go: the uuid-keyed create operations.
    Each one overwrites the caller's id with a fresh server id, validates
    with the entity's rule set, inserts, and maps a foreign-key violation to
    "invalid foreign key" and a unique violation to an entity-specific
    "... already exists". */
module ServicesDrug {
  import opened Base
  import Text
  import Sql
  import Uuid
  import Validation
  import DrugModel
  import BatchModel
  import DrugApiModel
  import DrugRegistrationModel
  import DrugRegistrationSiteModel
  import DrugRegistrationAuthHolderModel

  const ForeignKeyMessage: string := "invalid foreign key"

  // ------------------------------------------------------------ Drug

  /** The value `AddDrug` validates: the input with the server id with its brand name trimmed. */
  function PrepareDrug(d: DrugModel.Drug, serverId: string): (r: DrugModel.Drug)
    ensures r.id == serverId
  {
    d.(id := serverId, brandName := Text.TrimSpace(d.brandName))
  }

  /** `AddDrug`; `insert` takes the statement's parameters: the prepared
      value. */
  function AddDrug(d: DrugModel.Drug, serverId: string, insert: DrugModel.Drug -> Result<DrugModel.Drug>): (r: Result<DrugModel.Drug>)
    ensures r.Ok? ==> DrugModel.Acceptable(PrepareDrug(d, serverId))
    ensures r.Ok? ==> insert(PrepareDrug(d, serverId)) == Ok(r.value)
    ensures r.Ok? <==> DrugModel.Acceptable(PrepareDrug(d, serverId)) && insert(PrepareDrug(d, serverId)).Ok?
    ensures DrugModel.Validate(PrepareDrug(d, serverId)).Some? ==> r == Err(New(Validation.FirstError(DrugModel.Validate(PrepareDrug(d, serverId))).0))
    ensures DrugModel.Acceptable(PrepareDrug(d, serverId)) && insert(PrepareDrug(d, serverId)).Err?
            ==> r.error == Sql.MapError(insert(PrepareDrug(d, serverId)).error, Some(ForeignKeyMessage), Some("drug already exists"))
    ensures !DrugModel.Acceptable(PrepareDrug(d, serverId)) ==> r.Err? && r.error.New? && r.error.text != ""
  {
    var p := PrepareDrug(d, serverId);
    DrugModel.ValidateAccepts(p);
    Sql.Create(DrugModel.Validate(p), p, insert, Some(ForeignKeyMessage), Some("drug already exists"))
  }

  /** Whatever id the caller sent is replaced before anything looks at it. */
  lemma AddDrugIgnoresCallerId(d: DrugModel.Drug, id: string, serverId: string, insert: DrugModel.Drug -> Result<DrugModel.Drug>)
    ensures AddDrug(d.(id := id), serverId, insert) == AddDrug(d, serverId, insert)
  {
    assert PrepareDrug(d.(id := id), serverId) == PrepareDrug(d, serverId);
  }

  /** A server id made by `uuid.NewString` is accepted exactly as an empty
      id would be: it never causes a rejection. */
  lemma AddDrugServerIdAccepted(d: DrugModel.Drug, random: seq<bv8>)
    requires |random| == 16
    ensures DrugModel.Acceptable(PrepareDrug(d, Uuid.NewString(random))) <==> DrugModel.Acceptable(PrepareDrug(d, ""))
  {
    Uuid.NewStringIsUuid4(random);
  }

  // ------------------------------------------------------------ Batch

  /** The value `AddBatch` validates: the input with the server id. */
  function PrepareBatch(b: BatchModel.Batch, serverId: string): (r: BatchModel.Batch)
    ensures r.id == serverId
  {
    b.(id := serverId)
  }

  /** `AddBatch`; `insert` takes the statement's parameters: the prepared
      value and the value bound to `drugRegistrationId` after `NULLIF(..., '')`. */
  function AddBatch(b: BatchModel.Batch, serverId: string, insert: ((BatchModel.Batch, Option<string>)) -> Result<BatchModel.Batch>): (r: Result<BatchModel.Batch>)
    ensures r.Ok? ==> BatchModel.Acceptable(PrepareBatch(b, serverId))
    ensures r.Ok? ==> insert((PrepareBatch(b, serverId), Sql.NullIf(b.drugRegistrationId, ""))) == Ok(r.value)
    ensures r.Ok? <==> BatchModel.Acceptable(PrepareBatch(b, serverId)) && insert((PrepareBatch(b, serverId), Sql.NullIf(b.drugRegistrationId, ""))).Ok?
    ensures BatchModel.Validate(PrepareBatch(b, serverId)).Some? ==> r == Err(New(Validation.FirstError(BatchModel.Validate(PrepareBatch(b, serverId))).0))
    ensures BatchModel.Acceptable(PrepareBatch(b, serverId)) && insert((PrepareBatch(b, serverId), Sql.NullIf(b.drugRegistrationId, ""))).Err?
            ==> r.error == Sql.MapError(insert((PrepareBatch(b, serverId), Sql.NullIf(b.drugRegistrationId, ""))).error, Some(ForeignKeyMessage), Some("batch already exists"))
    ensures !BatchModel.Acceptable(PrepareBatch(b, serverId)) ==> r.Err? && r.error.New? && r.error.text != ""
  {
    var p := PrepareBatch(b, serverId);
    BatchModel.ValidateAccepts(p);
    Sql.Create(BatchModel.Validate(p), (p, Sql.NullIf(p.drugRegistrationId, "")), insert, Some(ForeignKeyMessage), Some("batch already exists"))
  }

  /** Whatever id the caller sent is replaced before anything looks at it. */
  lemma AddBatchIgnoresCallerId(b: BatchModel.Batch, id: string, serverId: string, insert: ((BatchModel.Batch, Option<string>)) -> Result<BatchModel.Batch>)
    ensures AddBatch(b.(id := id), serverId, insert) == AddBatch(b, serverId, insert)
  {
    assert PrepareBatch(b.(id := id), serverId) == PrepareBatch(b, serverId);
  }

  /** A server id made by `uuid.NewString` is accepted exactly as an empty
      id would be: it never causes a rejection. */
  lemma AddBatchServerIdAccepted(b: BatchModel.Batch, random: seq<bv8>)
    requires |random| == 16
    ensures BatchModel.Acceptable(PrepareBatch(b, Uuid.NewString(random))) <==> BatchModel.Acceptable(PrepareBatch(b, ""))
  {
    Uuid.NewStringIsUuid4(random);
  }

  /** An empty `drugRegistrationId` is stored as NULL. */
  lemma AddBatchStoresEmptyAsNull(b: BatchModel.Batch, serverId: string, insert: ((BatchModel.Batch, Option<string>)) -> Result<BatchModel.Batch>)
    ensures var p := PrepareBatch(b, serverId);
            BatchModel.Acceptable(p) ==> AddBatch(b, serverId, insert) == Sql.Create(None, (p, if b.drugRegistrationId == "" then None else Some(b.drugRegistrationId)), insert, Some(ForeignKeyMessage), Some("batch already exists"))
  {
    BatchModel.ValidateAccepts(PrepareBatch(b, serverId));
  }

  // ------------------------------------------------------------ DrugApi

  /** The value `AddDrugApi` validates: the input with the server id. */
  function PrepareDrugApi(l: DrugApiModel.DrugApi, serverId: string): (r: DrugApiModel.DrugApi)
    ensures r.id == serverId
  {
    l.(id := serverId)
  }

  /** `AddDrugApi`; `insert` takes the statement's parameters: the prepared
      value. */
  function AddDrugApi(l: DrugApiModel.DrugApi, serverId: string, insert: DrugApiModel.DrugApi -> Result<DrugApiModel.DrugApi>): (r: Result<DrugApiModel.DrugApi>)
    ensures r.Ok? ==> DrugApiModel.Acceptable(PrepareDrugApi(l, serverId))
    ensures r.Ok? ==> insert(PrepareDrugApi(l, serverId)) == Ok(r.value)
    ensures r.Ok? <==> DrugApiModel.Acceptable(PrepareDrugApi(l, serverId)) && insert(PrepareDrugApi(l, serverId)).Ok?
    ensures DrugApiModel.Validate(PrepareDrugApi(l, serverId)).Some? ==> r == Err(New(Validation.FirstError(DrugApiModel.Validate(PrepareDrugApi(l, serverId))).0))
    ensures DrugApiModel.Acceptable(PrepareDrugApi(l, serverId)) && insert(PrepareDrugApi(l, serverId)).Err?
            ==> r.error == Sql.MapError(insert(PrepareDrugApi(l, serverId)).error, Some(ForeignKeyMessage), Some("link already exists"))
    ensures !DrugApiModel.Acceptable(PrepareDrugApi(l, serverId)) ==> r.Err? && r.error.New? && r.error.text != ""
  {
    var p := PrepareDrugApi(l, serverId);
    DrugApiModel.ValidateAccepts(p);
    Sql.Create(DrugApiModel.Validate(p), p, insert, Some(ForeignKeyMessage), Some("link already exists"))
  }

  /** Whatever id the caller sent is replaced before anything looks at it. */
  lemma AddDrugApiIgnoresCallerId(l: DrugApiModel.DrugApi, id: string, serverId: string, insert: DrugApiModel.DrugApi -> Result<DrugApiModel.DrugApi>)
    ensures AddDrugApi(l.(id := id), serverId, insert) == AddDrugApi(l, serverId, insert)
  {
    assert PrepareDrugApi(l.(id := id), serverId) == PrepareDrugApi(l, serverId);
  }

  /** A server id made by `uuid.NewString` is accepted exactly as an empty
      id would be: it never causes a rejection. */
  lemma AddDrugApiServerIdAccepted(l: DrugApiModel.DrugApi, random: seq<bv8>)
    requires |random| == 16
    ensures DrugApiModel.Acceptable(PrepareDrugApi(l, Uuid.NewString(random))) <==> DrugApiModel.Acceptable(PrepareDrugApi(l, ""))
  {
    Uuid.NewStringIsUuid4(random);
  }

  // ------------------------------------------------------------ DrugRegistration

  /** The value `AddDrugRegistration` validates: the input with the server id. */
  function PrepareDrugRegistration(g: DrugRegistrationModel.DrugRegistration, serverId: string): (r: DrugRegistrationModel.DrugRegistration)
    ensures r.id == serverId
  {
    g.(id := serverId)
  }

  /** `AddDrugRegistration`; `insert` takes the statement's parameters: the prepared
      value and the value bound to `registrationNumber` after `NULLIF(..., '')`. */
  function AddDrugRegistration(g: DrugRegistrationModel.DrugRegistration, serverId: string, insert: ((DrugRegistrationModel.DrugRegistration, Option<string>)) -> Result<DrugRegistrationModel.DrugRegistration>): (r: Result<DrugRegistrationModel.DrugRegistration>)
    ensures r.Ok? ==> DrugRegistrationModel.Acceptable(PrepareDrugRegistration(g, serverId))
    ensures r.Ok? ==> insert((PrepareDrugRegistration(g, serverId), Sql.NullIf(g.registrationNumber, ""))) == Ok(r.value)
    ensures r.Ok? <==> DrugRegistrationModel.Acceptable(PrepareDrugRegistration(g, serverId)) && insert((PrepareDrugRegistration(g, serverId), Sql.NullIf(g.registrationNumber, ""))).Ok?
    ensures DrugRegistrationModel.Validate(PrepareDrugRegistration(g, serverId)).Some? ==> r == Err(New(Validation.FirstError(DrugRegistrationModel.Validate(PrepareDrugRegistration(g, serverId))).0))
    ensures DrugRegistrationModel.Acceptable(PrepareDrugRegistration(g, serverId)) && insert((PrepareDrugRegistration(g, serverId), Sql.NullIf(g.registrationNumber, ""))).Err?
            ==> r.error == Sql.MapError(insert((PrepareDrugRegistration(g, serverId), Sql.NullIf(g.registrationNumber, ""))).error, Some(ForeignKeyMessage), Some("registration already exists"))
    ensures !DrugRegistrationModel.Acceptable(PrepareDrugRegistration(g, serverId)) ==> r.Err? && r.error.New? && r.error.text != ""
  {
    var p := PrepareDrugRegistration(g, serverId);
    DrugRegistrationModel.ValidateAccepts(p);
    Sql.Create(DrugRegistrationModel.Validate(p), (p, Sql.NullIf(p.registrationNumber, "")), insert, Some(ForeignKeyMessage), Some("registration already exists"))
  }

  /** Whatever id the caller sent is replaced before anything looks at it. */
  lemma AddDrugRegistrationIgnoresCallerId(g: DrugRegistrationModel.DrugRegistration, id: string, serverId: string, insert: ((DrugRegistrationModel.DrugRegistration, Option<string>)) -> Result<DrugRegistrationModel.DrugRegistration>)
    ensures AddDrugRegistration(g.(id := id), serverId, insert) == AddDrugRegistration(g, serverId, insert)
  {
    assert PrepareDrugRegistration(g.(id := id), serverId) == PrepareDrugRegistration(g, serverId);
  }

  /** A server id made by `uuid.NewString` is accepted exactly as an empty
      id would be: it never causes a rejection. */
  lemma AddDrugRegistrationServerIdAccepted(g: DrugRegistrationModel.DrugRegistration, random: seq<bv8>)
    requires |random| == 16
    ensures DrugRegistrationModel.Acceptable(PrepareDrugRegistration(g, Uuid.NewString(random))) <==> DrugRegistrationModel.Acceptable(PrepareDrugRegistration(g, ""))
  {
    Uuid.NewStringIsUuid4(random);
  }

  /** An empty `registrationNumber` is stored as NULL. */
  lemma AddDrugRegistrationStoresEmptyAsNull(g: DrugRegistrationModel.DrugRegistration, serverId: string, insert: ((DrugRegistrationModel.DrugRegistration, Option<string>)) -> Result<DrugRegistrationModel.DrugRegistration>)
    ensures var p := PrepareDrugRegistration(g, serverId);
            DrugRegistrationModel.Acceptable(p) ==> AddDrugRegistration(g, serverId, insert) == Sql.Create(None, (p, if g.registrationNumber == "" then None else Some(g.registrationNumber)), insert, Some(ForeignKeyMessage), Some("registration already exists"))
  {
    DrugRegistrationModel.ValidateAccepts(PrepareDrugRegistration(g, serverId));
  }

  // ------------------------------------------------------------ DrugRegistrationSite

  /** The value `AddDrugRegistrationSite` validates: the input with the server id. */
  function PrepareDrugRegistrationSite(l: DrugRegistrationSiteModel.DrugRegistrationSite, serverId: string): (r: DrugRegistrationSiteModel.DrugRegistrationSite)
    ensures r.id == serverId
  {
    l.(id := serverId)
  }

  /** `AddDrugRegistrationSite`; `insert` takes the statement's parameters: the prepared
      value and the value bound to `role` after `NULLIF(..., '')`. */
  function AddDrugRegistrationSite(l: DrugRegistrationSiteModel.DrugRegistrationSite, serverId: string, insert: ((DrugRegistrationSiteModel.DrugRegistrationSite, Option<string>)) -> Result<DrugRegistrationSiteModel.DrugRegistrationSite>): (r: Result<DrugRegistrationSiteModel.DrugRegistrationSite>)
    ensures r.Ok? ==> DrugRegistrationSiteModel.Acceptable(PrepareDrugRegistrationSite(l, serverId))
    ensures r.Ok? ==> insert((PrepareDrugRegistrationSite(l, serverId), Sql.NullIf(l.role, ""))) == Ok(r.value)
    ensures r.Ok? <==> DrugRegistrationSiteModel.Acceptable(PrepareDrugRegistrationSite(l, serverId)) && insert((PrepareDrugRegistrationSite(l, serverId), Sql.NullIf(l.role, ""))).Ok?
    ensures DrugRegistrationSiteModel.Validate(PrepareDrugRegistrationSite(l, serverId)).Some? ==> r == Err(New(Validation.FirstError(DrugRegistrationSiteModel.Validate(PrepareDrugRegistrationSite(l, serverId))).0))
    ensures DrugRegistrationSiteModel.Acceptable(PrepareDrugRegistrationSite(l, serverId)) && insert((PrepareDrugRegistrationSite(l, serverId), Sql.NullIf(l.role, ""))).Err?
            ==> r.error == Sql.MapError(insert((PrepareDrugRegistrationSite(l, serverId), Sql.NullIf(l.role, ""))).error, Some(ForeignKeyMessage), Some("link already exists"))
    ensures !DrugRegistrationSiteModel.Acceptable(PrepareDrugRegistrationSite(l, serverId)) ==> r.Err? && r.error.New? && r.error.text != ""
  {
    var p := PrepareDrugRegistrationSite(l, serverId);
    DrugRegistrationSiteModel.ValidateAccepts(p);
    Sql.Create(DrugRegistrationSiteModel.Validate(p), (p, Sql.NullIf(p.role, "")), insert, Some(ForeignKeyMessage), Some("link already exists"))
  }

  /** Whatever id the caller sent is replaced before anything looks at it. */
  lemma AddDrugRegistrationSiteIgnoresCallerId(l: DrugRegistrationSiteModel.DrugRegistrationSite, id: string, serverId: string, insert: ((DrugRegistrationSiteModel.DrugRegistrationSite, Option<string>)) -> Result<DrugRegistrationSiteModel.DrugRegistrationSite>)
    ensures AddDrugRegistrationSite(l.(id := id), serverId, insert) == AddDrugRegistrationSite(l, serverId, insert)
  {
    assert PrepareDrugRegistrationSite(l.(id := id), serverId) == PrepareDrugRegistrationSite(l, serverId);
  }

  /** A server id made by `uuid.NewString` is accepted exactly as an empty
      id would be: it never causes a rejection. */
  lemma AddDrugRegistrationSiteServerIdAccepted(l: DrugRegistrationSiteModel.DrugRegistrationSite, random: seq<bv8>)
    requires |random| == 16
    ensures DrugRegistrationSiteModel.Acceptable(PrepareDrugRegistrationSite(l, Uuid.NewString(random))) <==> DrugRegistrationSiteModel.Acceptable(PrepareDrugRegistrationSite(l, ""))
  {
    Uuid.NewStringIsUuid4(random);
  }

  /** An empty `role` is stored as NULL. */
  lemma AddDrugRegistrationSiteStoresEmptyAsNull(l: DrugRegistrationSiteModel.DrugRegistrationSite, serverId: string, insert: ((DrugRegistrationSiteModel.DrugRegistrationSite, Option<string>)) -> Result<DrugRegistrationSiteModel.DrugRegistrationSite>)
    ensures var p := PrepareDrugRegistrationSite(l, serverId);
            DrugRegistrationSiteModel.Acceptable(p) ==> AddDrugRegistrationSite(l, serverId, insert) == Sql.Create(None, (p, if l.role == "" then None else Some(l.role)), insert, Some(ForeignKeyMessage), Some("link already exists"))
  {
    DrugRegistrationSiteModel.ValidateAccepts(PrepareDrugRegistrationSite(l, serverId));
  }

  // ------------------------------------------------------------ DrugRegistrationAuthHolder

  /** The value `AddDrugRegistrationAuthHolder` validates: the input with the server id. */
  function PrepareDrugRegistrationAuthHolder(l: DrugRegistrationAuthHolderModel.DrugRegistrationAuthHolder, serverId: string): (r: DrugRegistrationAuthHolderModel.DrugRegistrationAuthHolder)
    ensures r.id == serverId
  {
    l.(id := serverId)
  }

  /** `AddDrugRegistrationAuthHolder`; `insert` takes the statement's parameters: the prepared
      value and the value bound to `role` after `NULLIF(..., '')`. */
  function AddDrugRegistrationAuthHolder(l: DrugRegistrationAuthHolderModel.DrugRegistrationAuthHolder, serverId: string, insert: ((DrugRegistrationAuthHolderModel.DrugRegistrationAuthHolder, Option<string>)) -> Result<DrugRegistrationAuthHolderModel.DrugRegistrationAuthHolder>): (r: Result<DrugRegistrationAuthHolderModel.DrugRegistrationAuthHolder>)
    ensures r.Ok? ==> DrugRegistrationAuthHolderModel.Acceptable(PrepareDrugRegistrationAuthHolder(l, serverId))
    ensures r.Ok? ==> insert((PrepareDrugRegistrationAuthHolder(l, serverId), Sql.NullIf(l.role, ""))) == Ok(r.value)
    ensures r.Ok? <==> DrugRegistrationAuthHolderModel.Acceptable(PrepareDrugRegistrationAuthHolder(l, serverId)) && insert((PrepareDrugRegistrationAuthHolder(l, serverId), Sql.NullIf(l.role, ""))).Ok?
    ensures DrugRegistrationAuthHolderModel.Validate(PrepareDrugRegistrationAuthHolder(l, serverId)).Some? ==> r == Err(New(Validation.FirstError(DrugRegistrationAuthHolderModel.Validate(PrepareDrugRegistrationAuthHolder(l, serverId))).0))
    ensures DrugRegistrationAuthHolderModel.Acceptable(PrepareDrugRegistrationAuthHolder(l, serverId)) && insert((PrepareDrugRegistrationAuthHolder(l, serverId), Sql.NullIf(l.role, ""))).Err?
            ==> r.error == Sql.MapError(insert((PrepareDrugRegistrationAuthHolder(l, serverId), Sql.NullIf(l.role, ""))).error, Some(ForeignKeyMessage), Some("link already exists"))
    ensures !DrugRegistrationAuthHolderModel.Acceptable(PrepareDrugRegistrationAuthHolder(l, serverId)) ==> r.Err? && r.error.New? && r.error.text != ""
  {
    var p := PrepareDrugRegistrationAuthHolder(l, serverId);
    DrugRegistrationAuthHolderModel.ValidateAccepts(p);
    Sql.Create(DrugRegistrationAuthHolderModel.Validate(p), (p, Sql.NullIf(p.role, "")), insert, Some(ForeignKeyMessage), Some("link already exists"))
  }

  /** Whatever id the caller sent is replaced before anything looks at it. */
  lemma AddDrugRegistrationAuthHolderIgnoresCallerId(l: DrugRegistrationAuthHolderModel.DrugRegistrationAuthHolder, id: string, serverId: string, insert: ((DrugRegistrationAuthHolderModel.DrugRegistrationAuthHolder, Option<string>)) -> Result<DrugRegistrationAuthHolderModel.DrugRegistrationAuthHolder>)
    ensures AddDrugRegistrationAuthHolder(l.(id := id), serverId, insert) == AddDrugRegistrationAuthHolder(l, serverId, insert)
  {
    assert PrepareDrugRegistrationAuthHolder(l.(id := id), serverId) == PrepareDrugRegistrationAuthHolder(l, serverId);
  }

  /** A server id made by `uuid.NewString` is accepted exactly as an empty
      id would be: it never causes a rejection. */
  lemma AddDrugRegistrationAuthHolderServerIdAccepted(l: DrugRegistrationAuthHolderModel.DrugRegistrationAuthHolder, random: seq<bv8>)
    requires |random| == 16
    ensures DrugRegistrationAuthHolderModel.Acceptable(PrepareDrugRegistrationAuthHolder(l, Uuid.NewString(random))) <==> DrugRegistrationAuthHolderModel.Acceptable(PrepareDrugRegistrationAuthHolder(l, ""))
  {
    Uuid.NewStringIsUuid4(random);
  }

  /** An empty `role` is stored as NULL. */
  lemma AddDrugRegistrationAuthHolderStoresEmptyAsNull(l: DrugRegistrationAuthHolderModel.DrugRegistrationAuthHolder, serverId: string, insert: ((DrugRegistrationAuthHolderModel.DrugRegistrationAuthHolder, Option<string>)) -> Result<DrugRegistrationAuthHolderModel.DrugRegistrationAuthHolder>)
    ensures var p := PrepareDrugRegistrationAuthHolder(l, serverId);
            DrugRegistrationAuthHolderModel.Acceptable(p) ==> AddDrugRegistrationAuthHolder(l, serverId, insert) == Sql.Create(None, (p, if l.role == "" then None else Some(l.role)), insert, Some(ForeignKeyMessage), Some("link already exists"))
  {
    DrugRegistrationAuthHolderModel.ValidateAccepts(PrepareDrugRegistrationAuthHolder(l, serverId));
  }
}
