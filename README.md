# MOH pharmaceutical registry: a Dafny model of its core

The registry is a Go service backed by PostgreSQL. It keeps the catalogue a
medicine is described with: active ingredients (APIs), international
non-proprietary names (INNs), dosage forms, routes of administration and
strength units. It also keeps the drugs built from that catalogue, their
batches and registrations, and the organisations around them: authority
holders, marketing authorisations and manufacturing sites.

Every create operation follows the same pattern:
- it normalises the input (trims it, upper- or lower-cases codes, assigns a
  server-side uuid);
- it validates the input with the struct tags of the `models` package;
- it inserts the row;
- it turns the PostgreSQL error codes 23503 (foreign-key violation) and 23505
  (unique violation) into fixed messages.

Updates are "collapse patches". Each column is written as
`COALESCE(NULLIF($n, zero), column)`, so a zero value in the patch keeps what is
stored. Listings are SQL queries with a fixed `ORDER BY`. The HTTP layer turns
URL parameters into ids. For drugs it also forwards the created row to a
remote gRPC service.

The model has one module per source file:
- the `models` rule sets, as validator field lists;
- the service files, as functions over an `insert` / `check` / `query`
  parameter that stands for the database;
- the two handler pieces in the core: the id parser and the drug handler's
  mapping to the wire message.

Shared infrastructure lives in modules of its own:
- `Base`: Option, Result, Go errors with SQLSTATE, time values;
- `Text`: `strings.TrimSpace`, ASCII case mapping, byte-wise string order;
- `Sql`: `NULLIF`, the collapse patch, error mapping, the generic create and
  row update;
- `Sorting`: a reference sort used to state what `ORDER BY` returns;
- `Uuid`: the canonical text form of a version-4 uuid and what
  `uuid.NewString` produces;
- `Validation`: the validator/v10 semantics the tags rely on, and
  `FirstError`.

## Model

| member | source | states |
|---|---|---|
| Validation.FirstError | models/validation.go:9-18 | returns ("", true) exactly for no error; for a non-empty `ValidationErrors` list it returns the first field's name + " is invalid" and false; any other error (an empty list, an invalid-validation error) gives exactly ("invalid input", false) |
| Validation.Struct | models/validation.go:6 | validation returns no error exactly when every field passes; a failure is a non-empty list of field errors |
| Validation.Errors | models/validation.go:6 | one error at most per field, and no errors exactly when all fields pass |
| Validation.CheckField | models/validation.go:6 | a field reports no failing rule exactly when it passes (an omitempty zero value skips all rules, otherwise every rule holds) |
| Validation.FirstFailing | models/validation.go:6 | no failing rule exactly when every rule of the list holds |
| Validation.FirstFailureReported | models/validation.go:9-18 | when fields 0..k-1 pass and field k fails, field k is the first error and FirstError reports "<field k> is invalid" |
| Validation.SameOutcome | models/validation.go:6 | two field lists with the same names and the same per-field verdicts produce the same errors |
| Validation.ReportedFieldFails | models/validation.go:9-18 | the field FirstError names is one that really fails |
| Validation.NotBlankIsNonEmptyTrim | models/batch.go:13 | `notblank`, as the tags intend it, holds exactly when the trimmed string is non-empty |
| Validation.NoLowerIsUpperFixpoint | models/route_of_admin.go:4 | `uppercase` holds exactly when upper-casing the string changes nothing |
| Validation.DigitPrefix | models/drug_pack.go:8 | the leading digit run of a string is all digits and is maximal (helper of `numeric`) |
| Validation.FirstUnregistered | models/validation.go:6 | finds a field using a tag the validator does not know, or shows that no field uses one |
| Validation.StructAsWritten | models/validation.go:6 | the validator as written panics on an unknown tag, and otherwise returns what `Struct` returns |
| Validation.NotBlankPanics | models/validation.go:6 | any field list containing `notblank` makes the validator as written panic |
| Validation.OptionalUuid4 | models/batch.go:10 | `omitempty,uuid4` holds exactly for "" or a canonical v4 uuid |
| Validation.RequiredUuid4 | models/batch.go:11 | `required,uuid4` holds exactly for a canonical v4 uuid |
| Validation.RequiredLength | models/inn.go:7 | `required,min=lo,max=hi` holds exactly when lo <= length <= hi |
| Validation.CountryCode | models/manufacturer_site.go:10 | `required,alpha,len=2,uppercase` holds exactly for two upper-case ASCII letters |
| Uuid.Hex | internal/services/services_catalog.go:18 | hex encoding doubles the length and uses only lower-case hex digits; byte k's high nibble is digit 2k and its low nibble digit 2k+1 |
| Uuid.NewStringIsUuid4 | internal/services/services_catalog.go:18 | every id `uuid.NewString` produces from 16 random bytes passes the `uuid4` rule |
| Text.TrimSpace | internal/services/services_catalog.go:19-20 | the result is trimmed, no longer than the input, and empty exactly when the input is all white space |
| Text.TrimSpaceIdempotent | internal/services/services_catalog.go:19-20 | trimming twice is trimming once |
| Text.NormaliseCode | internal/services/services_catalog.go:19 | trim then upper-case: the result is trimmed, has no lower-case letter, and is empty exactly for blank input |
| Text.NormaliseCodeIdempotent | internal/services/services_catalog.go:19 | normalising a code twice is normalising it once |
| Text.NormaliseLowerIdempotent | internal/services/services_catalog.go:101-105 | trimming and lower-casing twice is doing it once |
| Text.StrNotAfterTotal | internal/services/manfactury_service.go:40 | the byte-wise order of `ORDER BY name` compares any two strings |
| Text.StrNotAfterTransitive | internal/services/manfactury_service.go:40 | the byte-wise order is transitive |
| Sorting.Sort | internal/services/batch_service.go:72 | the reference sort returns a permutation of its input, sorted by any total preorder |
| Sql.NullIf | internal/services/services_drug.go:58 | `NULLIF(v, zero)` is NULL exactly for the zero value and otherwise v |
| Sql.Collapse | internal/services/batch_service.go:89-95 | `COALESCE(NULLIF(p, zero), col)`: a zero patch keeps the column, any other value replaces it |
| Sql.MapError | internal/services/batch_service.go:55-59 | SQLSTATE 23503 gives the foreign-key message and 23505 the unique message, where the operation defines one; every other error passes through unchanged |
| Sql.UpdateRow | internal/services/batch_service.go:82-119 | a missing id gives `no rows` and keeps the table; a rejected row keeps the table; an accepted row is returned |
| Sql.UpdateRowTouchesOnlyThatRow | internal/services/batch_service.go:89-95 | an update keeps the table's keys, changes no other row and changes nothing when it fails |
| Sql.Create | internal/services/services_catalog.go:17-41 | an invalid value gives FirstError's message and is never inserted; success means valid and inserted, and returns the stored row; an insert error goes through MapError |
| Sql.RejectedIsNotInserted | internal/services/services_catalog.go:22-25 | for a rejected value the outcome does not depend on the database at all |
| Types.ParseApiStatus | models/types.go:4-10 | a text parses exactly when it is the text of an `APIStatus` constant |
| Types.ApiStatusRoundTrip | models/types.go:4-10 | every `APIStatus` parses back from its text |
| Types.ParseRegistrationStatus | models/types.go:12-18 | a text parses exactly when it is the text of a `RegistrationStatus` constant |
| Types.RegistrationStatusRoundTrip | models/types.go:12-18 | every `RegistrationStatus` parses back from its text |
| Types.ParseBatchStatus | models/types.go:20-29 | a text parses exactly when it is the text of a `BatchStatus` constant |
| Types.BatchStatusRoundTrip | models/types.go:20-29 | every `BatchStatus` parses back from its text |
| ApiModel.FieldsPass | models/api.go:7-9 | each tagged field of `API` passes exactly under its own rule |
| ApiModel.ValidateAccepts | models/api.go:7-14 | an API is valid exactly when the id is empty or a v4 uuid, the name is not blank and has at most 200 characters, and the status is one of the listed values |
| ApiModel.StatusValuesAreApiStatus | models/api.go:9 | the `oneof` list of Status is exactly the set of `APIStatus` constants |
| ApiModel.TimestampsUnconstrained | models/api.go:10-11 | the timestamps never affect validation |
| ApiModel.ValidateAsWrittenPanics | models/api.go:8 | the shipped Validate panics on every API, because of `notblank` |
| AuditLogModel.FieldsPassHead | models/audit_log.go:9-12 | the first tagged fields of `AuditLog` pass exactly under their rules |
| AuditLogModel.FieldsPassTail | models/audit_log.go:13-16 | the remaining tagged fields pass exactly under their rules |
| AuditLogModel.AllFieldsPass | models/audit_log.go:9-16 | all fields pass exactly when the entry is acceptable |
| AuditLogModel.ValidateAccepts | models/audit_log.go:9-19 | an audit entry is valid exactly when id > 0, the actor has 1-120 characters, the action has 1-80, the entity is a listed value, the entity id is a v4 uuid, After is present and the creation time is set |
| AuditLogModel.BeforeUnconstrained | models/audit_log.go:9-19 | the Before document never affects validation |
| AuthorityHolderModel.FieldsPass | models/auth_holder.go:6-8 | each tagged field passes exactly under its own rule |
| AuthorityHolderModel.ValidateAccepts | models/auth_holder.go:6-10 | an authority holder is valid exactly when the name has 1-150 characters and the country has 1-100 |
| AuthorityHolderModel.IdUnconstrained | models/auth_holder.go:6-10 | the integer id never affects validation |
| AuthorityHolderModel.NameReportedBeforeCountry | models/auth_holder.go:6-10 | a bad name is the error reported, whatever the country holds |
| BatchModel.FieldsPassHead | models/batch.go:10-14 | the first five tagged fields of `Batch` pass exactly under their rules |
| BatchModel.FieldsPassTail | models/batch.go:15-19 | the last five tagged fields pass exactly under their rules |
| BatchModel.AllFieldsPass | models/batch.go:10-19 | all fields pass exactly when the batch is acceptable |
| BatchModel.ValidateAccepts | models/batch.go:10-24 | a batch is valid exactly when: the ids are v4 uuids (id and registration id optional); the batch number is not blank and has at most 120 characters; both dates are set; quantity and price are >= 0; the status is listed; the recall reason is absent or valid JSON |
| BatchModel.StatusValuesAreBatchStatus | models/batch.go:17 | the `oneof` list of Status is exactly the set of `BatchStatus` constants of types.go |
| BatchModel.DatesNotOrdered | models/batch.go:14-15 | no rule relates the two dates: any two set dates are accepted, an expiry before manufacture included |
| BatchModel.DrugIdReportedFirst | models/batch.go:11-12 | once the id is acceptable, a bad DrugID is the error reported, whatever follows |
| BatchModel.StatusReportedBeforePrice | models/batch.go:16-18 | with all earlier fields acceptable, a bad Status is reported before the price is checked |
| BatchModel.ValidateAsWrittenPanics | models/batch.go:13 | the shipped Validate panics on every batch, because of `notblank` |
| DosageModel.FieldsPass | models/dosage_form.go:6-8 | each tagged field passes exactly under its own rule |
| DosageModel.ValidateAccepts | models/dosage_form.go:6-10 | a dosage is valid exactly when the code has 1-50 characters and the name has 1-100 |
| DosageModel.IdUnconstrained | models/dosage_form.go:6-10 | the integer id never affects validation |
| DosageModel.CodeReportedBeforeName | models/dosage_form.go:6-10 | a bad code is the error reported, whatever the name holds |
| DrugModel.FieldsPassHead | models/drug.go:7-10 | the first tagged fields of `Drug` pass exactly under their rules |
| DrugModel.FieldsPassTail | models/drug.go:11-13 | the remaining tagged fields pass exactly under their rules |
| DrugModel.AllFieldsPass | models/drug.go:7-13 | all fields pass exactly when the drug is acceptable |
| DrugModel.ValidateAccepts | models/drug.go:7-18 | a drug is valid exactly when: the id is empty or a v4 uuid; the brand name is not blank and has at most 200 characters; the four catalogue references are v4 uuids; the dose is > 0 |
| DrugModel.DoseReportedBeforeApiId | models/drug.go:12-13 | with earlier fields acceptable, a non-positive dose is reported before a bad API id |
| DrugModel.TimestampsUnconstrained | models/drug.go:14-15 | the timestamps never affect validation |
| DrugModel.ValidateAsWrittenPanics | models/drug.go:8 | the shipped Validate panics on every drug, because of `notblank` |
| DrugActiveModel.FieldsPass | models/drug_active.go:4-7 | each tagged field passes exactly under its own rule |
| DrugActiveModel.ValidateAccepts | models/drug_active.go:4-10 | valid exactly when both ids are v4 uuids, the strength is > 0, and the unit is 1-8 upper-case ASCII letters or digits |
| DrugApiModel.FieldsPass | models/drug_api.go:5-9 | each tagged field passes exactly under its own rule |
| DrugApiModel.ValidateAccepts | models/drug_api.go:5-12 | valid exactly when the link id is empty or a v4 uuid, the drug, API and unit ids are v4 uuids, and the strength is > 0 |
| DrugPackModel.FieldsPassHead | models/drug_pack.go:6-8 | the first tagged fields of `DrugPack` pass exactly under their rules |
| DrugPackModel.FieldsPassTail | models/drug_pack.go:9-12 | the remaining tagged fields pass exactly under their rules |
| DrugPackModel.AllFieldsPass | models/drug_pack.go:6-12 | all fields pass exactly when the pack is acceptable |
| DrugPackModel.ValidateAccepts | models/drug_pack.go:6-15 | valid exactly when both ids are v4 uuids, the GTIN is empty or numeric with 8-20 characters, the size is > 0, and the unit is 1-16 ASCII letters or digits |
| DrugRegistrationModel.FieldsPass | models/drug_registration.go:7-11 | each tagged field passes exactly under its own rule |
| DrugRegistrationModel.ValidateAccepts | models/drug_registration.go:7-19 | valid exactly when the id is empty or a v4 uuid, the drug and MA ids are v4 uuids, the number has at most 100 characters, and the status is listed |
| DrugRegistrationModel.StatusValuesAreRegistrationStatus | models/drug_registration.go:11 | the `oneof` list of Status is exactly the set of `RegistrationStatus` constants |
| DrugRegistrationModel.ValidityUnconstrained | models/drug_registration.go:12-14 | the validity dates and the primary flag never affect validation |
| DrugRegistrationAuthHolderModel.FieldsPass | models/drug_registration_auth_holder.go:5-8 | each tagged field passes exactly under its own rule |
| DrugRegistrationAuthHolderModel.ValidateAccepts | models/drug_registration_auth_holder.go:5-11 | valid exactly when the link id is empty or a v4 uuid, both references are v4 uuids, and the role has at most 80 characters |
| DrugRegistrationSiteModel.FieldsPass | models/drug_registration_site.go:5-8 | each tagged field passes exactly under its own rule |
| DrugRegistrationSiteModel.ValidateAccepts | models/drug_registration_site.go:5-11 | valid exactly when the link id is empty or a v4 uuid, both references are v4 uuids, and the role has at most 80 characters |
| InnModel.FieldsPass | models/inn.go:6-9 | each tagged field passes exactly under its own rule |
| InnModel.ValidateAccepts | models/inn.go:6-12 | an INN is valid exactly when the id is a v4 uuid and the name has 2-120 characters |
| InnModel.TimestampsUnconstrained | models/inn.go:6-12 | the timestamps never affect validation |
| InnSynonymModel.FieldsPass | models/inn_synonym.go:4-5 | each tagged field passes exactly under its own rule |
| InnSynonymModel.ValidateAccepts | models/inn_synonym.go:4-8 | valid exactly when the INN id is a v4 uuid and the synonym has 1-120 characters |
| InnSynonymModel.InnIdReportedBeforeSynonym | models/inn_synonym.go:4-8 | a bad INN id is the error reported, whatever the synonym holds |
| MaHolderModel.FieldsPass | models/ma_holder.go:6-10 | each tagged field passes exactly under its own rule |
| MaHolderModel.ValidateAccepts | models/ma_holder.go:6-13 | valid exactly when both ids are v4 uuids, the role is listed and ValidFrom is set |
| MaHolderModel.ValidToUnconstrained | models/ma_holder.go:6-13 | ValidTo never affects validation, so it may come before ValidFrom |
| MaSiteModel.FieldsPass | models/ma_site.go:6-10 | each tagged field passes exactly under its own rule |
| MaSiteModel.ValidateAccepts | models/ma_site.go:6-13 | valid exactly when both ids are v4 uuids, the role is listed and ValidFrom is set |
| MaSiteModel.ValidToUnconstrained | models/ma_site.go:6-13 | ValidTo never affects validation |
| ManufacturerSiteModel.FieldsPassHead | models/manufacturer_site.go:7-10 | the first tagged fields of `ManufacturerSite` pass exactly under their rules |
| ManufacturerSiteModel.FieldsPassTail | models/manufacturer_site.go:11-15 | the remaining tagged fields pass exactly under their rules |
| ManufacturerSiteModel.CountryCodeShape | models/manufacturer_site.go:10 | the country rule holds exactly for two upper-case ASCII letters |
| ManufacturerSiteModel.AllFieldsPass | models/manufacturer_site.go:7-15 | all fields pass exactly when the site is acceptable |
| ManufacturerSiteModel.ValidateAccepts | models/manufacturer_site.go:7-18 | valid exactly when: the id is empty or a v4 uuid; name and company have 2-200 characters; the country is a two-letter upper-case code; address has 2-200 and city 2-120 characters; the postal code is empty or at most 20 ASCII letters or digits |
| ManufacturingSiteModel.FieldsPass | models/manufacturing_site.go:6-8 | each tagged field passes exactly under its own rule |
| ManufacturingSiteModel.ValidateAccepts | models/manufacturing_site.go:6-10 | valid exactly when the name has 1-150 characters and the country has 1-100 |
| ManufacturingSiteModel.IdUnconstrained | models/manufacturing_site.go:6-10 | the integer id never affects validation |
| ManufacturingSiteModel.NameReportedBeforeCountry | models/manufacturing_site.go:6-10 | a bad name is the error reported, whatever the country holds |
| MarketingModel.FieldsPass | models/marketing_authorization.go:6-8 | each tagged field passes exactly under its own rule |
| MarketingModel.ValidateAccepts | models/marketing_authorization.go:6-10 | valid exactly when the name has 1-150 characters and the country has 1-100 |
| MarketingModel.IdUnconstrained | models/marketing_authorization.go:6-10 | the integer id never affects validation |
| MarketingModel.NameReportedBeforeCountry | models/marketing_authorization.go:6-10 | a bad name is the error reported, whatever the country holds |
| OutboxModel.FieldsPass | models/outbox.go:9-14 | each tagged field passes exactly under its own rule |
| OutboxModel.ValidateAccepts | models/outbox.go:9-17 | an outbox row is valid exactly when id > 0, the aggregate and operation are listed values, the aggregate id is a v4 uuid and the creation time is set |
| OutboxModel.PayloadUnconstrained | models/outbox.go:9-17 | the payload never affects validation |
| RouteOfAdminModel.FieldsPass | models/route_of_admin.go:4-5 | each tagged field passes exactly under its own rule |
| RouteOfAdminModel.ValidateAccepts | models/route_of_admin.go:4-8 | valid exactly when the code has 1-16 characters, all upper-case letters or digits, and the name has 2-80 characters |
| StrengthUnitModel.FieldsPass | models/strength_unit.go:7-11 | each tagged field passes exactly under its own rule |
| StrengthUnitModel.ValidateAccepts | models/strength_unit.go:7-14 | valid exactly when the id is empty or a v4 uuid, the code is not blank and has at most 32 characters, and the name is not blank and has at most 120 |
| StrengthUnitModel.CodeReportedBeforeName | models/strength_unit.go:7-14 | a bad code is the error reported, whatever the name holds |
| StrengthUnitModel.ValidateAsWrittenPanics | models/strength_unit.go:8-9 | the shipped Validate panics on every strength unit, because of `notblank` |
| ServicesCatalog.PrepareDosageForm | internal/services/services_catalog.go:18-20 | the validated form has the server id, a trimmed upper-case code and a trimmed name, each empty exactly for blank input |
| ServicesCatalog.PrepareDosageFormIdempotent | internal/services/services_catalog.go:18-20 | preparing twice is preparing once |
| ServicesCatalog.AddDosageForm | internal/services/services_catalog.go:17-41 | invalid gives FirstError's message with no insert; success iff valid and inserted; 23505 gives "code already exists"; other errors pass through |
| ServicesCatalog.AddDosageFormNormalises | internal/services/services_catalog.go:17-41 | the caller's id, surrounding space and the code's case do not change the outcome |
| ServicesCatalog.PrepareStrengthUnit | internal/services/services_catalog.go:45-47 | the server id, a normalised code and a trimmed name; the timestamps are kept |
| ServicesCatalog.PrepareStrengthUnitIdempotent | internal/services/services_catalog.go:45-47 | preparing twice is preparing once |
| ServicesCatalog.AddStrengthUnit | internal/services/services_catalog.go:44-68 | success iff the prepared unit is acceptable and its insert succeeds, returning the inserted row; an unacceptable unit gives FirstError's message and is never inserted; 23505 gives "code already exists" |
| ServicesCatalog.AddStrengthUnitAccepts | internal/services/services_catalog.go:44-68 | with a generated id, acceptance holds exactly when code and name are not blank and, once normalised, have at most 32 and 120 characters |
| ServicesCatalog.AddStrengthUnitNormalises | internal/services/services_catalog.go:44-68 | adding the prepared unit is adding the input |
| ServicesCatalog.PrepareRoute | internal/services/services_catalog.go:72-74 | the server id, a trimmed upper-case code and a trimmed name |
| ServicesCatalog.PrepareRouteIdempotent | internal/services/services_catalog.go:72-74 | preparing twice is preparing once |
| ServicesCatalog.AddRouteOfAdmin | internal/services/services_catalog.go:71-95 | invalid gives FirstError's message with no insert; success iff valid and inserted; 23505 gives "code already exists" |
| ServicesCatalog.AddRouteOfAdminNormalises | internal/services/services_catalog.go:71-95 | the caller's id, surrounding space and the code's case do not change the outcome |
| ServicesCatalog.NormaliseStatus | internal/services/services_catalog.go:101-105 | the status stored is never empty, is trimmed and has no upper-case letter |
| ServicesCatalog.NormaliseStatusMeaning | internal/services/services_catalog.go:101-105 | a blank status becomes "active"; any other status is its trimmed lower-case form |
| ServicesCatalog.NormaliseStatusIdempotent | internal/services/services_catalog.go:101-105 | normalising a status twice is normalising it once |
| ServicesCatalog.PrepareApi | internal/services/services_catalog.go:99-105 | the server id, a trimmed name and the normalised status |
| ServicesCatalog.PrepareApiIdempotent | internal/services/services_catalog.go:99-105 | preparing twice is preparing once |
| ServicesCatalog.AddApi | internal/services/services_catalog.go:98-126 | success iff the prepared API is acceptable and its insert succeeds, returning the inserted row; an unacceptable API gives FirstError's message and is never inserted; 23505 gives "name already exists" |
| ServicesCatalog.AddApiAccepts | internal/services/services_catalog.go:98-126 | with a generated id, acceptance holds exactly when the trimmed name is not blank and has at most 200 characters, and the status is blank or, trimmed and lower-cased, an `APIStatus` |
| ServicesCatalog.AddApiNormalises | internal/services/services_catalog.go:98-126 | adding the prepared API is adding the input |
| ServicesRegistry.PrepareAuthHolder | internal/services/services_registry.go:18-20 | the server id and trimmed name and registration number, each empty exactly for blank input |
| ServicesRegistry.PrepareAuthHolderIdempotent | internal/services/services_registry.go:18-20 | preparing twice is preparing once |
| ServicesRegistry.AddAuthHolder | internal/services/services_registry.go:17-41 | invalid gives FirstError's message with no insert; success iff valid and inserted; 23505 gives "auth holder already exists" |
| ServicesRegistry.AddAuthHolderStoresBlankAsNull | internal/services/services_registry.go:29 | a blank registration number reaches the insert as NULL, any other trimmed |
| ServicesRegistry.AddAuthHolderIgnoresCallerId | internal/services/services_registry.go:18 | the caller's id does not change the outcome |
| ServicesRegistry.AddAuthHolderNormalises | internal/services/services_registry.go:17-41 | adding the prepared holder is adding the input |
| ServicesRegistry.PrepareOrganisation | internal/services/services_registry.go:45-47 | the server id, a trimmed name and a trimmed upper-case country |
| ServicesRegistry.PrepareOrganisationIdempotent | internal/services/services_registry.go:45-47 | preparing twice is preparing once |
| ServicesRegistry.AddOrganisation | internal/services/services_registry.go:44-68 | invalid gives FirstError's message with no insert; success iff valid and inserted; a unique violation gives the operation's message |
| ServicesRegistry.AddMarketingAuthorization | internal/services/services_registry.go:62-64 | a unique violation gives "marketing authorization already exists" |
| ServicesRegistry.AddManufacturingSite | internal/services/services_registry.go:89-91 | a unique violation gives "manufacturing site already exists" |
| ServicesRegistry.AddOrganisationIgnoresCallerId | internal/services/services_registry.go:72 | the caller's id does not change the outcome |
| ServicesRegistry.AddOrganisationNormalises | internal/services/services_registry.go:71-95 | adding the prepared organisation is adding the input |
| ServicesDrug.PrepareDrug | internal/services/services_drug.go:17-45 | the validated drug carries the server id |
| ServicesDrug.AddDrug | internal/services/services_drug.go:17-45 | success iff the prepared value is acceptable and its insert succeeds, returning the inserted row; an unacceptable value gives FirstError's message and is never inserted; insert errors go through MapError (23503 gives "invalid foreign key", 23505 the entity's "already exists" message) |
| ServicesDrug.AddDrugIgnoresCallerId | internal/services/services_drug.go:17-45 | the caller's id does not change the outcome |
| ServicesDrug.AddDrugServerIdAccepted | internal/services/services_drug.go:17-45 | an id from `uuid.NewString` is accepted exactly as an empty id would be |
| ServicesDrug.PrepareBatch | internal/services/services_drug.go:48-77 | the validated batch carries the server id |
| ServicesDrug.AddBatch | internal/services/services_drug.go:48-77 | success iff the prepared value is acceptable and its insert succeeds, returning the inserted row; an unacceptable value gives FirstError's message and is never inserted; insert errors go through MapError (23503 gives "invalid foreign key", 23505 the entity's "already exists" message) |
| ServicesDrug.AddBatchIgnoresCallerId | internal/services/services_drug.go:48-77 | the caller's id does not change the outcome |
| ServicesDrug.AddBatchServerIdAccepted | internal/services/services_drug.go:48-77 | an id from `uuid.NewString` is accepted exactly as an empty id would be |
| ServicesDrug.AddBatchStoresEmptyAsNull | internal/services/services_drug.go:58 | an empty registration id reaches the insert as NULL |
| ServicesDrug.PrepareDrugApi | internal/services/services_drug.go:80-107 | the validated link carries the server id |
| ServicesDrug.AddDrugApi | internal/services/services_drug.go:80-107 | success iff the prepared value is acceptable and its insert succeeds, returning the inserted row; an unacceptable value gives FirstError's message and is never inserted; insert errors go through MapError (23503 gives "invalid foreign key", 23505 the entity's "already exists" message) |
| ServicesDrug.AddDrugApiIgnoresCallerId | internal/services/services_drug.go:80-107 | the caller's id does not change the outcome |
| ServicesDrug.AddDrugApiServerIdAccepted | internal/services/services_drug.go:80-107 | an id from `uuid.NewString` is accepted exactly as an empty id would be |
| ServicesDrug.PrepareDrugRegistration | internal/services/services_drug.go:110-139 | the validated registration carries the server id |
| ServicesDrug.AddDrugRegistration | internal/services/services_drug.go:110-139 | success iff the prepared value is acceptable and its insert succeeds, returning the inserted row; an unacceptable value gives FirstError's message and is never inserted; insert errors go through MapError (23503 gives "invalid foreign key", 23505 the entity's "already exists" message) |
| ServicesDrug.AddDrugRegistrationIgnoresCallerId | internal/services/services_drug.go:110-139 | the caller's id does not change the outcome |
| ServicesDrug.AddDrugRegistrationServerIdAccepted | internal/services/services_drug.go:110-139 | an id from `uuid.NewString` is accepted exactly as an empty id would be |
| ServicesDrug.AddDrugRegistrationStoresEmptyAsNull | internal/services/services_drug.go:120 | an empty registration number reaches the insert as NULL |
| ServicesDrug.PrepareDrugRegistrationSite | internal/services/services_drug.go:142-169 | the validated link carries the server id |
| ServicesDrug.AddDrugRegistrationSite | internal/services/services_drug.go:142-169 | success iff the prepared value is acceptable and its insert succeeds, returning the inserted row; an unacceptable value gives FirstError's message and is never inserted; insert errors go through MapError (23503 gives "invalid foreign key", 23505 the entity's "already exists" message) |
| ServicesDrug.AddDrugRegistrationSiteIgnoresCallerId | internal/services/services_drug.go:142-169 | the caller's id does not change the outcome |
| ServicesDrug.AddDrugRegistrationSiteServerIdAccepted | internal/services/services_drug.go:142-169 | an id from `uuid.NewString` is accepted exactly as an empty id would be |
| ServicesDrug.AddDrugRegistrationSiteStoresEmptyAsNull | internal/services/services_drug.go:152 | an empty role reaches the insert as NULL |
| ServicesDrug.PrepareDrugRegistrationAuthHolder | internal/services/services_drug.go:172-199 | the validated link carries the server id |
| ServicesDrug.AddDrugRegistrationAuthHolder | internal/services/services_drug.go:172-199 | success iff the prepared value is acceptable and its insert succeeds, returning the inserted row; an unacceptable value gives FirstError's message and is never inserted; insert errors go through MapError (23503 gives "invalid foreign key", 23505 the entity's "already exists" message) |
| ServicesDrug.AddDrugRegistrationAuthHolderIgnoresCallerId | internal/services/services_drug.go:172-199 | the caller's id does not change the outcome |
| ServicesDrug.AddDrugRegistrationAuthHolderServerIdAccepted | internal/services/services_drug.go:172-199 | an id from `uuid.NewString` is accepted exactly as an empty id would be |
| ServicesDrug.AddDrugRegistrationAuthHolderStoresEmptyAsNull | internal/services/services_drug.go:182 | an empty role reaches the insert as NULL |
| InnService.AddInn | internal/services/inn.go:14-36 | invalid gives the validator's message with no insert; success iff valid and inserted; on success the INN has the server id, the same name and the stored timestamps; storage errors pass through |
| InnService.AddInnServerIdAccepted | internal/services/inn.go:16-21 | with a generated id, acceptance holds exactly when the name has 2-120 characters |
| InnService.AddInnIgnoresCallerFields | internal/services/inn.go:14-36 | the caller's id and timestamps do not change the outcome |
| RouteService.Normalise | internal/services/route_of_admin.go:15-16 | the code is trimmed and upper-case, the name trimmed |
| RouteService.NormaliseIdempotent | internal/services/route_of_admin.go:15-16 | normalising twice is normalising once |
| RouteService.AddRoute | internal/services/route_of_admin.go:13-28 | invalid gives the validator's message with no write; a write error passes through; otherwise the normalised route is returned |
| RouteService.AddRouteAccepts | internal/services/route_of_admin.go:15-21 | after normalisation the `uppercase` rule cannot fail: acceptance depends on length and characters only |
| RouteService.AddRouteNormalises | internal/services/route_of_admin.go:13-28 | adding the normalised route is adding the input |
| StrengthService.Normalise | internal/services/strengh_unit.go:15-16 | this file normalises a unit exactly as services_catalog.go does, keeping the caller's id |
| StrengthService.AddStrength | internal/services/strengh_unit.go:14-27 | invalid gives FirstError's message with no write; a write error passes through; otherwise the normalised unit is returned |
| StrengthService.AddStrengthAccepts | internal/services/strengh_unit.go:14-27 | the caller's id is validated: acceptance holds exactly when it is empty or a v4 uuid and code and name pass |
| StrengthService.AddStrengthNormalises | internal/services/strengh_unit.go:14-27 | adding the normalised unit is adding the input |
| DosageService.AddDosage | internal/services/dosage_form.go:13-26 | invalid gives the validator's message with no write; a write error passes through; otherwise the normalised form is returned |
| DosageService.AddDosageNormalises | internal/services/dosage_form.go:13-26 | adding the normalised form is adding the input |
| DrugService.LeftJoin | internal/services/drug_service.go:99-106 | a `LEFT JOIN` finds a row exactly when the key is set and present, and then returns that row |
| DrugService.ProjectJoins | internal/services/drug_service.go:99-106 | a drug is listed exactly when its four catalogue references resolve; the organisation columns are NULL when unset or dangling |
| DrugService.Normalise | internal/services/drug_service.go:32-33 | brand name and dose are trimmed |
| DrugService.NormaliseIdempotent | internal/services/drug_service.go:32-33 | trimming twice is trimming once |
| DrugService.AddDrug | internal/services/drug_service.go:31-80 | invalid gives FirstError's message with no insert; success iff valid and inserted, returning the row read back through the joins; 23503 gives the foreign-key message |
| DrugService.RejectedIsNotInserted | internal/services/drug_service.go:35-38 | for a rejected drug the outcome does not depend on the database |
| DrugService.AddIgnoresSurroundingSpace | internal/services/drug_service.go:31-80 | adding an input is adding its trimmed form |
| DrugService.ApplyFieldByField | internal/services/drug_service.go:124-132 | each column: "" after trimming or 0 keeps the stored value, anything else replaces it; the id is never written |
| DrugService.EmptyPatchIsIdentity | internal/services/drug_service.go:124-132 | a patch that sets nothing leaves the row unchanged |
| DrugService.ApplyIdempotent | internal/services/drug_service.go:124-132 | applying a patch twice is applying it once |
| DrugService.OrgReferencesNeverCleared | internal/services/drug_service.go:124-132 | a set organisation reference can be changed but never cleared |
| DrugService.ApplyKeepsTrimmed | internal/services/drug_service.go:118-132 | a row with a trimmed brand name and dose keeps them trimmed after any patch |
| DrugService.UpdateDrug | internal/services/drug_service.go:117-169 | a missing id gives `no rows`; a rejected row keeps the table and 23503 gives the foreign-key message; otherwise only that row changes, to the patched row |
| DrugService.BrandThenIdIsTotal | internal/services/drug_service.go:107 | `ORDER BY brand_name, id` is a total preorder |
| DrugService.Joined | internal/services/drug_service.go:99-106 | the join never adds rows |
| DrugService.JoinedRows | internal/services/drug_service.go:99-106 | a drug is listed exactly when some stored row projects to it |
| DrugService.ListDrugs | internal/services/drug_service.go:83-114 | the query's error, or exactly the joined rows sorted by brand name then id |
| DrugService.GroupMembers | internal/services/drug_service.go:203-206 | a drug's group holds exactly the fetched batches with that drug id |
| DrugService.GroupSorted | internal/services/drug_service.go:195-206 | grouping keeps the fetch order |
| DrugService.AsSlice | internal/services/drug_service.go:209-215 | a drug without batches gets a nil slice, otherwise its group |
| DrugService.IdsOf | internal/services/drug_service.go:182-185 | the id list has one entry per listed drug, in order |
| DrugService.GroupByDrug | internal/services/drug_service.go:203-206 | the loop's map has a key exactly for the drugs with fetched batches, each holding that drug's batches in fetch order |
| DrugService.ListDrugsWithBatches | internal/services/drug_service.go:171-217 | an error or empty list is returned without a batch query; otherwise the batches are fetched for the listed ids, and each drug, in order, carries exactly its own batches |
| BatchService.Normalise | internal/services/batch_service.go:31-32 | batch number and status are trimmed |
| BatchService.NormaliseIdempotent | internal/services/batch_service.go:31-32 | trimming twice is trimming once |
| BatchService.AddBatch | internal/services/batch_service.go:30-62 | invalid gives FirstError's message with no insert; success iff valid and inserted; 23503 gives "invalid foreign key (drug_id)" |
| BatchService.AddIgnoresSurroundingSpace | internal/services/batch_service.go:30-62 | adding an input is adding its trimmed form |
| BatchService.NewestFirstIsTotal | internal/services/batch_service.go:72 | `ORDER BY mfg_date DESC, id DESC` is a total preorder |
| BatchService.ListBatches | internal/services/batch_service.go:65-79 | the query's error, or exactly the rows sorted newest first |
| BatchService.CastDate | internal/services/batch_service.go:89-95 | "" gives no date; otherwise the cast's date or its error |
| BatchService.ApplyFieldByField | internal/services/batch_service.go:89-95 | each column: 0, "" after trimming, or no date keeps the stored value, anything else replaces it; the id is never written |
| BatchService.Dates | internal/services/batch_service.go:89-95 | both dates cast, or the first cast error |
| BatchService.EmptyPatchIsIdentity | internal/services/batch_service.go:89-95 | a patch that sets nothing casts nothing and leaves the row unchanged |
| BatchService.ApplyIdempotent | internal/services/batch_service.go:89-95 | applying a patch twice is applying it once |
| BatchService.QuantityAndPriceNeverZeroed | internal/services/batch_service.go:89-95 | a patch cannot set quantity or price to 0 |
| BatchService.UpdateIsUnchecked | internal/services/batch_service.go:82-119 | no rule guards an update: any status and any dates are written as given |
| BatchService.UpdateBatch | internal/services/batch_service.go:82-119 | a cast error or missing id changes nothing; a rejected row keeps the table and 23503 gives the foreign-key message; otherwise only that row changes and the join decides the response |
| ManufactoryService.NormaliseAuthorityHolder | internal/services/manfactury_service.go:14-37 | name and country are trimmed; the id is kept |
| ManufactoryService.AddAuthorityHolder | internal/services/manfactury_service.go:14-37 | invalid gives FirstError's message with no insert; success iff acceptable and inserted; 23505 gives "name already exists" |
| ManufactoryService.AddAuthorityHolderRejectsBlankName | internal/services/manfactury_service.go:14-37 | a blank name is rejected as "Name is invalid" |
| ManufactoryService.ApplyAuthorityHolder | internal/services/manfactury_service.go:48-68 | a name or country that is "" after trimming keeps the stored one; otherwise the trimmed patch value is written |
| ManufactoryService.ApplyAuthorityHolderLaws | internal/services/manfactury_service.go:48-68 | an empty patch changes nothing, and applying twice is applying once |
| ManufactoryService.UpdateAuthorityHolderIsUnchecked | internal/services/manfactury_service.go:48-68 | an update writes a name that create would reject |
| ManufactoryService.UpdateAuthorityHolder | internal/services/manfactury_service.go:48-68 | a missing id gives `no rows`; a rejected row keeps the table; otherwise only that row changes, to the patched row |
| ManufactoryService.AuthorityHolderByNameIsTotal | internal/services/manfactury_service.go:40 | `ORDER BY name` is a total preorder |
| ManufactoryService.GetAllAuthorityHolders | internal/services/manfactury_service.go:39-46 | the query's error, or exactly the rows sorted by name |
| ManufactoryService.NormaliseManufacturingSite | internal/services/manfactury_service.go:72-95 | name and country are trimmed; the id is kept |
| ManufactoryService.AddManufacturingSite | internal/services/manfactury_service.go:72-95 | invalid gives FirstError's message with no insert; success iff acceptable and inserted; 23505 gives "name already exists" |
| ManufactoryService.AddManufacturingSiteRejectsBlankName | internal/services/manfactury_service.go:72-95 | a blank name is rejected as "Name is invalid" |
| ManufactoryService.ApplyManufacturingSite | internal/services/manfactury_service.go:106-126 | a name or country that is "" after trimming keeps the stored one; otherwise the trimmed patch value is written |
| ManufactoryService.ApplyManufacturingSiteLaws | internal/services/manfactury_service.go:106-126 | an empty patch changes nothing, and applying twice is applying once |
| ManufactoryService.UpdateManufacturingSiteIsUnchecked | internal/services/manfactury_service.go:106-126 | an update writes a name that create would reject |
| ManufactoryService.UpdateManufacturingSite | internal/services/manfactury_service.go:106-126 | a missing id gives `no rows`; a rejected row keeps the table; otherwise only that row changes, to the patched row |
| ManufactoryService.ManufacturingSiteByNameIsTotal | internal/services/manfactury_service.go:97-104 | `ORDER BY name` is a total preorder |
| ManufactoryService.GetAllManufacturingSites | internal/services/manfactury_service.go:97-104 | the query's error, or exactly the rows sorted by name |
| ManufactoryService.NormaliseMarketing | internal/services/manfactury_service.go:130-153 | name and country are trimmed; the id is kept |
| ManufactoryService.AddMarketing | internal/services/manfactury_service.go:130-153 | invalid gives FirstError's message with no insert; success iff acceptable and inserted; 23505 gives "name already exists" |
| ManufactoryService.AddMarketingRejectsBlankName | internal/services/manfactury_service.go:130-153 | a blank name is rejected as "Name is invalid" |
| ManufactoryService.ApplyMarketing | internal/services/manfactury_service.go:164-184 | a name or country that is "" after trimming keeps the stored one; otherwise the trimmed patch value is written |
| ManufactoryService.ApplyMarketingLaws | internal/services/manfactury_service.go:164-184 | an empty patch changes nothing, and applying twice is applying once |
| ManufactoryService.UpdateMarketingIsUnchecked | internal/services/manfactury_service.go:164-184 | an update writes a name that create would reject |
| ManufactoryService.UpdateMarketing | internal/services/manfactury_service.go:164-184 | a missing id gives `no rows`; a rejected row keeps the table; otherwise only that row changes, to the patched row |
| ManufactoryService.MarketingByNameIsTotal | internal/services/manfactury_service.go:155-162 | `ORDER BY name` is a total preorder |
| ManufactoryService.GetAllMarketing | internal/services/manfactury_service.go:155-162 | the query's error, or exactly the rows sorted by name |
| BatchHandler.ScanDigits | internal/adapters/http/handlers/batch_handler.go:28 | the digit loop of `strconv.ParseUint` in base 10 never yields a value above 2^64-1 |
| BatchHandler.ScanDigitsOfDigits | internal/adapters/http/handlers/batch_handler.go:28 | on digits the loop yields their decimal value, or a range error exactly when that value exceeds 2^64-1 |
| BatchHandler.ScanDigitsOfNonDigits | internal/adapters/http/handlers/batch_handler.go:28 | a non-digit anywhere makes the loop fail |
| BatchHandler.ParseInt | internal/adapters/http/handlers/batch_handler.go:28 | any id `strconv.ParseInt(s, 10, 64)` returns lies in the int64 range |
| BatchHandler.ParseIntMeaning | internal/adapters/http/handlers/batch_handler.go:28 | parsing succeeds exactly for an optional sign followed by digits whose value fits int64, and yields that value; out-of-range decimal text is a range error |
| BatchHandler.ParseIdParam | internal/adapters/http/handlers/batch_handler.go:23-29 | "missing id" exactly when the parameter is all white space; any id lies in the int64 range |
| BatchHandler.FormatUint | internal/adapters/http/handlers/batch_handler.go:28 | the decimal text of a number is non-empty digits denoting that number |
| BatchHandler.FormatIntRoundTrip | internal/adapters/http/handlers/batch_handler.go:23-29 | every int64, written in decimal and padded with white space, parses back to itself |
| BatchHandler.PaddedTrims | internal/adapters/http/handlers/batch_handler.go:24 | trimming removes white-space padding from decimal text |
| BatchHandler.PlusSignAccepted | internal/adapters/http/handlers/batch_handler.go:23-29 | a leading plus sign is accepted as no sign at all; zero and negative ids are not refused |
| DrugHandler.WrapInt64 | internal/adapters/http/handlers/drug_handler.go:61-66 | absent exactly for a nil pointer, otherwise the same value, 0 included |
| DrugHandler.WrapString | internal/adapters/http/handlers/drug_handler.go:68-73 | absent for nil and for "", otherwise the same string |
| DrugHandler.ToProtoRoundTrip | internal/adapters/http/handlers/drug_handler.go:77-107 | reading the message back recovers the drug exactly when no optional text is empty; required fields and optional ids are always recovered |
| DrugHandler.WrapsIndependently | internal/adapters/http/handlers/drug_handler.go:95-105 | each optional field is wrapped on its own: changing one changes only its counterpart |
| DrugHandler.AddDrugHandler | internal/adapters/http/handlers/drug_handler.go:17-56 | a decode error gives 400 "invalid_json"; a create error gives 400 "create_failed" and no remote call; otherwise 201 with the created drug, the drug sent remotely, and the remote confirmation and message (false and the error text when the call fails) |
| DrugHandler.CreatedIffLocalSuccess | internal/adapters/http/handlers/drug_handler.go:17-56 | the response is 201 exactly when the local create succeeded, the remote service is called exactly then, and no status other than 201 or 400 is produced |
| DrugHandler.RemoteDoesNotChangeData | internal/adapters/http/handlers/drug_handler.go:34-54 | the remote outcome never changes the drug data in the response |

## Left out

- The SQL engine is a parameter. Inserts, constraint checks, casts and queries are the functions `insert`, `check`, `cast` and `query`. Collation, NULL ordering, transactions and the exact text of PostgreSQL errors are not modelled. `ORDER BY` text order is byte-wise order (the C collation).
- BatchService.UpdateBatch: the date casts happen before the row is looked up. PostgreSQL may evaluate them in another order, so which of "no rows" and a cast error wins for a missing id with a bad date is not modelled.
- BatchService.UpdateBatch and DrugService.UpdateDrug: the statement updates the row and then reads it back through the joins. When the read-back fails the model reports `no rows` with the row already rewritten, the way the single statement leaves it.
- Text: case mapping is ASCII only: `strings.ToUpper` and `strings.ToLower` on non-ASCII letters are not modelled. White space for `strings.TrimSpace` is the full `unicode.IsSpace` set.
- Validation: the validator's `alphanumunicode` is modelled as ASCII letters and digits, the same as `alphanum`.
- DrugPackModel.ValidateAccepts, ManufacturerSiteModel.ValidateAccepts: weaker than the source for non-ASCII text. `alphanumunicode` on PackUnit and PostalCode is modelled as ASCII, so a non-ASCII letter or digit such as "µg" or "Ü1" is rejected where Go accepts it. Unicode letter and digit tables are not modelled.
- ServicesDrug.AddDrug, ServicesDrug.AddBatch, ServicesCatalog.AddApi, ServicesCatalog.AddStrengthUnit, StrengthService.AddStrength: modelled with `notblank` registered, that is, with the intended rule that a string is non-empty after `strings.TrimSpace`. As shipped each of them panics in `Validate`; see Findings.
- Floating-point fields (dose, price, strength) are `real`. NaN, infinities and rounding are not modelled.
- `uuid.NewString` is modelled as a function of 16 random bytes. The randomness is a parameter.
- JSON decoding is a parameter in DrugHandler.AddDrugHandler, and the JSON encoding of the response body is left out. HTTP routing, the middlewares, the gRPC transport and its timeout, logging, and cmd/http/main.go are left out.
- BatchHandler.ParseInt returns only which `strconv.NumError` happened, not its message text.
- The handlers other than `parseIDParam` and the drug handler's `AddDrugHandler`, `wrapInt64`, `wrapString` and `toProtoDrugOut` are HTTP glue over the services and are not modelled.
- models/enums.go declares `BatchStatus`, `BatchReleased`, `BatchRecalled` and `BatchExpired` a second time (see models/types.go:20-29). The package cannot compile as shipped. The model uses the types.go declarations, and enums.go is left out.
- Several types the services use are not declared in the models package, or do not match its declaration. Those services take their rule set as a `validate` parameter:
  - DosageForm with a uuid id;
  - RouteOfAdmin with an id;
  - AuthHolder;
  - MarketingAuthorization;
  - ManufacturingSite with a uuid id, while models/manufacturing_site.go declares an int64 id;
  - `DrugOut`.
- StrengthService.AddStrength: internal/services/strengh_unit.go reads `msg, ok := in.Validate()`, but `StrengthUnit.Validate` returns an `error`. The model reads this as `FirstError(Validate())`.
- drug_service.go and batch_service.go declare `AddDrug` and `AddBatch` again beside services_drug.go, with different types. Each file is modelled in its own module.
- The audit log and the outbox are modelled as validation rule sets only. No core operation writes them.

## Findings

| source | as written | input that shows it | evidently intended | confidence | as-written member | corrected member |
|---|---|---|---|---|---|---|
| models/validation.go:6 with models/api.go:8, models/batch.go:13, models/drug.go:8, models/strength_unit.go:8-9 | the tag `notblank` is used but never registered with the validator, so `Validate` panics | any API, batch, drug or strength unit, e.g. a strength unit with code "MG" and name "milligram" | a `notblank` field must be non-empty after `strings.TrimSpace` | not executed | ApiModel.ValidateAsWrittenPanics, BatchModel.ValidateAsWrittenPanics, DrugModel.ValidateAsWrittenPanics, StrengthUnitModel.ValidateAsWrittenPanics, Validation.NotBlankPanics | ApiModel.ValidateAccepts, BatchModel.ValidateAccepts, DrugModel.ValidateAccepts, StrengthUnitModel.ValidateAccepts |
