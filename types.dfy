/** The string enumerations of models/types.go: each named constant and
    the text it stands for. */
module Types {
  import opened Base

  datatype ApiStatus = ApiActive | ApiInactive | ApiWithdrawn | ApiBanned

  function ApiStatusText(st: ApiStatus): string {
    match st
    case ApiActive => "active"
    case ApiInactive => "inactive"
    case ApiWithdrawn => "withdrawn"
    case ApiBanned => "banned"
  }

  /** The constant a string names, if any. */
  function ParseApiStatus(s: string): (r: Option<ApiStatus>)
    ensures r.Some? ==> ApiStatusText(r.value) == s
    ensures r.None? ==> forall st :: ApiStatusText(st) != s
  {
    if s == "active" then Some(ApiActive)
    else if s == "inactive" then Some(ApiInactive)
    else if s == "withdrawn" then Some(ApiWithdrawn)
    else if s == "banned" then Some(ApiBanned)
    else None
  }

  lemma ApiStatusRoundTrip(st: ApiStatus)
    ensures ParseApiStatus(ApiStatusText(st)) == Some(st)
  {
  }

  datatype RegistrationStatus =
    | RegistrationActive | RegistrationSuspended | RegistrationExpired | RegistrationWithdrawn

  function RegistrationStatusText(st: RegistrationStatus): string {
    match st
    case RegistrationActive => "active"
    case RegistrationSuspended => "suspended"
    case RegistrationExpired => "expired"
    case RegistrationWithdrawn => "withdrawn"
  }

  function ParseRegistrationStatus(s: string): (r: Option<RegistrationStatus>)
    ensures r.Some? ==> RegistrationStatusText(r.value) == s
    ensures r.None? ==> forall st :: RegistrationStatusText(st) != s
  {
    if s == "active" then Some(RegistrationActive)
    else if s == "suspended" then Some(RegistrationSuspended)
    else if s == "expired" then Some(RegistrationExpired)
    else if s == "withdrawn" then Some(RegistrationWithdrawn)
    else None
  }

  lemma RegistrationStatusRoundTrip(st: RegistrationStatus)
    ensures ParseRegistrationStatus(RegistrationStatusText(st)) == Some(st)
  {
  }

  datatype BatchStatus =
    | BatchPlanned | BatchReleased | BatchOnHold | BatchRecalled
    | BatchExpired | BatchSoldOut | BatchInactive

  function BatchStatusText(st: BatchStatus): string {
    match st
    case BatchPlanned => "planned"
    case BatchReleased => "released"
    case BatchOnHold => "on_hold"
    case BatchRecalled => "recalled"
    case BatchExpired => "expired"
    case BatchSoldOut => "sold_out"
    case BatchInactive => "inactive"
  }

  function ParseBatchStatus(s: string): (r: Option<BatchStatus>)
    ensures r.Some? ==> BatchStatusText(r.value) == s
    ensures r.None? ==> forall st :: BatchStatusText(st) != s
  {
    if s == "planned" then Some(BatchPlanned)
    else if s == "released" then Some(BatchReleased)
    else if s == "on_hold" then Some(BatchOnHold)
    else if s == "recalled" then Some(BatchRecalled)
    else if s == "expired" then Some(BatchExpired)
    else if s == "sold_out" then Some(BatchSoldOut)
    else if s == "inactive" then Some(BatchInactive)
    else None
  }

  lemma BatchStatusRoundTrip(st: BatchStatus)
    ensures ParseBatchStatus(BatchStatusText(st)) == Some(st)
  {
  }
}
