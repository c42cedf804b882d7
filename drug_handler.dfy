/** internal/adapters/http/handlers/drug_handler.go: the mapping of a
    created drug to the wire message sent to the remote executor service
    (`wrapInt64`, `wrapString`, `toProtoDrugOut`) and the response
    `AddDrugHandler` chooses from the local create and the remote call. */
module DrugHandler {
  import opened Base
  import DrugService

  /** `gapi.DrugOut`: the required fields as they are; every optional one
      a wrapper that is absent (nil) or holds a value. */
  datatype ProtoDrugOut = ProtoDrugOut(
    id: int,
    brandName: string,
    dose: string,
    apiId: int,
    apiName: string,
    dosageId: int,
    dosageName: string,
    routeId: int,
    routeName: string,
    strengthId: int,
    strengthName: string,
    authorityHolderId: Option<int>,
    authorityHolderName: Option<string>,
    authorityHolderCountry: Option<string>,
    manufacturingSiteId: Option<int>,
    manufacturingSiteName: Option<string>,
    manufacturingSiteCountry: Option<string>,
    marketingId: Option<int>,
    marketingName: Option<string>,
    marketingCountry: Option<string>)

  /** `wrapInt64`: nil exactly for nil; otherwise the same value, 0
      included. */
  function WrapInt64(p: Option<int>): (r: Option<int>)
    ensures r.None? <==> p.None?
    ensures r.Some? ==> r.value == p.value
  {
    match p
    case None => None
    case Some(v) => Some(v)
  }

  /** `wrapString`: nil for nil and for ""; otherwise the same string. */
  function WrapString(p: Option<string>): (r: Option<string>)
    ensures r.None? <==> p.None? || p.value == ""
    ensures r.Some? ==> r.value == p.value
  {
    if p.None? || p.value == "" then None else p
  }

  /** `toProtoDrugOut`. */
  function ToProtoDrugOut(x: DrugService.DrugOut): ProtoDrugOut {
    ProtoDrugOut(
      x.id, x.brandName, x.dose,
      x.apiId, x.apiName,
      x.dosageId, x.dosageName,
      x.routeId, x.routeName,
      x.strengthId, x.strengthName,
      WrapInt64(x.authorityHolderId), WrapString(x.authorityHolderName), WrapString(x.authorityHolderCountry),
      WrapInt64(x.manufacturingSiteId), WrapString(x.manufacturingSiteName), WrapString(x.manufacturingSiteCountry),
      WrapInt64(x.marketingId), WrapString(x.marketingName), WrapString(x.marketingCountry))
  }

  /** Reading a wire message back: an absent wrapper is an absent value. */
  function FromProto(m: ProtoDrugOut): DrugService.DrugOut {
    DrugService.DrugOut(
      m.id, m.brandName, m.dose,
      m.apiId, m.apiName,
      m.dosageId, m.dosageName,
      m.routeId, m.routeName,
      m.strengthId, m.strengthName,
      m.authorityHolderId, m.authorityHolderName, m.authorityHolderCountry,
      m.manufacturingSiteId, m.manufacturingSiteName, m.manufacturingSiteCountry,
      m.marketingId, m.marketingName, m.marketingCountry)
  }

  /** No optional text is present but empty. */
  predicate NoEmptyText(x: DrugService.DrugOut) {
    && x.authorityHolderName != Some("") && x.authorityHolderCountry != Some("")
    && x.manufacturingSiteName != Some("") && x.manufacturingSiteCountry != Some("")
    && x.marketingName != Some("") && x.marketingCountry != Some("")
  }

  /** The wire message loses exactly the empty optional texts: a drug with
      none of them is recovered whole, and otherwise each empty text comes
      back absent while everything else is recovered. */
  lemma ToProtoRoundTrip(x: DrugService.DrugOut)
    ensures NoEmptyText(x) <==> FromProto(ToProtoDrugOut(x)) == x
    ensures var y := FromProto(ToProtoDrugOut(x));
            && y.id == x.id && y.brandName == x.brandName && y.dose == x.dose
            && y.apiId == x.apiId && y.apiName == x.apiName && y.dosageId == x.dosageId && y.dosageName == x.dosageName
            && y.routeId == x.routeId && y.routeName == x.routeName && y.strengthId == x.strengthId && y.strengthName == x.strengthName
            && y.authorityHolderId == x.authorityHolderId && y.manufacturingSiteId == x.manufacturingSiteId
            && y.marketingId == x.marketingId
  {
  }

  /** Each optional field is wrapped on its own: changing one changes only
      its counterpart in the message. */
  lemma WrapsIndependently(x: DrugService.DrugOut, i: Option<int>, s: Option<string>)
    ensures ToProtoDrugOut(x.(authorityHolderId := i)) == ToProtoDrugOut(x).(authorityHolderId := WrapInt64(i))
    ensures ToProtoDrugOut(x.(authorityHolderName := s)) == ToProtoDrugOut(x).(authorityHolderName := WrapString(s))
    ensures ToProtoDrugOut(x.(authorityHolderCountry := s)) == ToProtoDrugOut(x).(authorityHolderCountry := WrapString(s))
    ensures ToProtoDrugOut(x.(manufacturingSiteId := i)) == ToProtoDrugOut(x).(manufacturingSiteId := WrapInt64(i))
    ensures ToProtoDrugOut(x.(manufacturingSiteName := s)) == ToProtoDrugOut(x).(manufacturingSiteName := WrapString(s))
    ensures ToProtoDrugOut(x.(manufacturingSiteCountry := s)) == ToProtoDrugOut(x).(manufacturingSiteCountry := WrapString(s))
    ensures ToProtoDrugOut(x.(marketingId := i)) == ToProtoDrugOut(x).(marketingId := WrapInt64(i))
    ensures ToProtoDrugOut(x.(marketingName := s)) == ToProtoDrugOut(x).(marketingName := WrapString(s))
    ensures ToProtoDrugOut(x.(marketingCountry := s)) == ToProtoDrugOut(x).(marketingCountry := WrapString(s))
  {
  }

  /** The remote `AddDrug` call: a confirmation and message, or an error. */
  datatype Remote = Confirmed(confirmation: bool, message: string) | Failed(text: string)

  /** The JSON body: `{"error", "message"}`, or the created drug with the
      `execs` confirmation and message. */
  datatype Body =
    | Problem(error: string, message: string)
    | Created(data: DrugService.DrugOut, confirmation: bool, message: string)

  datatype Response = Response(status: int, body: Body)

  const StatusCreated: int := 201
  const StatusBadRequest: int := 400

  /** The outcome of `AddDrugHandler`: the response, and the message sent
      to the remote service if it was called. `decoded` is the strict JSON
      decode of the request, `create` the local create, `notify` the
      remote call. */
  function AddDrugHandler(decoded: Result<DrugService.DrugIn>, create: DrugService.DrugIn -> Result<DrugService.DrugOut>,
                          notify: ProtoDrugOut -> Remote): (r: (Response, Option<ProtoDrugOut>))
    ensures decoded.Err? ==> r == (Response(StatusBadRequest, Problem("invalid_json", decoded.error.text)), None)
    ensures decoded.Ok? && create(decoded.value).Err?
            ==> r == (Response(StatusBadRequest, Problem("create_failed", create(decoded.value).error.text)), None)
    ensures decoded.Ok? && create(decoded.value).Ok?
            ==> && r.0.status == StatusCreated
                && r.1 == Some(ToProtoDrugOut(create(decoded.value).value))
                && r.0.body.Created? && r.0.body.data == create(decoded.value).value
                && (notify(r.1.value).Failed? ==> !r.0.body.confirmation && r.0.body.message == notify(r.1.value).text)
                && (notify(r.1.value).Confirmed?
                    ==> r.0.body.confirmation == notify(r.1.value).confirmation && r.0.body.message == notify(r.1.value).message)
  {
    match decoded
    case Err(e) => (Response(StatusBadRequest, Problem("invalid_json", e.text)), None)
    case Ok(input) =>
      match create(input)
      case Err(e) => (Response(StatusBadRequest, Problem("create_failed", e.text)), None)
      case Ok(out) =>
        var pb := ToProtoDrugOut(out);
        match notify(pb)
        case Failed(text) => (Response(StatusCreated, Created(out, false, text)), Some(pb))
        case Confirmed(c, m) => (Response(StatusCreated, Created(out, c, m)), Some(pb))
  }

  /** The response is 201 exactly when the local create succeeded, whatever
      the remote outcome, and the remote service is called exactly then. */
  lemma CreatedIffLocalSuccess(decoded: Result<DrugService.DrugIn>, create: DrugService.DrugIn -> Result<DrugService.DrugOut>,
                                notify: ProtoDrugOut -> Remote)
    ensures var r := AddDrugHandler(decoded, create, notify);
            && (r.0.status == StatusCreated <==> decoded.Ok? && create(decoded.value).Ok?)
            && (r.1.Some? <==> r.0.status == StatusCreated)
            && (r.0.status == StatusCreated || r.0.status == StatusBadRequest)
  {
  }

  /** The remote outcome never changes the stored drug reported back. */
  lemma RemoteDoesNotChangeData(decoded: Result<DrugService.DrugIn>, create: DrugService.DrugIn -> Result<DrugService.DrugOut>,
                                notify1: ProtoDrugOut -> Remote, notify2: ProtoDrugOut -> Remote)
    requires decoded.Ok? && create(decoded.value).Ok?
    ensures AddDrugHandler(decoded, create, notify1).0.body.data == AddDrugHandler(decoded, create, notify2).0.body.data
  {
  }
}
