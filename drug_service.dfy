/** internal/services/drug_service.go: adding and updating a drug, the
    joined read shape `DrugOut`, the drug list order, and the grouping of
    batches under their drugs. */
module DrugService {
  import opened Base
  import Text
  import Sql
  import Sorting
  import Validation
  import BatchService

  /** `models.Drug` as this file passes it to the insert; the three
      organisation references are nullable (`*int64`). */
  datatype DrugIn = DrugIn(
    brandName: string,
    dose: string,
    apiId: int,
    dosageId: int,
    routeId: int,
    strengthId: int,
    authorityHolderId: Option<int>,
    manufacturingSiteId: Option<int>,
    marketingId: Option<int>)

  /** A row of table `drug`. */
  datatype DrugRow = DrugRow(
    id: int,
    brandName: string,
    dose: string,
    apiId: int,
    dosageId: int,
    routeId: int,
    strengthId: int,
    authorityHolderId: Option<int>,
    manufacturingSiteId: Option<int>,
    marketingId: Option<int>)

  /** `DrugPatch`: "" and 0 mean "keep the stored value". */
  datatype DrugPatch = DrugPatch(
    brandName: string,
    dose: string,
    apiId: int,
    dosageId: int,
    routeId: int,
    strengthId: int,
    authorityHolderId: int,
    manufacturingSiteId: int,
    marketingId: int)

  /** A row of authority_holder, manufacturing_site or marketing. */
  datatype Org = Org(name: string, country: string)

  /** The referenced tables, by id: the names of api, dosage, route and
      strength rows and the organisation rows. */
  datatype Catalog = Catalog(
    apis: map<int, string>,
    dosages: map<int, string>,
    routes: map<int, string>,
    strengths: map<int, string>,
    holders: map<int, Org>,
    sites: map<int, Org>,
    marketing: map<int, Org>)

  /** The columns the drug queries select. The organisation columns are
      nullable; the countries are selected by `ListDrugs` only. */
  datatype DrugOut = DrugOut(
    id: int,
    brandName: string,
    dose: string,
    apiId: int,
    apiName: string,
    dosageId: int,
    dosageName: string,
    routeId: int,
    routeName: string,
    strengthId: int,
    strengthName: string,
    authorityHolderId: Option<int>,
    authorityHolderName: Option<string>,
    authorityHolderCountry: Option<string>,
    manufacturingSiteId: Option<int>,
    manufacturingSiteName: Option<string>,
    manufacturingSiteCountry: Option<string>,
    marketingId: Option<int>,
    marketingName: Option<string>,
    marketingCountry: Option<string>)

  const ForeignKeyMessage: string := "invalid foreign key (api/dosage/route/strength or org IDs)"

  // ---------------------------------------------------------------- joins

  /** A `LEFT JOIN` on a nullable key: the joined row when the key is set
      and matches, NULL otherwise. */
  function LeftJoin(key: Option<int>, orgs: map<int, Org>): (r: Option<Org>)
    ensures r.Some? <==> key.Some? && key.value in orgs
    ensures r.Some? ==> r.value == orgs[key.value]
  {
    if key.Some? && key.value in orgs then Some(orgs[key.value]) else None
  }

  function NameOf(o: Option<Org>): Option<string> {
    if o.Some? then Some(o.value.name) else None
  }

  function CountryOf(o: Option<Org>, selected: bool): Option<string> {
    if selected && o.Some? then Some(o.value.country) else None
  }

  /** The four `JOIN`s find their rows. */
  predicate Resolves(d: DrugRow, cat: Catalog) {
    d.apiId in cat.apis && d.dosageId in cat.dosages && d.routeId in cat.routes && d.strengthId in cat.strengths
  }

  /** One drug row through the joins of the drug queries; `withCountry` is
      whether the query selects the organisations' countries. */
  function Project(d: DrugRow, cat: Catalog, withCountry: bool): Option<DrugOut> {
    if !Resolves(d, cat) then None
    else
      var ah := LeftJoin(d.authorityHolderId, cat.holders);
      var ms := LeftJoin(d.manufacturingSiteId, cat.sites);
      var mk := LeftJoin(d.marketingId, cat.marketing);
      Some(DrugOut(
        d.id, d.brandName, d.dose,
        d.apiId, cat.apis[d.apiId],
        d.dosageId, cat.dosages[d.dosageId],
        d.routeId, cat.routes[d.routeId],
        d.strengthId, cat.strengths[d.strengthId],
        d.authorityHolderId, NameOf(ah), CountryOf(ah, withCountry),
        d.manufacturingSiteId, NameOf(ms), CountryOf(ms, withCountry),
        d.marketingId, NameOf(mk), CountryOf(mk, withCountry)))
  }

  /** A drug appears only when its four required references resolve; it
      then carries its own columns and the referenced names, and an
      organisation with a NULL key contributes no name and no country. */
  lemma ProjectJoins(d: DrugRow, cat: Catalog, withCountry: bool)
    ensures Project(d, cat, withCountry).Some? <==> Resolves(d, cat)
    ensures var o := Project(d, cat, withCountry);
            o.Some? ==>
              && o.value.id == d.id && o.value.brandName == d.brandName && o.value.dose == d.dose
              && o.value.apiId == d.apiId && o.value.apiName == cat.apis[d.apiId]
              && o.value.dosageId == d.dosageId && o.value.dosageName == cat.dosages[d.dosageId]
              && o.value.routeId == d.routeId && o.value.routeName == cat.routes[d.routeId]
              && o.value.strengthId == d.strengthId && o.value.strengthName == cat.strengths[d.strengthId]
              && o.value.authorityHolderId == d.authorityHolderId
              && o.value.manufacturingSiteId == d.manufacturingSiteId
              && o.value.marketingId == d.marketingId
    ensures var o := Project(d, cat, withCountry);
            o.Some? ==>
              && (d.authorityHolderId.None? ==> o.value.authorityHolderName.None? && o.value.authorityHolderCountry.None?)
              && (d.manufacturingSiteId.None? ==> o.value.manufacturingSiteName.None? && o.value.manufacturingSiteCountry.None?)
              && (d.marketingId.None? ==> o.value.marketingName.None? && o.value.marketingCountry.None?)
    ensures var o := Project(d, cat, withCountry);
            o.Some? && !withCountry ==>
              o.value.authorityHolderCountry.None? && o.value.manufacturingSiteCountry.None? && o.value.marketingCountry.None?
  {
  }

  // ------------------------------------------------------------------ add

  /** The input after the trimming `AddDrug` does first. */
  function Normalise(d: DrugIn): (r: DrugIn)
    ensures Text.Trimmed(r.brandName) && Text.Trimmed(r.dose)
  {
    d.(brandName := Text.TrimSpace(d.brandName), dose := Text.TrimSpace(d.dose))
  }

  lemma NormaliseIdempotent(d: DrugIn)
    ensures Normalise(Normalise(d)) == Normalise(d)
  {
    Text.TrimSpaceIdempotent(d.brandName);
    Text.TrimSpaceIdempotent(d.dose);
  }

  /** `AddDrug`: trim, validate (`validate` is the input's `Validate`
      method), insert (`insert` returns the new row or the storage error),
      then read the row back through the joins. */
  function AddDrug(d: DrugIn, validate: DrugIn -> Option<Validation.ValidationError>,
                   insert: DrugIn -> Result<DrugRow>, cat: Catalog): (r: Result<DrugOut>)
    ensures validate(Normalise(d)).Some?
            ==> r == Err(New(Validation.FirstError(validate(Normalise(d))).0)) && r.error.text != ""
    ensures r.Ok? <==> validate(Normalise(d)).None? && insert(Normalise(d)).Ok?
                       && Resolves(insert(Normalise(d)).value, cat)
    ensures r.Ok? ==> Some(r.value) == Project(insert(Normalise(d)).value, cat, false)
    ensures validate(Normalise(d)).None? && insert(Normalise(d)).Err?
            ==> r.error == Sql.MapError(insert(Normalise(d)).error, Some(ForeignKeyMessage), None)
  {
    var n := Normalise(d);
    match validate(n)
    case Some(err) => Err(New(Validation.FirstError(Some(err)).0))
    case None =>
      match insert(n)
      case Err(e) => Err(Sql.MapError(e, Some(ForeignKeyMessage), None))
      case Ok(row) =>
        match Project(row, cat, false)
        case None => Err(NoRows)
        case Some(out) => Ok(out)
  }

  /** A rejected drug never reaches the insert. */
  lemma RejectedIsNotInserted(d: DrugIn, validate: DrugIn -> Option<Validation.ValidationError>,
                              insert1: DrugIn -> Result<DrugRow>, insert2: DrugIn -> Result<DrugRow>, cat: Catalog)
    requires validate(Normalise(d)).Some?
    ensures AddDrug(d, validate, insert1, cat) == AddDrug(d, validate, insert2, cat)
  {
  }

  /** White space around the brand name and dose makes no difference: adding an
      input is adding its trimmed form. */
  lemma AddIgnoresSurroundingSpace(d: DrugIn, validate: DrugIn -> Option<Validation.ValidationError>,
                                   insert: DrugIn -> Result<DrugRow>, cat: Catalog)
    ensures AddDrug(d, validate, insert, cat) == AddDrug(Normalise(d), validate, insert, cat)
  {
    NormaliseIdempotent(d);
  }

  // --------------------------------------------------------------- update

  /** The SET list of `UpdateDrug` on one row, after the trimming of
      brand_name and dose. */
  function Apply(row: DrugRow, p: DrugPatch): DrugRow {
    DrugRow(
      row.id,
      Sql.Collapse(Text.TrimSpace(p.brandName), "", row.brandName),
      Sql.Collapse(Text.TrimSpace(p.dose), "", row.dose),
      Sql.Collapse(p.apiId, 0, row.apiId),
      Sql.Collapse(p.dosageId, 0, row.dosageId),
      Sql.Collapse(p.routeId, 0, row.routeId),
      Sql.Collapse(p.strengthId, 0, row.strengthId),
      Sql.CollapseNullable(p.authorityHolderId, 0, row.authorityHolderId),
      Sql.CollapseNullable(p.manufacturingSiteId, 0, row.manufacturingSiteId),
      Sql.CollapseNullable(p.marketingId, 0, row.marketingId))
  }

  /** Field by field: "" after trimming or 0 keeps the stored value,
      anything else replaces it; the id is never written. */
  lemma ApplyFieldByField(row: DrugRow, p: DrugPatch)
    ensures var r := Apply(row, p);
            && r.id == row.id
            && r.brandName == (if Text.TrimSpace(p.brandName) == "" then row.brandName else Text.TrimSpace(p.brandName))
            && r.dose == (if Text.TrimSpace(p.dose) == "" then row.dose else Text.TrimSpace(p.dose))
            && r.apiId == (if p.apiId == 0 then row.apiId else p.apiId)
            && r.dosageId == (if p.dosageId == 0 then row.dosageId else p.dosageId)
            && r.routeId == (if p.routeId == 0 then row.routeId else p.routeId)
            && r.strengthId == (if p.strengthId == 0 then row.strengthId else p.strengthId)
    ensures var r := Apply(row, p);
            && r.authorityHolderId == (if p.authorityHolderId == 0 then row.authorityHolderId else Some(p.authorityHolderId))
            && r.manufacturingSiteId == (if p.manufacturingSiteId == 0 then row.manufacturingSiteId else Some(p.manufacturingSiteId))
            && r.marketingId == (if p.marketingId == 0 then row.marketingId else Some(p.marketingId))
  {
  }

  /** A patch that sets nothing. */
  predicate IsEmpty(p: DrugPatch) {
    Text.AllSpace(p.brandName) && Text.AllSpace(p.dose)
    && p.apiId == 0 && p.dosageId == 0 && p.routeId == 0 && p.strengthId == 0
    && p.authorityHolderId == 0 && p.manufacturingSiteId == 0 && p.marketingId == 0
  }

  lemma EmptyPatchIsIdentity(row: DrugRow, p: DrugPatch)
    requires IsEmpty(p)
    ensures Apply(row, p) == row
  {
  }

  /** Applying a patch a second time changes nothing more. */
  lemma ApplyIdempotent(row: DrugRow, p: DrugPatch)
    ensures Apply(Apply(row, p), p) == Apply(row, p)
  {
  }

  /** A set organisation reference can be changed but never cleared back to
      NULL. */
  lemma OrgReferencesNeverCleared(row: DrugRow, p: DrugPatch)
    ensures row.authorityHolderId.Some? ==> Apply(row, p).authorityHolderId.Some?
    ensures row.manufacturingSiteId.Some? ==> Apply(row, p).manufacturingSiteId.Some?
    ensures row.marketingId.Some? ==> Apply(row, p).marketingId.Some?
  {
  }

  /** A stored brand name and dose without surrounding white space keep
      none after an update. */
  lemma ApplyKeepsTrimmed(row: DrugRow, p: DrugPatch)
    requires Text.Trimmed(row.brandName) && Text.Trimmed(row.dose)
    ensures Text.Trimmed(Apply(row, p).brandName) && Text.Trimmed(Apply(row, p).dose)
  {
  }

  /** `UpdateDrug`: rewrite the row with the given id under the database's
      constraint verdict `check`, then read it back through the joins. A
      foreign-key violation gets its message; every other error, `no rows`
      for a missing id included, passes through. Returns the response and
      the table afterwards. */
  function UpdateDrug(table: map<int, DrugRow>, id: int, p: DrugPatch,
                      check: DrugRow -> Option<Error>, cat: Catalog): (r: (Result<DrugOut>, map<int, DrugRow>))
    ensures id !in table ==> r == (Err(NoRows), table)
    ensures id in table && check(Apply(table[id], p)).Some?
            ==> r == (Err(Sql.MapError(check(Apply(table[id], p)).value, Some(ForeignKeyMessage), None)), table)
    ensures id in table && check(Apply(table[id], p)).None?
            ==> r.1 == table[id := Apply(table[id], p)]
                && (r.0.Ok? <==> Resolves(Apply(table[id], p), cat))
                && (r.0.Ok? ==> Some(r.0.value) == Project(Apply(table[id], p), cat, false))
    ensures r.1.Keys == table.Keys
    ensures forall k :: k in table && k != id ==> r.1[k] == table[k]
  {
    var u := Sql.UpdateRow(table, id, row => Apply(row, p), check);
    Sql.UpdateRowTouchesOnlyThatRow(table, id, row => Apply(row, p), check);
    match u.0
    case Err(e) => (Err(Sql.MapError(e, Some(ForeignKeyMessage), None)), u.1)
    case Ok(row) =>
      match Project(row, cat, false)
      case None => (Err(NoRows), u.1)
      case Some(out) => (Ok(out), u.1)
  }

  // ----------------------------------------------------------------- list

  /** `ORDER BY d.brand_name ASC, d.id ASC`. */
  predicate BrandThenId(a: DrugOut, b: DrugOut) {
    Text.StrLt(a.brandName, b.brandName) || (a.brandName == b.brandName && a.id <= b.id)
  }

  lemma BrandThenIdIsTotal()
    ensures Sorting.IsTotalPreorder(BrandThenId)
  {
    forall a: DrugOut, b: DrugOut
      ensures BrandThenId(a, b) || BrandThenId(b, a)
    {
      Text.StrLtTrichotomy(a.brandName, b.brandName);
    }
    forall a: DrugOut, b: DrugOut, c: DrugOut | BrandThenId(a, b) && BrandThenId(b, c)
      ensures BrandThenId(a, c)
    {
      if Text.StrLt(a.brandName, b.brandName) && Text.StrLt(b.brandName, c.brandName) {
        Text.StrLtTransitive(a.brandName, b.brandName, c.brandName);
      }
    }
  }

  /** The rows of `rows` that survive the joins, in the same order. */
  function Joined(rows: seq<DrugRow>, cat: Catalog): (r: seq<DrugOut>)
    ensures |r| <= |rows|
  {
    if rows == [] then []
    else
      match Project(rows[0], cat, true)
      case Some(o) => [o] + Joined(rows[1..], cat)
      case None => Joined(rows[1..], cat)
  }

  /** Every listed drug comes from a stored row that resolves its four
      references, and every such row is listed. */
  lemma {:induction false} JoinedRows(rows: seq<DrugRow>, cat: Catalog, o: DrugOut)
    ensures o in Joined(rows, cat) <==> exists d :: d in rows && Project(d, cat, true) == Some(o)
  {
    if rows != [] {
      JoinedRows(rows[1..], cat, o);
      assert rows == [rows[0]] + rows[1..];
    }
  }

  /** `ListDrugs`: the joined rows in `ORDER BY` order, or the query's
      error. `query` is the drug table as the SELECT reads it. */
  function ListDrugs(query: Result<seq<DrugRow>>, cat: Catalog): (r: Result<seq<DrugOut>>)
    ensures r.Err? <==> query.Err?
    ensures r.Err? ==> r.error == query.error
    ensures r.Ok? ==> Sorting.SortedBy(r.value, BrandThenId)
    ensures r.Ok? ==> multiset(r.value) == multiset(Joined(query.value, cat))
  {
    BrandThenIdIsTotal();
    match query
    case Err(e) => Err(e)
    case Ok(rows) => Ok(Sorting.Sort(Joined(rows, cat), BrandThenId))
  }

  // ------------------------------------------------------------- grouping

  /** `models.DrugWithBatches`; `batches` is None for a nil slice. */
  datatype DrugWithBatches = DrugWithBatches(drug: DrugOut, batches: Option<seq<BatchService.BatchOut>>)

  /** The batches of drug `id`, in the order they were fetched. */
  function Group(bs: seq<BatchService.BatchOut>, id: int): seq<BatchService.BatchOut> {
    if bs == [] then []
    else Group(bs[..|bs| - 1], id) + (if bs[|bs| - 1].drugId == id then [bs[|bs| - 1]] else [])
  }

  /** A group holds exactly the fetched batches of its drug. */
  lemma {:induction false} GroupMembers(bs: seq<BatchService.BatchOut>, id: int, b: BatchService.BatchOut)
    ensures b in Group(bs, id) <==> b in bs && b.drugId == id
  {
    if bs != [] {
      GroupMembers(bs[..|bs| - 1], id, b);
      assert bs == bs[..|bs| - 1] + [bs[|bs| - 1]];
    }
  }

  /** A group keeps the order of the fetch: from batches sorted by any
      order, each drug's batches come out sorted by it. */
  lemma {:induction false} GroupSorted(bs: seq<BatchService.BatchOut>, id: int,
                                       le: (BatchService.BatchOut, BatchService.BatchOut) -> bool)
    requires Sorting.SortedBy(bs, le)
    ensures Sorting.SortedBy(Group(bs, id), le)
  {
    if bs != [] {
      var front, last := bs[..|bs| - 1], bs[|bs| - 1];
      GroupSorted(front, id, le);
      var g := Group(front, id);
      forall k | 0 <= k < |g|
        ensures le(g[k], last)
      {
        GroupMembers(front, id, g[k]);
        var j :| 0 <= j < |front| && front[j] == g[k];
        assert bs[j] == g[k];
      }
    }
  }

  /** Go's `bmap[id]`: nil when no batch was appended. */
  function AsSlice(s: seq<BatchService.BatchOut>): (r: Option<seq<BatchService.BatchOut>>)
    ensures r.None? <==> s == []
    ensures r.Some? ==> r.value == s
  {
    if s == [] then None else Some(s)
  }

  function IdsOf(ds: seq<DrugOut>): (r: seq<int>)
    ensures |r| == |ds| && forall i :: 0 <= i < |ds| ==> r[i] == ds[i].id
  {
    seq(|ds|, i requires 0 <= i < |ds| => ds[i].id)
  }

  /** Step 4 of `ListDrugsWithBatches`: appending every fetched batch to its
      drug's entry. A drug has an entry exactly when it has a batch, and the
      entry is its group. */
  method GroupByDrug(bs: seq<BatchService.BatchOut>) returns (bmap: map<int, seq<BatchService.BatchOut>>)
    ensures forall id :: id in bmap <==> Group(bs, id) != []
    ensures forall id :: id in bmap ==> bmap[id] == Group(bs, id)
  {
    bmap := map[];
    for j := 0 to |bs|
      invariant forall id :: id in bmap <==> Group(bs[..j], id) != []
      invariant forall id :: id in bmap ==> bmap[id] == Group(bs[..j], id)
    {
      var b := bs[j];
      var prior := if b.drugId in bmap then bmap[b.drugId] else [];
      bmap := bmap[b.drugId := prior + [b]];
      assert bs[..j + 1][..j] == bs[..j];
    }
    assert bs[..|bs|] == bs;
  }

  /** `ListDrugsWithBatches`, given the outcome of `ListDrugs` and the batch
      query `fetch` (taking the id list). `queried` is the argument the
      batch query was run with, None when it was not run. */
  method ListDrugsWithBatches(drugs: Result<seq<DrugOut>>, fetch: seq<int> -> Result<seq<BatchService.BatchOut>>)
    returns (r: Result<seq<DrugWithBatches>>, queried: Option<seq<int>>)
    ensures drugs.Err? ==> r == Err(drugs.error) && queried.None?
    ensures drugs == Ok([]) ==> r == Ok([]) && queried.None?
    ensures drugs.Ok? && drugs.value != [] ==> queried == Some(IdsOf(drugs.value))
    ensures queried.Some? && fetch(queried.value).Err? ==> r == Err(fetch(queried.value).error)
    ensures queried.Some? && fetch(queried.value).Ok?
            ==> r.Ok? && |r.value| == |drugs.value|
                && forall i :: 0 <= i < |r.value| ==>
                     r.value[i] == DrugWithBatches(drugs.value[i], AsSlice(Group(fetch(queried.value).value, drugs.value[i].id)))
  {
    if drugs.Err? {
      return Err(drugs.error), None;
    }
    var ds := drugs.value;
    if |ds| == 0 {
      return Ok([]), None;
    }

    var ids := new int[|ds|];
    for i := 0 to |ds|
      invariant forall k :: 0 <= k < i ==> ids[k] == ds[k].id
    {
      ids[i] := ds[i].id;
    }
    queried := Some(ids[..]);
    assert ids[..] == IdsOf(ds);

    var fetched := fetch(ids[..]);
    if fetched.Err? {
      return Err(fetched.error), queried;
    }
    var bs := fetched.value;

    var bmap := GroupByDrug(bs);

    var out := new DrugWithBatches[|ds|](_ => DrugWithBatches(ds[0], None));
    for i := 0 to |ds|
      invariant forall k :: 0 <= k < i ==> out[k] == DrugWithBatches(ds[k], AsSlice(Group(bs, ds[k].id)))
    {
      out[i] := DrugWithBatches(ds[i], if ds[i].id in bmap then Some(bmap[ds[i].id]) else None);
    }
    r := Ok(out[..]);
  }
}
