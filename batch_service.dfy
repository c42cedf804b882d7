/** internal/services/batch_service.go: adding a batch (trim, validate,
    insert, map a foreign-key violation), listing batches newest first, and
    the collapse-patch update. */
module BatchService {
  import opened Base
  import Text
  import Sql
  import Sorting
  import Validation

  /** `models.Batch` as this file passes it to the insert. */
  datatype BatchIn = BatchIn(
    drugId: int,
    batchNumber: string,
    mfgDate: Time,
    expDate: Time,
    quantity: int,
    status: string,
    price: real)

  /** A row of table `batch`; dates are day numbers. */
  datatype BatchRow = BatchRow(
    id: int,
    drugId: int,
    batchNumber: string,
    mfgDate: int,
    expDate: int,
    quantity: int,
    status: string,
    price: real)

  /** The columns the batch queries select: the row joined with its drug's
      brand name and that drug's API name. */
  datatype BatchOut = BatchOut(
    id: int,
    drugId: int,
    drugBrandName: string,
    apiName: string,
    batchNumber: string,
    mfgDate: int,
    expDate: int,
    quantity: int,
    status: string,
    price: real)

  /** `BatchPatch`: "" and 0 mean "keep the stored value"; the dates are
      text to be cast to `date`. */
  datatype BatchPatch = BatchPatch(
    drugId: int,
    batchNumber: string,
    mfgDate: string,
    expDate: string,
    quantity: int,
    status: string,
    price: real)

  const ForeignKeyMessage: string := "invalid foreign key (drug_id)"

  /** The input after the trimming `AddBatch` does first. */
  function Normalise(b: BatchIn): (r: BatchIn)
    ensures Text.Trimmed(r.batchNumber) && Text.Trimmed(r.status)
  {
    b.(batchNumber := Text.TrimSpace(b.batchNumber), status := Text.TrimSpace(b.status))
  }

  lemma NormaliseIdempotent(b: BatchIn)
    ensures Normalise(Normalise(b)) == Normalise(b)
  {
    Text.TrimSpaceIdempotent(b.batchNumber);
    Text.TrimSpaceIdempotent(b.status);
  }

  /** `AddBatch`. `validate` is the input's `Validate` method and `insert`
      the INSERT joined with drug and api, both supplied by the caller. */
  function AddBatch(b: BatchIn, validate: BatchIn -> Option<Validation.ValidationError>,
                    insert: BatchIn -> Result<BatchOut>): (r: Result<BatchOut>)
    ensures validate(Normalise(b)).Some?
            ==> r == Err(New(Validation.FirstError(validate(Normalise(b))).0)) && r.error.text != ""
    ensures r.Ok? <==> validate(Normalise(b)).None? && insert(Normalise(b)).Ok?
    ensures r.Ok? ==> r.value == insert(Normalise(b)).value
    ensures validate(Normalise(b)).None? && insert(Normalise(b)).Err?
            ==> r.error == Sql.MapError(insert(Normalise(b)).error, Some(ForeignKeyMessage), None)
  {
    var n := Normalise(b);
    Sql.Create(validate(n), n, insert, Some(ForeignKeyMessage), None)
  }

  /** White space around the batch number and status makes no difference: adding an
      input is adding its trimmed form. */
  lemma AddIgnoresSurroundingSpace(b: BatchIn, validate: BatchIn -> Option<Validation.ValidationError>,
                                   insert: BatchIn -> Result<BatchOut>)
    ensures AddBatch(b, validate, insert) == AddBatch(Normalise(b), validate, insert)
  {
    NormaliseIdempotent(b);
  }

  /** `ORDER BY b.mfg_date DESC, b.id DESC`. */
  predicate NewestFirst(a: BatchOut, b: BatchOut) {
    a.mfgDate > b.mfgDate || (a.mfgDate == b.mfgDate && a.id >= b.id)
  }

  lemma NewestFirstIsTotal()
    ensures Sorting.IsTotalPreorder(NewestFirst)
  {
  }

  /** `ListBatches`: the joined rows in `ORDER BY` order, or the query's
      error. */
  function ListBatches(query: Result<seq<BatchOut>>): (r: Result<seq<BatchOut>>)
    ensures r.Err? <==> query.Err?
    ensures r.Err? ==> r.error == query.error
    ensures r.Ok? ==> Sorting.SortedBy(r.value, NewestFirst)
    ensures r.Ok? ==> multiset(r.value) == multiset(query.value)
  {
    NewestFirstIsTotal();
    match query
    case Err(e) => Err(e)
    case Ok(rows) => Ok(Sorting.Sort(rows, NewestFirst))
  }

  /** `NULLIF($n, '')::date`: no date for "", else the cast, whose failure is
      a storage error. */
  function CastDate(s: string, cast: string -> Result<int>): (r: Result<Option<int>>)
    ensures s == "" ==> r == Ok(None)
    ensures s != "" && cast(s).Ok? ==> r == Ok(Some(cast(s).value))
    ensures s != "" && cast(s).Err? ==> r == Err(cast(s).error)
  {
    if s == "" then Ok(None)
    else match cast(s)
      case Ok(d) => Ok(Some(d))
      case Err(e) => Err(e)
  }

  /** The SET list of `UpdateBatch` on one row, after the trimming of
      batch_number and status; `mfg` and `exp` are the cast dates. */
  function Apply(row: BatchRow, p: BatchPatch, mfg: Option<int>, exp: Option<int>): BatchRow {
    BatchRow(
      row.id,
      Sql.Collapse(p.drugId, 0, row.drugId),
      Sql.Collapse(Text.TrimSpace(p.batchNumber), "", row.batchNumber),
      Sql.Coalesce(mfg, row.mfgDate),
      Sql.Coalesce(exp, row.expDate),
      Sql.Collapse(p.quantity, 0, row.quantity),
      Sql.Collapse(Text.TrimSpace(p.status), "", row.status),
      Sql.Collapse(p.price, 0.0, row.price))
  }

  /** Field by field: 0, "" after trimming, or no date keeps the stored
      value; anything else replaces it. The id is never written. */
  lemma ApplyFieldByField(row: BatchRow, p: BatchPatch, mfg: Option<int>, exp: Option<int>)
    ensures var r := Apply(row, p, mfg, exp);
            && r.id == row.id
            && r.drugId == (if p.drugId == 0 then row.drugId else p.drugId)
            && r.batchNumber == (if Text.TrimSpace(p.batchNumber) == "" then row.batchNumber else Text.TrimSpace(p.batchNumber))
            && r.mfgDate == (if mfg.None? then row.mfgDate else mfg.value)
            && r.expDate == (if exp.None? then row.expDate else exp.value)
            && r.quantity == (if p.quantity == 0 then row.quantity else p.quantity)
            && r.status == (if Text.TrimSpace(p.status) == "" then row.status else Text.TrimSpace(p.status))
            && r.price == (if p.price == 0.0 then row.price else p.price)
  {
  }

  /** Both casts, manufacture date first. */
  function Dates(p: BatchPatch, cast: string -> Result<int>): (r: Result<(Option<int>, Option<int>)>)
    ensures r.Ok? <==> CastDate(p.mfgDate, cast).Ok? && CastDate(p.expDate, cast).Ok?
    ensures r.Ok? ==> r.value == (CastDate(p.mfgDate, cast).value, CastDate(p.expDate, cast).value)
    ensures CastDate(p.mfgDate, cast).Err? ==> r == Err(CastDate(p.mfgDate, cast).error)
  {
    match CastDate(p.mfgDate, cast)
    case Err(e) => Err(e)
    case Ok(mfg) =>
      match CastDate(p.expDate, cast)
      case Err(e) => Err(e)
      case Ok(exp) => Ok((mfg, exp))
  }

  /** A patch that sets nothing. */
  predicate IsEmpty(p: BatchPatch) {
    p.drugId == 0 && Text.AllSpace(p.batchNumber) && p.mfgDate == "" && p.expDate == ""
    && p.quantity == 0 && Text.AllSpace(p.status) && p.price == 0.0
  }

  /** An empty patch casts nothing and leaves the row as it was. */
  lemma EmptyPatchIsIdentity(row: BatchRow, p: BatchPatch, cast: string -> Result<int>)
    requires IsEmpty(p)
    ensures Dates(p, cast) == Ok((None, None))
    ensures Apply(row, p, None, None) == row
  {
  }

  /** Applying a patch a second time changes nothing more. */
  lemma ApplyIdempotent(row: BatchRow, p: BatchPatch, mfg: Option<int>, exp: Option<int>)
    ensures Apply(Apply(row, p, mfg, exp), p, mfg, exp) == Apply(row, p, mfg, exp)
  {
  }

  /** Quantity and price cannot be set to 0 by a patch: after an update
      either is 0 only if it was 0 before. */
  lemma QuantityAndPriceNeverZeroed(row: BatchRow, p: BatchPatch, mfg: Option<int>, exp: Option<int>)
    ensures Apply(row, p, mfg, exp).quantity == 0 ==> row.quantity == 0
    ensures Apply(row, p, mfg, exp).price == 0.0 ==> row.price == 0.0
  {
  }

  /** No rule guards an update: any status and any pair of dates, including
      an expiry before manufacture, are written as given. */
  lemma UpdateIsUnchecked(row: BatchRow, p: BatchPatch, m: int, e: int)
    requires Text.TrimSpace(p.status) != ""
    ensures Apply(row, p, Some(m), Some(e)).status == Text.TrimSpace(p.status)
    ensures Apply(row, p, Some(m), Some(e)).mfgDate == m && Apply(row, p, Some(m), Some(e)).expDate == e
  {
  }

  /** `UpdateBatch`: cast the dates, rewrite the row with the given id under
      the database's constraint verdict `check`, then join with drug and api
      (`join`). A foreign-key violation gets its message; every other error,
      `no rows` for a missing id included, passes through. Returns the
      response and the table afterwards. */
  function UpdateBatch(table: map<int, BatchRow>, id: int, p: BatchPatch, cast: string -> Result<int>,
                       check: BatchRow -> Option<Error>, join: BatchRow -> Option<BatchOut>): (r: (Result<BatchOut>, map<int, BatchRow>))
    ensures Dates(p, cast).Err? ==> r == (Err(Dates(p, cast).error), table)
    ensures Dates(p, cast).Ok? && id !in table ==> r == (Err(NoRows), table)
    ensures var d := Dates(p, cast);
            d.Ok? && id in table && check(Apply(table[id], p, d.value.0, d.value.1)).Some?
            ==> r == (Err(Sql.MapError(check(Apply(table[id], p, d.value.0, d.value.1)).value, Some(ForeignKeyMessage), None)), table)
    ensures var d := Dates(p, cast);
            d.Ok? && id in table && check(Apply(table[id], p, d.value.0, d.value.1)).None?
            ==> r.1 == table[id := Apply(table[id], p, d.value.0, d.value.1)]
                && (r.0.Ok? <==> join(r.1[id]).Some?)
                && (r.0.Ok? ==> r.0.value == join(r.1[id]).value)
    ensures r.1.Keys == table.Keys
    ensures forall k :: k in table && k != id ==> r.1[k] == table[k]
  {
    match Dates(p, cast)
    case Err(e) => (Err(e), table)
    case Ok(d) =>
      var u := Sql.UpdateRow(table, id, row => Apply(row, p, d.0, d.1), check);
      Sql.UpdateRowTouchesOnlyThatRow(table, id, row => Apply(row, p, d.0, d.1), check);
      match u.0
      case Err(e) => (Err(Sql.MapError(e, Some(ForeignKeyMessage), None)), u.1)
      case Ok(row) =>
        match join(row)
        case None => (Err(NoRows), u.1)
        case Some(out) => (Ok(out), u.1)
  }
}
