/** The SQL expressions the update and insert statements use around their
    parameters, and the SQLSTATE-to-message mapping every service applies
    to a failed statement. */
module Sql {
  import opened Base
  import Validation

  /** `NULLIF(v, zero)`. */
  function NullIf<T(==)>(v: T, zero: T): (r: Option<T>)
    ensures r.None? <==> v == zero
    ensures r.Some? ==> r.value == v
  {
    if v == zero then None else Some(v)
  }

  /** `COALESCE(o, col)` with a non-null column. */
  function Coalesce<T>(o: Option<T>, col: T): T {
    match o
    case Some(v) => v
    case None => col
  }

  /** `COALESCE(NULLIF(patch, zero), col)`: the collapse patch. */
  function Collapse<T(==)>(patch: T, zero: T, col: T): (r: T)
    ensures patch == zero ==> r == col
    ensures patch != zero ==> r == patch
  {
    Coalesce(NullIf(patch, zero), col)
  }

  /** The same on a nullable column: a NULL column stays NULL under a zero
      patch, and a non-zero patch sets it. */
  function CollapseNullable<T(==)>(patch: T, zero: T, col: Option<T>): (r: Option<T>)
    ensures patch == zero ==> r == col
    ensures patch != zero ==> r == Some(patch)
  {
    match NullIf(patch, zero)
    case Some(v) => Some(v)
    case None => col
  }

  /** The error a service returns for a failed statement: the given
      message for a foreign-key violation (23503) or a unique violation
      (23505) when the service maps that code, the storage error itself
      otherwise. */
  function MapError(e: Error, onForeignKey: Option<string>, onUnique: Option<string>): (r: Error)
    ensures HasSqlState(e, ForeignKeyViolation) && onForeignKey.Some? ==> r == New(onForeignKey.value)
    ensures HasSqlState(e, UniqueViolation) && onUnique.Some? ==> r == New(onUnique.value)
    ensures (!(HasSqlState(e, ForeignKeyViolation) && onForeignKey.Some?)
             && !(HasSqlState(e, UniqueViolation) && onUnique.Some?)) ==> r == e
  {
    if HasSqlState(e, ForeignKeyViolation) && onForeignKey.Some? then New(onForeignKey.value)
    else if HasSqlState(e, UniqueViolation) && onUnique.Some? then New(onUnique.value)
    else e
  }

  /** `UPDATE t SET ... WHERE id = $1 RETURNING ...` on a table keyed by id:
      no row with that id gives `no rows` and keeps the table; otherwise the
      row is rewritten by `apply`, and the database's constraint verdict
      `check` on the new row either rejects the statement, keeping the table,
      or lets it through and the new row is returned. */
  function UpdateRow<R>(table: map<int, R>, id: int, apply: R -> R, check: R -> Option<Error>): (r: (Result<R>, map<int, R>))
    ensures id !in table ==> r == (Err(NoRows), table)
    ensures id in table && check(apply(table[id])).Some? ==> r == (Err(check(apply(table[id])).value), table)
    ensures id in table && check(apply(table[id])).None? ==> r.0 == Ok(apply(table[id]))
  {
    if id !in table then (Err(NoRows), table)
    else
      var row := apply(table[id]);
      match check(row)
      case Some(e) => (Err(e), table)
      case None => (Ok(row), table[id := row])
  }

  /** An update touches the row with the given id and no other, and neither
      adds nor removes rows. */
  lemma UpdateRowTouchesOnlyThatRow<R>(table: map<int, R>, id: int, apply: R -> R, check: R -> Option<Error>)
    ensures UpdateRow(table, id, apply, check).1.Keys == table.Keys
    ensures forall k :: k in table && k != id ==> UpdateRow(table, id, apply, check).1[k] == table[k]
    ensures UpdateRow(table, id, apply, check).0.Ok?
            ==> id in table && UpdateRow(table, id, apply, check).1[id] == UpdateRow(table, id, apply, check).0.value == apply(table[id])
    ensures UpdateRow(table, id, apply, check).0.Err? ==> UpdateRow(table, id, apply, check).1 == table
  {
  }

  /** What every create operation does after preparing its input: a value
      the rule set rejects (`verdict`) gives the first error's message and
      runs no statement; otherwise `insert` runs on the statement's
      parameters `args`, and its error is mapped by `MapError`. */
  function Create<T, A>(verdict: Option<Validation.ValidationError>, args: A, insert: A -> Result<T>,
                        onForeignKey: Option<string>, onUnique: Option<string>): (r: Result<T>)
    ensures verdict.Some? ==> r == Err(New(Validation.FirstError(verdict).0)) && r.error.text != ""
    ensures r.Ok? <==> verdict.None? && insert(args).Ok?
    ensures r.Ok? ==> r.value == insert(args).value
    ensures verdict.None? && insert(args).Err?
            ==> r.error == MapError(insert(args).error, onForeignKey, onUnique)
  {
    match verdict
    case Some(err) => Err(New(Validation.FirstError(Some(err)).0))
    case None =>
      match insert(args)
      case Ok(row) => Ok(row)
      case Err(e) => Err(MapError(e, onForeignKey, onUnique))
  }

  /** A rejected value never reaches the insert: the outcome is the same
      whatever the insert would have done. */
  lemma RejectedIsNotInserted<T, A>(verdict: Option<Validation.ValidationError>, args: A,
                                    insert1: A -> Result<T>, insert2: A -> Result<T>,
                                    onForeignKey: Option<string>, onUnique: Option<string>)
    requires verdict.Some?
    ensures Create(verdict, args, insert1, onForeignKey, onUnique) == Create(verdict, args, insert2, onForeignKey, onUnique)
  {
  }
}

