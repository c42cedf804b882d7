/** Values shared by every module of the model: optional values, results
    with a Go error on the failure side, and the few Go library types the
    entities carry (time.Time, *time.Time, json.RawMessage). */
module Base {

  datatype Option<+T> = None | Some(value: T)

  /** A Go `error` as the services see it. `New` is `errors.New(text)`.
      `Db` is an error returned by the storage layer (pgx/scany); `sqlState`
      is the code of the `*pgconn.PgError` that `errors.As` finds in its
      chain, or None when there is none (connection errors, no rows, ...). */
  datatype Error =
    | New(text: string)
    | Db(sqlState: Option<string>, text: string)

  /** The `(value, error)` pair a Go function returns, with the error
      non-nil on the failure side. */
  datatype Result<+T> = Ok(value: T) | Err(error: Error)

  /** PostgreSQL SQLSTATE codes of class 23 (integrity constraint violation)
      that the services single out. */
  const ForeignKeyViolation: string := "23503"
  const UniqueViolation: string := "23505"

  /** Whether `errors.As(err, &pgErr) && pgErr.Code == code`. */
  predicate HasSqlState(e: Error, code: string) {
    e.Db? && e.sqlState == Some(code)
  }

  /** The error `pgxscan.Get` reports when the statement returned no row
      (an UPDATE whose WHERE matched nothing, or a row dropped by an inner
      join). It is not a PgError, so no SQLSTATE mapping applies to it. */
  const NoRows: Error := Db(None, "no rows in result set")

  /** A `time.Time`: the zero time, or some instant. Only zero-ness and the
      instant's order are observable in this model. */
  datatype Time = ZeroTime | At(instant: int)

  /** A `json.RawMessage`: nil, or some bytes, of which the model keeps only
      whether they are well-formed JSON (`json.Valid`). */
  datatype Raw = Nil | Bytes(wellFormed: bool)
}
