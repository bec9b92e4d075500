/**
 * The remote data service as the stores see it. Nothing here talks to a
 * server: every call the stores make is represented by the answer it
 * resolved to, which the store operations take as a parameter.
 */
module Gateway {
  import opened Wrappers

  /**
   * The `{ data, error }` pair a call resolves to: either no error and a
   * data payload, or an error object. A call whose promise rejects is
   * treated the same way as one that reports an error, since the stores
   * catch both and rethrow.
   */
  datatype Response<T> = Ok(data: T) | Failed(error: string)

  /** What a store operation throws back to its caller. */
  datatype Error =
    | Remote(message: string)  // the gateway's own error, rethrown as is
    | NullData                 // `data[0]` read while the gateway sent no data (a TypeError)

  /** The result of a store operation: its return value, or the error it throws. */
  datatype Result<T> = Success(value: T) | Failure(error: Error)

  /** The rows of a select, or no rows when the gateway sent no data (`data || []`). */
  function RowsOrEmpty<T>(data: Option<seq<T>>): (rows: seq<T>)
    ensures data.Some? ==> rows == data.value
    ensures data.None? ==> rows == []
  {
    data.GetOr([])
  }

  /**
   * The value of `data[0]` after an insert or update: a TypeError when there
   * is no data at all, `undefined` when no row came back, the first row otherwise.
   */
  function FirstRow<T>(data: Option<seq<T>>): (r: Result<Option<T>>)
    ensures r.Failure? <==> data.None?
    ensures r.Failure? ==> r.error == NullData
    ensures r.Success? && r.value.Some? <==> data.Some? && data.value != []
    ensures r.Success? && r.value.Some? ==> r.value.value == data.value[0]
  {
    match data
    case None => Failure(NullData)
    case Some(rows) => Success(if rows == [] then None else Some(rows[0]))
  }
}
