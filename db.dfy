/** Rows and query outcomes of the hosted Postgres tables, as the API handlers see them.
    A select or insert either throws, answers with an error object, answers with no data
    (`data: null`), or answers with a list of rows. */
module Db {
  import opened Wrappers
  import opened JsonValue

  /** A table row: column name to value. A column the query did not return is absent. */
  type Row = map<string, Json>

  /** The outcome of one database call. */
  datatype Query = Raised(message: string) | DbError(message: string) | NoData | Data(rows: seq<Row>)

  /** `row.key`: undefined when the column is absent. */
  function Col(row: Row, key: string): Option<Json> {
    if key in row then Some(row[key]) else None
  }

  /** `v ?? null`. */
  function OrNull(v: Option<Json>): (r: Json)
    ensures !Nullish(v) ==> r == v.value
    ensures Nullish(v) ==> r == JNull
  {
    if Nullish(v) then JNull else v.value
  }

  /** `rows[0]` when the call answered with at least one row (`rows && rows.length > 0`). */
  function FirstRow(q: Query): (r: Option<Row>)
    ensures r.Some? <==> q.Data? && q.rows != []
    ensures r.Some? ==> r.value == q.rows[0]
  {
    if q.Data? && q.rows != [] then Some(q.rows[0]) else None
  }

  /** `ins && ins.length > 0 ? ins[0].id : null`, the id handed back by an insert; a missing
      `id` column reads as null. */
  function InsertedId(q: Query): (r: Json)
    ensures FirstRow(q).None? ==> r == JNull
    ensures q.Data? && q.rows != [] && "id" in q.rows[0] ==> r == q.rows[0]["id"]
    ensures q.Data? && q.rows != [] && "id" !in q.rows[0] ==> r == JNull
  {
    if FirstRow(q).Some? then OrNull(Col(FirstRow(q).value, "id")) else JNull
  }
}
