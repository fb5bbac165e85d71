/** The Airtable token table, seen through the two calls the handlers make on it: a
    `filterByFormula={tokenID}='<id>'` query and the creation of one record. The table
    enforces no uniqueness of `tokenID`, so it is a sequence of rows in creation order. */
module Store {
  import opened Js

  /** The fields of one record: `tokenID`, `flatNo` (block and flat), `Day` and
      `RedeemedOn` (null until the token is redeemed). */
  datatype Row = Row(tokenID: string, flatNo: string, day: string, redeemedOn: Option<string>)

  /** What the lookup query came back with. */
  datatype LookupReply =
    | LookupFailed(message: string)   // the request or the decoding of its JSON threw
    | NoRecordsField                  // a reply without a `records` list, such as an error reply
    | RecordsListed                   // the `records` list: the rows whose tokenID matches

  /** What the create request came back with: `ok`, or a failed or thrown request. */
  datatype CreateReply = CreateOk | CreateFailed(message: string)

  predicate HasToken(rows: seq<Row>, id: string)
  {
    exists k :: 0 <= k < |rows| && rows[k].tokenID == id
  }

  /** The records a `{tokenID}='<id>'` filter selects, in table order. */
  function Matching(rows: seq<Row>, id: string): (r: seq<Row>)
    ensures |r| <= |rows|
    ensures forall k :: 0 <= k < |r| ==> r[k].tokenID == id
    ensures |r| > 0 <==> HasToken(rows, id)
  {
    if rows == [] then []
    else
      var rest := Matching(rows[..|rows| - 1], id);
      var last := rows[|rows| - 1];
      assert HasToken(rows, id) <==> HasToken(rows[..|rows| - 1], id) || last.tokenID == id;
      if last.tokenID == id then rest + [last] else rest
  }

  /** The table as the handlers change it: only ever by appending a record. */
  class Table {
    var rows: seq<Row>

    constructor (initial: seq<Row>)
      ensures rows == initial
    {
      rows := initial;
    }

    /** A successful create request: the new record follows every existing one. */
    method Append(row: Row)
      modifies this
      ensures rows == old(rows) + [row]
    {
      rows := rows + [row];
    }
  }
}
