/** The add-token handler up to the point where it creates the record: the method check,
    the required fields, and the refusal of a token id the table already lists. */
module AddToken {
  import opened Js
  import opened Store

  /** The destructured request body. */
  datatype Fields = Fields(tokenID: Value, flatNo: Value, day: Value)

  datatype Request = Request(httpMethod: string, body: Parsed<Fields>)

  /** Where the handler goes: a response it returns, an exception that leaves the `try`
      block, or on to the create request with the validated fields. */
  datatype Decision =
    | Respond(statusCode: int, body: string)
    | Raised(fault: Fault)
    | Create(fields: Fields)

  predicate Complete(f: Fields)
  {
    Truthy(f.tokenID) && Truthy(f.flatNo) && Truthy(f.day)
  }

  /** The handler's decision, given the reply to the `{tokenID}='<id>'` lookup and the
      table it ran against (a listed reply lists exactly the matching rows). */
  function Decide(req: Request, lookup: LookupReply, rows: seq<Row>): (d: Decision)
    ensures d == Respond(405, "Method Not Allowed") <==> req.httpMethod != "POST"
    ensures d.Raised? && d.fault.ParseError? <==> req.httpMethod == "POST" && req.body.Malformed?
    ensures d == Respond(400, "Missing tokenID, flatNo or day") <==>
              req.httpMethod == "POST" && req.body.Parsed? && !Complete(req.body.fields)
    ensures d.Raised? && d.fault.ServiceError? <==>
              req.httpMethod == "POST" && req.body.Parsed? && Complete(req.body.fields) && lookup.LookupFailed?
    ensures d == Respond(409, "Token already exists") <==>
              req.httpMethod == "POST" && req.body.Parsed? && Complete(req.body.fields) &&
              lookup.RecordsListed? && HasToken(rows, ToStr(req.body.fields.tokenID))
    ensures d.Create? <==>
              req.httpMethod == "POST" && req.body.Parsed? && Complete(req.body.fields) &&
              (lookup.NoRecordsField? || (lookup.RecordsListed? && !HasToken(rows, ToStr(req.body.fields.tokenID))))
    ensures d.Create? ==> d.fields == req.body.fields
    ensures d.Raised? ==>
              d.fault == (if req.body.Malformed? then ParseError(req.body.message) else ServiceError(lookup.message))
  {
    if req.httpMethod != "POST" then Respond(405, "Method Not Allowed")
    else if req.body.Malformed? then Raised(ParseError(req.body.message))
    else
      var f := req.body.fields;
      if !Truthy(f.tokenID) || !Truthy(f.flatNo) || !Truthy(f.day) then Respond(400, "Missing tokenID, flatNo or day")
      else if lookup.LookupFailed? then Raised(ServiceError(lookup.message))
      else if lookup.RecordsListed? && |Matching(rows, ToStr(f.tokenID))| > 0 then Respond(409, "Token already exists")
      else Create(f)
  }

  /** Once a record with the token's id exists, a second request for that id is refused
      with 409 whenever the lookup lists the table's records. */
  lemma SecondAddRefused(req: Request, rows: seq<Row>, row: Row)
    requires req.httpMethod == "POST" && req.body.Parsed? && Complete(req.body.fields)
    requires row.tokenID == ToStr(req.body.fields.tokenID)
    ensures Decide(req, RecordsListed, rows + [row]) == Respond(409, "Token already exists")
  {
    assert (rows + [row])[|rows|] == row;
  }
}
