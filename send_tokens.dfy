/** The sendTokens handler as it stands: it parses the body, checks that block, flat and
    email are present and not blank, and answers; it has no method check and sends no mail. */
module SendTokens {
  import opened Js

  /** The destructured body; only block, flat and email are read. */
  datatype Fields = Fields(block: Value, flat: Value, email: Value,
                           donation: Value, day1Tokens: Value, day2Tokens: Value, day3Tokens: Value)

  /** `JSON.stringify({ success, error })`, with `error` absent on success. */
  datatype ReplyBody = ReplyBody(success: bool, error: Option<string>)

  datatype Response = Response(statusCode: int, body: ReplyBody)

  const MissingFields := "Missing required fields or empty values for block, flat, or email"

  /** How the required-field condition ends: it holds (some operand is true, so 400), it
      fails (200), or `trim` was called on something that is not a string. */
  datatype Check = Rejected | Accepted | Threw(fault: Fault)

  /** The condition of the `if`, evaluated left to right with short-circuiting. Only a
      string has `trim`: a truthy block or email of any other kind throws at its call. */
  function CheckFields(f: Fields): (r: Check)
    ensures r == Accepted <==>
              f.block.Str? && !Blank(f.block.s) &&
              Truthy(f.flat) && !Blank(ToStr(f.flat)) &&
              f.email.Str? && !Blank(f.email.s)
    ensures r.Threw? <==>
              (Truthy(f.block) && !f.block.Str?) ||
              (f.block.Str? && !Blank(f.block.s) && Truthy(f.flat) && !Blank(ToStr(f.flat)) &&
               Truthy(f.email) && !f.email.Str?)
    ensures r.Threw? ==> r.fault == NotAFunction(if f.block.Str? then "email.trim" else "block.trim")
  {
    if !Truthy(f.block) then Rejected
    else if !f.block.Str? then Threw(NotAFunction("block.trim"))
    else if Trim(f.block.s) == "" then Rejected
    else if !Truthy(f.flat) then Rejected
    else if Trim(ToStr(f.flat)) == "" then Rejected
    else if !Truthy(f.email) then Rejected
    else if !f.email.Str? then Threw(NotAFunction("email.trim"))
    else if Trim(f.email.s) == "" then Rejected
    else Accepted
  }

  /** `error.message` of the exception the `catch` receives. */
  function Message(fault: Fault): string
  {
    match fault
    case ParseError(m) => m
    case NotAFunction(callee) => callee + " is not a function"
    case NotAnObject(_) => "Cannot convert undefined or null to object"
    case ServiceError(m) => m
  }

  /** The handler: 200 when all three fields are present and not blank, 400 when one is
      missing or blank, 500 with the exception's message when the body does not parse or a
      truthy non-string block or email reaches its `trim` call. The HTTP method is not looked at,
      so the handler is a function of the body alone. */
  function Handle(body: Parsed<Fields>): (r: Response)
    ensures r.statusCode == 200 <==> body.Parsed? && CheckFields(body.fields) == Accepted
    ensures r.statusCode == 200 ==> r.body == ReplyBody(true, None)
    ensures r.statusCode == 400 <==> body.Parsed? && CheckFields(body.fields) == Rejected
    ensures r.statusCode == 400 ==> r.body == ReplyBody(false, Some(MissingFields))
    ensures r.statusCode == 500 <==> body.Malformed? || CheckFields(body.fields).Threw?
    ensures r.statusCode == 500 ==> !r.body.success && r.body.error.Some?
    ensures r.statusCode == 500 && body.Malformed? ==> r.body == ReplyBody(false, Some(body.message))
    ensures body.Parsed? && CheckFields(body.fields).Threw? ==>
              r.body == ReplyBody(false, Some(Message(CheckFields(body.fields).fault)))
  {
    if body.Malformed? then Response(500, ReplyBody(false, Some(body.message)))
    else
      match CheckFields(body.fields)
      case Rejected => Response(400, ReplyBody(false, Some(MissingFields)))
      case Accepted => Response(200, ReplyBody(true, None))
      case Threw(fault) => Response(500, ReplyBody(false, Some(Message(fault))))
  }

  /** Surrounding whitespace does not make a field acceptable or unacceptable: a block
      padded with whitespace is judged like the block itself. */
  lemma PaddingIgnored(f: Fields, pad1: string, pad2: string)
    requires f.block.Str? && Blank(pad1) && Blank(pad2)
    ensures Handle(Parsed(f.(block := Str(pad1 + f.block.s + pad2)))).statusCode ==
            Handle(Parsed(f)).statusCode
  {
    var s := f.block.s;
    var padded := pad1 + s + pad2;
    assert Blank(padded) <==> Blank(s) by {
      if Blank(s) {
        assert forall k :: 0 <= k < |padded| ==> IsWhitespace(padded[k]) by {
          forall k | 0 <= k < |padded| ensures IsWhitespace(padded[k]) {
            if k < |pad1| {
              assert padded[k] == pad1[k];
            } else if k < |pad1| + |s| {
              assert padded[k] == s[k - |pad1|];
            } else {
              assert padded[k] == pad2[k - |pad1| - |s|];
            }
          }
        }
      }
      if Blank(padded) {
        forall k | 0 <= k < |s| ensures IsWhitespace(s[k]) {
          assert s[k] == padded[k + |pad1|];
        }
      }
    }
    assert Truthy(Str(padded)) <==> padded != "";
  }
}
