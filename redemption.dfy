/** The redeem-token handler: a module-level set of redeemed tokens, kept in the memory of
    one function instance, that a token joins the first time it is presented. */
module Redemption {
  import opened Js

  /** A request; the body is the `token` field of the parsed JSON body. */
  datatype Request = Request(httpMethod: string, body: Parsed<Value>)

  datatype Response = Response(statusCode: int, body: string)

  /** The set after one request, and the response to it. */
  datatype Reply = Reply(tokens: set<Value>, response: Response)

  /** The responses to a sequence of requests, and the set after the last one. */
  datatype Trace = Trace(tokens: set<Value>, responses: seq<Response>)

  /** `redeemedTokens.has(token)`. The set compares primitives by value and objects by
      identity; a token parsed as an object or array is a new object on every request, so
      it is never found. */
  predicate Redeemed(tokens: set<Value>, token: Value)
  {
    !token.Obj? && token in tokens
  }

  /** The token a request presents, when it gets as far as the `has` check. */
  predicate Presents(req: Request, token: Value)
  {
    req.httpMethod == "POST" && req.body == Parsed(token) && Truthy(token)
  }

  /** One request against the set: 405 for another method, 500 for a body that does not
      parse, 400 for a missing or falsy token, 400 for a token the set already has, and
      otherwise 200 with the token added. The set changes on the 200 path only. */
  function Step(tokens: set<Value>, req: Request): (r: Reply)
    ensures r.response.statusCode == 200 <==>
              exists t :: Presents(req, t) && !Redeemed(tokens, t)
    ensures r.response.statusCode == 200 ==>
              r.response.body == "Token redeemed successfully" &&
              r.tokens == tokens + {req.body.fields}
    ensures r.response.statusCode != 200 ==> r.tokens == tokens
    ensures r.response.statusCode == 405 <==> req.httpMethod != "POST"
    ensures r.response.statusCode == 500 <==> req.httpMethod == "POST" && req.body.Malformed?
    ensures r.response.statusCode == 500 ==> r.response.body == "Internal server error: " + req.body.message
    ensures r.response == Response(400, "Missing token") <==>
              req.httpMethod == "POST" && req.body.Parsed? && !Truthy(req.body.fields)
    ensures r.response == Response(400, "Token already redeemed") <==>
              exists t :: Presents(req, t) && Redeemed(tokens, t)
  {
    if req.httpMethod != "POST" then Reply(tokens, Response(405, "Method Not Allowed"))
    else if req.body.Malformed? then Reply(tokens, Response(500, "Internal server error: " + req.body.message))
    else
      var token := req.body.fields;
      assert Presents(req, token) <==> Truthy(token);
      if !Truthy(token) then Reply(tokens, Response(400, "Missing token"))
      else if Redeemed(tokens, token) then Reply(tokens, Response(400, "Token already redeemed"))
      else Reply(tokens + {token}, Response(200, "Token redeemed successfully"))
  }

  /** The function instance with its module-level set. */
  class RedeemedTokens {
    var tokens: set<Value>

    /** A fresh instance starts with no redeemed tokens. */
    constructor ()
      ensures tokens == {}
    {
      tokens := {};
    }

    method Handle(req: Request) returns (resp: Response)
      modifies this
      ensures Reply(tokens, resp) == Step(old(tokens), req)
    {
      if req.httpMethod != "POST" {
        return Response(405, "Method Not Allowed");
      }
      if req.body.Malformed? {
        return Response(500, "Internal server error: " + req.body.message);
      }
      var token := req.body.fields;
      if !Truthy(token) {
        return Response(400, "Missing token");
      }
      if !token.Obj? && token in tokens {
        return Response(400, "Token already redeemed");
      }
      tokens := tokens + {token};
      resp := Response(200, "Token redeemed successfully");
    }
  }

  /** Successive calls of `Handle` on one instance, starting from the set `tokens`: the
      responses in order and the set after the last call. */
  function Run(tokens: set<Value>, reqs: seq<Request>): (r: Trace)
    ensures |r.responses| == |reqs|
  {
    if reqs == [] then Trace(tokens, [])
    else
      var n := |reqs| - 1;
      var before := Run(tokens, reqs[..n]);
      var step := Step(before.tokens, reqs[n]);
      Trace(step.tokens, before.responses + [step.response])
  }

  /** The response to the k-th request is the step taken from the set the first k requests
      left behind. */
  lemma {:induction false} RunAt(tokens: set<Value>, reqs: seq<Request>, k: nat)
    requires k < |reqs|
    ensures Run(tokens, reqs).responses[k] == Step(Run(tokens, reqs[..k]).tokens, reqs[k]).response
    decreases |reqs|
  {
    var n := |reqs| - 1;
    if k < n {
      assert reqs[..n][..k] == reqs[..k];
      RunAt(tokens, reqs[..n], k);
    } else {
      assert reqs[..k] == reqs[..n];
    }
  }

  /** The set only grows: a token once redeemed stays redeemed for the instance's life. */
  lemma {:induction false} RunGrows(tokens: set<Value>, reqs: seq<Request>, m: nat)
    requires m <= |reqs|
    ensures tokens <= Run(tokens, reqs[..m]).tokens <= Run(tokens, reqs).tokens
    decreases |reqs|
  {
    if m < |reqs| {
      var n := |reqs| - 1;
      assert reqs[..n][..m] == reqs[..m];
      RunGrows(tokens, reqs[..n], m);
    } else {
      assert reqs[..m] == reqs;
      if reqs != [] {
        RunGrows(tokens, reqs[..|reqs| - 1], |reqs| - 1);
      }
    }
  }

  /** After a 200 for a token, every later request that presents the same token gets
      400 "Token already redeemed". */
  lemma RedeemedStaysRedeemed(tokens: set<Value>, reqs: seq<Request>, a: nat, b: nat, t: Value)
    requires a < b < |reqs| && !t.Obj?
    requires Presents(reqs[a], t) && Presents(reqs[b], t)
    requires Run(tokens, reqs).responses[a].statusCode == 200
    ensures Run(tokens, reqs).responses[b] == Response(400, "Token already redeemed")
  {
    RunAt(tokens, reqs, a);
    RunAt(tokens, reqs, b);
    assert reqs[..b][..a + 1] == reqs[..a + 1];
    assert reqs[..a + 1][..a] == reqs[..a];
    RunGrows(tokens, reqs[..b], a + 1);
  }

  /** At most once: no two requests for the same (non-object) token both get 200. */
  lemma RedeemedAtMostOnce(tokens: set<Value>, reqs: seq<Request>)
    ensures var responses := Run(tokens, reqs).responses;
            forall a: int, b: int, t: Value :: 0 <= a < b < |reqs| && !t.Obj? && Presents(reqs[a], t) && Presents(reqs[b], t) ==>
              responses[a].statusCode != 200 || responses[b].statusCode != 200
  {
    var responses := Run(tokens, reqs).responses;
    forall a: int, b: int, t: Value | 0 <= a < b < |reqs| && !t.Obj? && Presents(reqs[a], t) && Presents(reqs[b], t)
      ensures responses[a].statusCode != 200 || responses[b].statusCode != 200
    {
      if responses[a].statusCode == 200 {
        RedeemedStaysRedeemed(tokens, reqs, a, b, t);
      }
    }
  }

  /** A token already in the set when the requests begin is never accepted. */
  lemma InitiallyRedeemedNeverAccepted(tokens: set<Value>, reqs: seq<Request>, k: nat, t: Value)
    requires k < |reqs| && t in tokens && !t.Obj? && Presents(reqs[k], t)
    ensures Run(tokens, reqs).responses[k] == Response(400, "Token already redeemed")
  {
    RunAt(tokens, reqs, k);
    RunGrows(tokens, reqs, k);
  }
}
