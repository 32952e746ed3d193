/**
 * The sales agent's tools: `search_leads` (an Exa search whose results are
 * reduced to title, url and at most 500 characters of text, with its error
 * mapping) and `store_leads` (one Convex mutation per lead, counting the
 * stored and the failed ones). HTTP replies are passed in.
 */
module SalesAgent {
  import opened Wrappers
  import opened Strings
  import opened Exceptions

  // ---------------------------------------------------------------- search_leads

  /** One Exa search result; a `None` field is a key missing from the JSON object. */
  datatype ExaResult = ExaResult(title: Option<string>, url: Option<string>, text: Option<string>)

  /** What is kept of a result for the model: title, url and the first 500 characters of text. */
  datatype SimplifiedResult = SimplifiedResult(title: Option<string>, url: Option<string>, text: string)

  /** The reply to the search request: a body with an optional "results" list, or an error. */
  datatype SearchReply =
    | SearchOk(results: Option<seq<ExaResult>>)
    | SearchHttpError(code: int)
    | SearchTimeout
    | SearchRaised(text: string)

  /** The JSON body of the search request. */
  datatype SearchRequest = SearchRequest(query: string, numResults: int, useAutoprompt: bool, withText: bool, apiKey: string)

  function Simplified(res: ExaResult): (s: SimplifiedResult)
    ensures s.title == res.title && s.url == res.url
    ensures |s.text| <= 500 && s.text <= res.text.GetOr("")
    ensures |res.text.GetOr("")| <= 500 ==> s.text == res.text.GetOr("")
  {
    SimplifiedResult(res.title, res.url, Take(res.text.GetOr(""), 500))
  }

  /** The simplification of a result list, in search order. */
  function SimplifyAll(results: seq<ExaResult>): (r: seq<SimplifiedResult>)
    ensures |r| == |results|
    ensures forall i :: 0 <= i < |results| ==> r[i] == Simplified(results[i])
  {
    seq(|results|, i requires 0 <= i < |results| => Simplified(results[i]))
  }

  /** Simplifying keeps the order: it distributes over concatenation. */
  lemma SimplifyAllConcat(a: seq<ExaResult>, b: seq<ExaResult>)
    ensures SimplifyAll(a + b) == SimplifyAll(a) + SimplifyAll(b)
  {
  }

  /** The loop that builds `simplified`. */
  method Simplify(results: seq<ExaResult>) returns (simplified: seq<SimplifiedResult>)
    ensures simplified == SimplifyAll(results)
  {
    simplified := [];
    var i := 0;
    while i < |results|
      invariant 0 <= i <= |results|
      invariant simplified == SimplifyAll(results[..i])
    {
      var res := results[i];
      simplified := simplified + [SimplifiedResult(res.title, res.url, Take(res.text.GetOr(""), 500))];
      i := i + 1;
    }
    assert results[..i] == results;
  }

  /** The `ExaError` raised for a search reply that is not a result body. */
  function SearchFailure(reply: SearchReply): (e: ServiceError)
    requires !reply.SearchOk?
    ensures e.errorClass == Exa && e.status == 502 && e.retryable && e.retryAfterSeconds.None?
    ensures reply.SearchTimeout? <==> e.code == ExaTimeout
    ensures reply.SearchHttpError? && reply.code == 429 <==> e.code == ExaRateLimit
    ensures e.code == ExaApiError <==> (reply.SearchHttpError? && reply.code != 429) || reply.SearchRaised?
  {
    match reply
    case SearchTimeout => ProviderErr(Exa, "Request timed out while searching Exa", ExaTimeout, true, None)
    case SearchHttpError(code) =>
      if code == 429 then ProviderErr(Exa, "Exa API rate limit exceeded", ExaRateLimit, true, None)
      else ProviderErr(Exa, "Exa API error (HTTP " + IntToString(code) + ")", ExaApiError, true, None)
    case SearchRaised(text) => ProviderErr(Exa, "Error searching Exa: " + text, ExaApiError, true, None)
  }

  const MissingExaKey: ServiceError := ProviderErr(Exa, "Exa API key not configured", ConfigMissingEnv, true, None)

  /**
   * One call of `search_leads`: without a key it raises before any request;
   * otherwise it sends one search and simplifies the results or maps the error.
   * The `str(...)` rendering of the list is not modelled.
   */
  method SearchLeads(exaKey: string, query: string, reply: SearchReply)
    returns (r: Result<seq<SimplifiedResult>, ServiceError>, request: Option<SearchRequest>)
    ensures exaKey == "" ==> r == Failure(MissingExaKey) && r.error.code == ConfigMissingEnv && request.None?
    ensures exaKey != "" ==> request == Some(SearchRequest(query, 10, true, true, exaKey))
    ensures exaKey != "" && reply.SearchOk? ==> r == Success(SimplifyAll(reply.results.GetOr([])))
    ensures exaKey != "" && !reply.SearchOk? ==> r == Failure(SearchFailure(reply))
  {
    if exaKey == "" {
      return Failure(MissingExaKey), None;
    }
    request := Some(SearchRequest(query, 10, true, true, exaKey));
    match reply
    case SearchOk(results) =>
      var simplified := Simplify(results.GetOr([]));
      r := Success(simplified);
    case _ =>
      r := Failure(SearchFailure(reply));
  }

  // ---------------------------------------------------------------- store_leads

  datatype Lead = Lead(companyName: string, website: Option<string>, description: string, score: int, status: string)

  /** The arguments of one `leads:create` mutation. */
  datatype LeadPayload = LeadPayload(companyName: string, website: Option<string>, score: int, status: string, description: string)

  /** One mutation request: its URL, path, arguments and authorisation header. */
  datatype MutationRequest = MutationRequest(url: string, path: string, args: LeadPayload, authorization: string)

  /** The reply to one lead's request: a status code, or an exception. */
  datatype LeadReply = Posted(status: int) | PostRaised(text: string)

  function PayloadOf(lead: Lead): (p: LeadPayload)
    ensures p.companyName == lead.companyName && p.website == lead.website && p.score == lead.score
    ensures p.status == lead.status && p.description == lead.description
  {
    LeadPayload(lead.companyName, lead.website, lead.score, lead.status, lead.description)
  }

  function RequestFor(convexUrl: string, convexToken: string, lead: Lead): MutationRequest
  {
    MutationRequest(convexUrl + "/api/mutation", "leads:create", PayloadOf(lead), "Bearer " + convexToken)
  }

  /** The requests for the leads, one each, in order. */
  function Requests(convexUrl: string, convexToken: string, leads: seq<Lead>): (r: seq<MutationRequest>)
    ensures |r| == |leads|
    ensures forall i :: 0 <= i < |leads| ==> r[i].args == PayloadOf(leads[i]) && r[i].path == "leads:create"
  {
    seq(|leads|, i requires 0 <= i < |leads| => RequestFor(convexUrl, convexToken, leads[i]))
  }

  predicate Stored(reply: LeadReply)
  {
    reply.Posted? && reply.status == 200
  }

  /** How many of the first `n` leads were stored. */
  function StoredCount(reply: nat -> LeadReply, n: nat): (c: nat)
    ensures c <= n
  {
    if n == 0 then 0 else StoredCount(reply, n - 1) + (if Stored(reply(n - 1)) then 1 else 0)
  }

  /** All leads stored exactly when every reply is a 200. */
  lemma {:induction false} StoredCountAll(reply: nat -> LeadReply, n: nat)
    ensures StoredCount(reply, n) == n <==> forall k :: 0 <= k < n ==> Stored(reply(k))
  {
    if n > 0 {
      StoredCountAll(reply, n - 1);
    }
  }

  function StoredText(success: nat, failed: nat): string
  {
    "Stored " + NatToString(success) + " leads. (" + NatToString(failed) + " failed)"
  }

  const MissingConvexCredentials: ServiceError :=
    BackendErr(Convex, "Convex URL or token not configured", ConfigMissingEnv, true)

  /**
   * One call of `store_leads`: without a Convex URL or token it raises before
   * any request; otherwise it posts every lead once, counts a 200 as stored and
   * anything else, an exception included, as failed, and reports both counts.
   */
  method StoreLeads(convexUrl: string, convexToken: string, leads: seq<Lead>, reply: nat -> LeadReply)
    returns (r: Result<string, ServiceError>, requests: seq<MutationRequest>, success: nat, failed: nat)
    ensures convexUrl == "" || convexToken == "" ==>
              r == Failure(MissingConvexCredentials) && requests == [] && success == 0 && failed == 0
    ensures convexUrl != "" && convexToken != "" ==>
              && requests == Requests(convexUrl, convexToken, leads)
              && success + failed == |leads|
              && success == StoredCount(reply, |leads|)
              && r == Success(StoredText(success, failed))
  {
    if convexUrl == "" || convexToken == "" {
      return Failure(MissingConvexCredentials), [], 0, 0;
    }
    requests := [];
    success, failed := 0, 0;
    var i := 0;
    while i < |leads|
      invariant 0 <= i <= |leads|
      invariant requests == Requests(convexUrl, convexToken, leads[..i])
      invariant success == StoredCount(reply, i) && success + failed == i
    {
      var lead := leads[i];
      var payload := LeadPayload(lead.companyName, lead.website, lead.score, lead.status, lead.description);
      requests := requests + [MutationRequest(convexUrl + "/api/mutation", "leads:create", payload, "Bearer " + convexToken)];
      match reply(i) {
        case Posted(status) =>
          if status == 200 {
            success := success + 1;
          } else {
            failed := failed + 1;
          }
        case PostRaised(_) =>
          failed := failed + 1;
      }
      i := i + 1;
    }
    assert leads[..i] == leads;
    r := Success("Stored " + NatToString(success) + " leads. (" + NatToString(failed) + " failed)");
  }
}
