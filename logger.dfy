/**
 * The structured logger's request context (request id and org id, kept per
 * request), the context prefix it puts in front of a message, and the token
 * tracker's counters and cost estimate. The cost estimate is kept as an exact
 * `real`; the random request id is passed in.
 */
module Logger {
  import opened Wrappers
  import opened Strings

  // ---------------------------------------------------------------- request context

  /** The context entries, in order: the request id, then the org id, each only when set and non-empty. */
  function ContextPairs(requestId: Option<string>, orgId: Option<string>): (c: seq<(string, string)>)
    ensures |c| <= 2 && (c == [] <==> !Truthy(requestId) && !Truthy(orgId))
    ensures Truthy(requestId) ==> c[0] == ("request_id", requestId.value)
    ensures Truthy(orgId) ==> c[|c| - 1] == ("org_id", orgId.value)
    ensures forall k :: 0 <= k < |c| ==> c[k].1 != ""
  {
    (if Truthy(requestId) then [("request_id", requestId.value)] else [])
    + (if Truthy(orgId) then [("org_id", orgId.value)] else [])
  }

  function PairTexts(c: seq<(string, string)>): (r: seq<string>)
    ensures |r| == |c| && forall k :: 0 <= k < |c| ==> r[k] == c[k].0 + "=" + c[k].1
  {
    seq(|c|, k requires 0 <= k < |c| => c[k].0 + "=" + c[k].1)
  }

  /** A message with its context: unchanged without one, else prefixed by "[key=value …] ". */
  function FormatMessage(requestId: Option<string>, orgId: Option<string>, message: string): (r: string)
    ensures !Truthy(requestId) && !Truthy(orgId) ==> r == message
    ensures |message| <= |r| && r[|r| - |message|..] == message
  {
    var c := ContextPairs(requestId, orgId);
    if c == [] then message
    else
      var prefix := "[" + Join(PairTexts(c), " ") + "] ";
      assert (prefix + message)[|prefix|..] == message;
      prefix + message
  }

  /** With both ids set the prefix names the request id first, then the org id. */
  lemma FormatMessageFullContext(requestId: string, orgId: string, message: string)
    requires requestId != "" && orgId != ""
    ensures FormatMessage(Some(requestId), Some(orgId), message)
            == "[request_id=" + requestId + " org_id=" + orgId + "] " + message
  {
    var c := ContextPairs(Some(requestId), Some(orgId));
    assert c == [("request_id", requestId), ("org_id", orgId)];
    var texts := PairTexts(c);
    var a, b := "request_id=" + requestId, "org_id=" + orgId;
    ContextLiterals();
    assert texts[0] == a && texts[1] == b;
    assert Join(texts, " ") == a + " " + Join(texts[1..], " ");
    assert "[" + (a + " " + b) + "] " + message == "[request_id=" + requestId + " org_id=" + orgId + "] " + message;
  }

  /** The key texts of the prefix, assembled from their pieces. */
  lemma ContextLiterals()
    ensures "request_id" + "=" == "request_id=" && "org_id" + "=" == "org_id="
    ensures "[" + "request_id=" == "[request_id=" && " " + "org_id=" == " org_id="
  {
  }

  /** With only the request id set the prefix holds it alone. */
  lemma FormatMessageRequestIdOnly(requestId: string, orgId: Option<string>, message: string)
    requires requestId != "" && !Truthy(orgId)
    ensures FormatMessage(Some(requestId), orgId, message) == "[request_id=" + requestId + "] " + message
  {
    var c := ContextPairs(Some(requestId), orgId);
    assert c == [("request_id", requestId)];
    assert PairTexts(c)[0] == "request_id" + "=" + requestId && "request_id" + "=" == "request_id=";
  }

  /** With only the org id set the prefix holds it alone. */
  lemma FormatMessageOrgIdOnly(requestId: Option<string>, orgId: string, message: string)
    requires !Truthy(requestId) && orgId != ""
    ensures FormatMessage(requestId, Some(orgId), message) == "[org_id=" + orgId + "] " + message
  {
    var c := ContextPairs(requestId, Some(orgId));
    assert c == [("org_id", orgId)];
    assert PairTexts(c)[0] == "org_id" + "=" + orgId && "org_id" + "=" == "org_id=";
  }

  /** The per-request context variables. */
  class LogContext {
    var requestId: Option<string>
    var orgId: Option<string>
    var agentName: Option<string>

    constructor()
      ensures requestId.None? && orgId.None? && agentName.None?
    {
      requestId, orgId, agentName := None, None, None;
    }

    /** Sets each id only when it is given non-empty; the other variables are kept. */
    method SetRequestContext(newRequestId: Option<string>, newOrgId: Option<string>)
      modifies this
      ensures requestId == if Truthy(newRequestId) then newRequestId else old(requestId)
      ensures orgId == if Truthy(newOrgId) then newOrgId else old(orgId)
      ensures agentName == old(agentName)
    {
      if Truthy(newRequestId) {
        requestId := newRequestId;
      }
      if Truthy(newOrgId) {
        orgId := newOrgId;
      }
    }

    /**
     * The current request id; when none is set, the first eight characters of
     * a fresh UUID text become the id and are stored.
     */
    method GetRequestId(uuid: string) returns (id: string)
      requires |uuid| >= 8
      modifies this
      ensures Truthy(old(requestId)) ==> id == old(requestId).value && requestId == old(requestId)
      ensures !Truthy(old(requestId)) ==> id == uuid[..8] && |id| == 8 && requestId == Some(id)
      ensures orgId == old(orgId) && agentName == old(agentName)
    {
      if Truthy(requestId) {
        id := requestId.value;
      } else {
        id := uuid[..8];
        requestId := Some(id);
      }
    }
  }

  // ---------------------------------------------------------------- token tracking

  /** Dollars per million input tokens by model name. */
  const CostPer1M: map<string, real> := map[
    "grok-4.1-fast:free" := 0.0,
    "x-ai/grok-4.1-fast:free" := 0.0,
    "gpt-4o" := 5.0,
    "openai/gpt-4o" := 5.0,
    "claude-3.5-sonnet" := 3.0,
    "anthropic/claude-3.5-sonnet" := 3.0]

  const DefaultModel: string := "grok-4.1-fast:free"

  /**
   * The input rate of a model: the full name first, then the name before the
   * first ':' when it has one, and $1 per million otherwise.
   */
  function InputRate(model: string): (rate: real)
    ensures model in CostPer1M ==> rate == CostPer1M[model]
    ensures rate >= 0.0
  {
    if model in CostPer1M then CostPer1M[model]
    else
      var base := if ':' in model then Split(model, ':')[0] else model;
      if base in CostPer1M then CostPer1M[base] else 1.0
  }

  /** An unknown name is priced by the part before its first ':', or at the default. */
  lemma InputRateByBase(model: string)
    requires model !in CostPer1M
    ensures InputRate(model) == if Before(model, ':') in CostPer1M then CostPer1M[Before(model, ':')] else 1.0
  {
    SplitFirstIsBefore(model, ':');
    if ':' !in model {
      assert IndexOf(model, ':') == |model|;
      assert Before(model, ':') == model;
    }
  }

  /** A variant `base:suffix` of a priced base name costs what the base costs. */
  lemma VariantUsesBaseRate(base: string, suffix: string)
    requires base in CostPer1M && ':' !in base
    requires base + ":" + suffix !in CostPer1M
    ensures InputRate(base + ":" + suffix) == CostPer1M[base]
  {
    SplitAtFirst(base, ':', suffix);
  }

  /** Only the two free grok names are free: every other name, a bare "grok-4.1-fast" included, costs something. */
  lemma FreeExactlyForFreeGrok(model: string)
    ensures InputRate(model) == 0.0 <==> model == "grok-4.1-fast:free" || model == "x-ai/grok-4.1-fast:free"
  {
    if model !in CostPer1M {
      InputRateByBase(model);
      var base := Before(model, ':');
      SplitFirstIsBefore(model, ':');
      ColonInside("grok-4.1-fast", "free");
      ColonInside("x-ai/grok-4.1-fast", "free");
      assert base != "grok-4.1-fast:free" && base != "x-ai/grok-4.1-fast:free";
    }
  }

  lemma ColonInside(a: string, b: string)
    ensures ':' in a + ":" + b
  {
    assert (a + ":" + b)[|a|] == ':';
  }

  /** The estimated cost of one call: output tokens are priced at three times the input rate. */
  function UsageCost(promptTokens: int, completionTokens: int, model: string): (c: real)
    ensures promptTokens >= 0 && completionTokens >= 0 ==> c >= 0.0
  {
    PerMillion(promptTokens, InputRate(model)) + PerMillion(completionTokens, InputRate(model) * 3.0)
  }

  /** The price of `tokens` tokens at `rate` dollars per million. */
  function PerMillion(tokens: int, rate: real): (c: real)
    ensures tokens >= 0 && rate >= 0.0 ==> c >= 0.0
    ensures tokens > 0 && rate > 0.0 ==> c > 0.0
  {
    (tokens as real / 1000000.0) * rate
  }

  /** Calls on a free model cost nothing; calls with tokens on any other model cost something. */
  lemma UsageCostSign(promptTokens: nat, completionTokens: nat, model: string)
    ensures model == DefaultModel ==> UsageCost(promptTokens, completionTokens, model) == 0.0
    ensures promptTokens + completionTokens > 0 && model != "grok-4.1-fast:free" && model != "x-ai/grok-4.1-fast:free"
            ==> UsageCost(promptTokens, completionTokens, model) > 0.0
  {
    FreeExactlyForFreeGrok(model);
  }

  /** The rate lookup: full name, then the name before ':', then the default. */
  method LookupRate(model: string) returns (inputCost: real)
    ensures inputCost == InputRate(model)
  {
    if model in CostPer1M {
      inputCost := CostPer1M[model];
    } else {
      var modelBase := if ':' in model then Split(model, ':')[0] else model;
      inputCost := if modelBase in CostPer1M then CostPer1M[modelBase] else 1.0;
    }
  }

  class TokenTracker {
    var totalTokens: int
    var promptTokens: int
    var completionTokens: int
    var costEstimate: real

    /** The total is always the sum of the two counters. */
    ghost predicate Valid()
      reads this
    {
      totalTokens == promptTokens + completionTokens
    }

    constructor()
      ensures totalTokens == 0 && promptTokens == 0 && completionTokens == 0 && costEstimate == 0.0
      ensures Valid()
    {
      totalTokens, promptTokens, completionTokens, costEstimate := 0, 0, 0, 0.0;
    }

    /** Adds one call's tokens to the counters and its estimated cost to the running estimate. */
    method RecordUsage(prompt: int, completion: int, model: string)
      modifies this
      ensures promptTokens == old(promptTokens) + prompt
      ensures completionTokens == old(completionTokens) + completion
      ensures totalTokens == promptTokens + completionTokens && Valid()
      ensures costEstimate == old(costEstimate) + UsageCost(prompt, completion, model)
    {
      promptTokens := promptTokens + prompt;
      completionTokens := completionTokens + completion;
      totalTokens := promptTokens + completionTokens;
      var inputCost := LookupRate(model);
      var outputCost := inputCost * 3.0;
      costEstimate := costEstimate + PerMillion(prompt, inputCost);
      costEstimate := costEstimate + PerMillion(completion, outputCost);
    }
  }
}
