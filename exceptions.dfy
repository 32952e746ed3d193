/**
 * The API's error taxonomy: stable error codes, the structured service error
 * with its status code and retry hints, its response-body rendering, and the
 * mapping from an upstream HTTP status to a service error.
 */
module Exceptions {
  import opened Wrappers
  import opened Strings

  datatype ErrorCode =
    | AuthInvalidKey | AuthMissingKey | AuthExpiredKey
    | GammaApiError | GammaTimeout | GammaRateLimit | GammaCredits
    | ExaApiError | ExaTimeout | ExaRateLimit
    | FirecrawlApiError | FirecrawlTimeout | FirecrawlScrapeFailed
    | Mem0ApiError | Mem0Timeout
    | ConvexApiError | ConvexTimeout | ConvexMutationFailed
    | OpenRouterApiError | OpenRouterTimeout | OpenRouterRateLimit
    | ValidationMissingField | ValidationInvalidUrl | ValidationInvalidFormat
    | ValidationTemplateNotFound | ValidationModelNotFound
    | AgentExecutionFailed | AgentTimeout | AgentOutputValidation
    | ConfigMissingEnv | ConfigInvalid
    | InternalError | UnknownError

  /** The stable string carried in responses as `error_code`. */
  function CodeValue(c: ErrorCode): string
  {
    match c
    case AuthInvalidKey => "AUTH_001"
    case AuthMissingKey => "AUTH_002"
    case AuthExpiredKey => "AUTH_003"
    case GammaApiError => "EXT_001"
    case GammaTimeout => "EXT_002"
    case GammaRateLimit => "EXT_003"
    case GammaCredits => "EXT_004"
    case ExaApiError => "EXT_010"
    case ExaTimeout => "EXT_011"
    case ExaRateLimit => "EXT_012"
    case FirecrawlApiError => "EXT_020"
    case FirecrawlTimeout => "EXT_021"
    case FirecrawlScrapeFailed => "EXT_022"
    case Mem0ApiError => "EXT_030"
    case Mem0Timeout => "EXT_031"
    case ConvexApiError => "EXT_040"
    case ConvexTimeout => "EXT_041"
    case ConvexMutationFailed => "EXT_042"
    case OpenRouterApiError => "EXT_050"
    case OpenRouterTimeout => "EXT_051"
    case OpenRouterRateLimit => "EXT_052"
    case ValidationMissingField => "VAL_001"
    case ValidationInvalidUrl => "VAL_002"
    case ValidationInvalidFormat => "VAL_003"
    case ValidationTemplateNotFound => "VAL_004"
    case ValidationModelNotFound => "VAL_005"
    case AgentExecutionFailed => "AGT_001"
    case AgentTimeout => "AGT_002"
    case AgentOutputValidation => "AGT_003"
    case ConfigMissingEnv => "CFG_001"
    case ConfigInvalid => "CFG_002"
    case InternalError => "INT_001"
    case UnknownError => "INT_999"
  }

  /** Reads an `error_code` string back; the inverse of `CodeValue`. */
  function CodeFromValue(s: string): Option<ErrorCode>
  {
    match s
    case "AUTH_001" => Some(AuthInvalidKey)
    case "AUTH_002" => Some(AuthMissingKey)
    case "AUTH_003" => Some(AuthExpiredKey)
    case "EXT_001" => Some(GammaApiError)
    case "EXT_002" => Some(GammaTimeout)
    case "EXT_003" => Some(GammaRateLimit)
    case "EXT_004" => Some(GammaCredits)
    case "EXT_010" => Some(ExaApiError)
    case "EXT_011" => Some(ExaTimeout)
    case "EXT_012" => Some(ExaRateLimit)
    case "EXT_020" => Some(FirecrawlApiError)
    case "EXT_021" => Some(FirecrawlTimeout)
    case "EXT_022" => Some(FirecrawlScrapeFailed)
    case "EXT_030" => Some(Mem0ApiError)
    case "EXT_031" => Some(Mem0Timeout)
    case "EXT_040" => Some(ConvexApiError)
    case "EXT_041" => Some(ConvexTimeout)
    case "EXT_042" => Some(ConvexMutationFailed)
    case "EXT_050" => Some(OpenRouterApiError)
    case "EXT_051" => Some(OpenRouterTimeout)
    case "EXT_052" => Some(OpenRouterRateLimit)
    case "VAL_001" => Some(ValidationMissingField)
    case "VAL_002" => Some(ValidationInvalidUrl)
    case "VAL_003" => Some(ValidationInvalidFormat)
    case "VAL_004" => Some(ValidationTemplateNotFound)
    case "VAL_005" => Some(ValidationModelNotFound)
    case "AGT_001" => Some(AgentExecutionFailed)
    case "AGT_002" => Some(AgentTimeout)
    case "AGT_003" => Some(AgentOutputValidation)
    case "CFG_001" => Some(ConfigMissingEnv)
    case "CFG_002" => Some(ConfigInvalid)
    case "INT_001" => Some(InternalError)
    case "INT_999" => Some(UnknownError)
    case _ => None
  }

  /** Every code can be read back from its string. */
  lemma CodeValueRoundTrip(c: ErrorCode)
    ensures CodeFromValue(CodeValue(c)) == Some(c)
  {
  }

  /** No two codes share a string value. */
  lemma CodeValuesUnique(a: ErrorCode, b: ErrorCode)
    ensures CodeValue(a) == CodeValue(b) ==> a == b
  {
    CodeValueRoundTrip(a);
    CodeValueRoundTrip(b);
  }

  datatype Category = Auth | External | Validation | Agent | Config | General

  function CategoryOf(c: ErrorCode): Category
  {
    match c
    case AuthInvalidKey | AuthMissingKey | AuthExpiredKey => Auth
    case ValidationMissingField | ValidationInvalidUrl | ValidationInvalidFormat
      | ValidationTemplateNotFound | ValidationModelNotFound => Validation
    case AgentExecutionFailed | AgentTimeout | AgentOutputValidation => Agent
    case ConfigMissingEnv | ConfigInvalid => Config
    case InternalError | UnknownError => General
    case _ => External
  }

  function CategoryPrefix(k: Category): string
  {
    match k
    case Auth => "AUTH_"
    case External => "EXT_"
    case Validation => "VAL_"
    case Agent => "AGT_"
    case Config => "CFG_"
    case General => "INT_"
  }

  /** Each code's string starts with its category's prefix and ends in three digits. */
  lemma CodeValueFormat(c: ErrorCode)
    ensures StartsWith(CodeValue(c), CategoryPrefix(CategoryOf(c)))
    ensures |CodeValue(c)| == |CategoryPrefix(CategoryOf(c))| + 3
    ensures forall i :: |CodeValue(c)| - 3 <= i < |CodeValue(c)| ==> IsDigit(CodeValue(c)[i])
  {
  }

  /** The exception classes of the taxonomy. */
  datatype ErrorClass =
    | AgentService | Authentication | ExternalService
    | Gamma | Exa | Firecrawl | Mem0 | Convex | OpenRouter
    | ValidationClass | AgentExecution | Configuration

  datatype DetailValue = Text(text: string) | Names(names: seq<string>)

  /** A raised service error with everything the API reports about it. */
  datatype ServiceError = ServiceError(
    errorClass: ErrorClass,
    message: string,
    code: ErrorCode,
    status: int,
    retryable: bool,
    retryAfterSeconds: Option<int>,
    details: map<string, DetailValue>)

  /** The base service error (used directly by the external-service base class). */
  function AgentServiceErr(cls: ErrorClass, message: string, code: ErrorCode, status: int,
                           retryable: bool, retryAfter: Option<int>,
                           details: map<string, DetailValue>): (e: ServiceError)
    ensures e.errorClass == cls && e.message == message && e.code == code
    ensures e.status == status && e.retryable == retryable
    ensures e.retryAfterSeconds == retryAfter && e.details == details
  {
    ServiceError(cls, message, code, status, retryable, retryAfter, details)
  }

  /** Authentication errors: 401 only for a missing key, 403 otherwise; never retryable. */
  function AuthenticationErr(message: string, code: ErrorCode, details: map<string, DetailValue>): (e: ServiceError)
    ensures e.status == 401 <==> code == AuthMissingKey
    ensures e.status == 401 || e.status == 403
    ensures !e.retryable && e.retryAfterSeconds == None && e.code == code
  {
    AgentServiceErr(Authentication, message, code, if code == AuthMissingKey then 401 else 403, false, None, details)
  }

  /** Whether an external-service class takes a `retry_after_seconds` argument. */
  predicate AcceptsRetryAfter(cls: ErrorClass)
  {
    cls in {Gamma, Exa, OpenRouter, AgentService, ExternalService}
  }

  /** Gamma, Exa and OpenRouter errors: 502, with an optional retry hint. */
  function ProviderErr(cls: ErrorClass, message: string, code: ErrorCode, retryable: bool,
                       retryAfter: Option<int>): (e: ServiceError)
    requires cls in {Gamma, Exa, OpenRouter}
    ensures e.status == 502 && e.errorClass == cls && e.details == map[]
    ensures e.code == code && e.retryable == retryable && e.retryAfterSeconds == retryAfter
  {
    AgentServiceErr(cls, message, code, 502, retryable, retryAfter, map[])
  }

  /** Firecrawl, Mem0 and Convex errors: 502, and no retry hint can be given. */
  function BackendErr(cls: ErrorClass, message: string, code: ErrorCode, retryable: bool): (e: ServiceError)
    requires cls in {Firecrawl, Mem0, Convex}
    ensures e.status == 502 && e.errorClass == cls && e.details == map[]
    ensures e.code == code && e.retryable == retryable && e.retryAfterSeconds == None
  {
    AgentServiceErr(cls, message, code, 502, retryable, None, map[])
  }

  /** Validation errors: 400, not retryable, with the offending field in the details when named. */
  function ValidationErr(message: string, code: ErrorCode, field: string,
                         details: map<string, DetailValue>): (e: ServiceError)
    ensures e.status == 400 && !e.retryable
    ensures field != "" ==> "field" in e.details && e.details["field"] == Text(field)
    ensures field == "" ==> e.details == details
    ensures forall k :: k in details && k != "field" ==> k in e.details && e.details[k] == details[k]
  {
    var d := if field != "" then details["field" := Text(field)] else details;
    AgentServiceErr(ValidationClass, message, code, 400, false, None, d)
  }

  /** Agent execution errors: 500 and the agent's name in the details. */
  function AgentExecutionErr(message: string, agentName: string, code: ErrorCode, retryable: bool): (e: ServiceError)
    ensures e.errorClass == AgentExecution && e.message == message && e.code == code
    ensures e.status == 500 && e.retryable == retryable && e.retryAfterSeconds.None?
    ensures e.details == map["agent" := Text(agentName)]
  {
    AgentServiceErr(AgentExecution, message, code, 500, retryable, None, map["agent" := Text(agentName)])
  }

  /** Configuration errors: 500, not retryable, listing missing variables when there are any. */
  function ConfigurationErr(message: string, missingVars: seq<string>, code: ErrorCode): (e: ServiceError)
    ensures e.errorClass == Configuration && e.message == message && e.code == code
    ensures e.status == 500 && !e.retryable && e.retryAfterSeconds.None?
    ensures "missing_variables" in e.details <==> |missingVars| > 0
    ensures |missingVars| > 0 ==> e.details == map["missing_variables" := Names(missingVars)]
    ensures |missingVars| == 0 ==> e.details == map[]
  {
    var d := if |missingVars| > 0 then map["missing_variables" := Names(missingVars)] else map[];
    AgentServiceErr(Configuration, message, code, 500, false, None, d)
  }

  /** The JSON body rendered by `to_dict`; absent optional keys are `None`. */
  datatype ErrorBody = ErrorBody(
    error: string,
    errorCode: string,
    retryable: bool,
    retryAfterSeconds: Option<int>,
    details: Option<map<string, DetailValue>>)

  function ToDict(e: ServiceError): (b: ErrorBody)
    ensures b.error == e.message && b.retryable == e.retryable
    ensures CodeFromValue(b.errorCode) == Some(e.code)
    ensures b.retryAfterSeconds.Some? <==> e.retryAfterSeconds.Some? && e.retryAfterSeconds.value != 0
    ensures b.retryAfterSeconds.Some? ==> b.retryAfterSeconds == e.retryAfterSeconds
    ensures b.details.Some? <==> e.details != map[]
    ensures b.details.Some? ==> b.details.value == e.details
  {
    CodeValueRoundTrip(e.code);
    ErrorBody(
      e.message,
      CodeValue(e.code),
      e.retryable,
      if e.retryAfterSeconds.Some? && e.retryAfterSeconds.value != 0 then e.retryAfterSeconds else None,
      if e.details != map[] then Some(e.details) else None)
  }

  /** A constructor call that Python rejects: an unexpected keyword argument. */
  datatype ConstructionError = UnexpectedKeyword(errorClass: ErrorClass, keyword: string)

  /**
   * Calls a service error class with `message`, `error_code`, `retryable` and, when given,
   * `retry_after_seconds`. Classes whose constructor has no such parameter fail with a TypeError.
   */
  function BuildServiceError(cls: ErrorClass, message: string, code: ErrorCode, retryable: bool,
                             retryAfter: Option<int>): (r: Result<ServiceError, ConstructionError>)
    requires cls in {Gamma, Exa, Firecrawl, Mem0, Convex, OpenRouter, ExternalService}
    ensures r.Failure? <==> retryAfter.Some? && !AcceptsRetryAfter(cls)
    ensures r.Success? ==> r.value.errorClass == cls && r.value.code == code
                           && r.value.retryable == retryable && r.value.message == message
                           && r.value.status == (if cls == ExternalService then 500 else 502)
  {
    if cls == ExternalService then
      Success(AgentServiceErr(ExternalService, message, code, 500, retryable, retryAfter, map[]))
    else if cls in {Gamma, Exa, OpenRouter} then
      Success(ProviderErr(cls, message, code, retryable, retryAfter))
    else if retryAfter.Some? then
      Failure(UnexpectedKeyword(cls, "retry_after_seconds"))
    else
      Success(BackendErr(cls, message, code, retryable))
  }

  /** The per-service entry of the status mapping: class, API code, rate-limit code, timeout code. */
  datatype ServiceEntry = ServiceEntry(cls: ErrorClass, apiCode: ErrorCode, rateCode: ErrorCode, timeoutCode: ErrorCode)

  function ServiceEntryFor(serviceName: string): (s: ServiceEntry)
    ensures s.cls in {Gamma, Exa, Firecrawl, Mem0, Convex, OpenRouter, ExternalService}
    ensures s.cls == ExternalService <==>
              Lower(serviceName) !in {"gamma", "exa", "firecrawl", "mem0", "convex", "openrouter"}
    ensures Lower(serviceName) == "gamma" ==> s == ServiceEntry(Gamma, GammaApiError, GammaRateLimit, GammaTimeout)
    ensures Lower(serviceName) == "exa" ==> s == ServiceEntry(Exa, ExaApiError, ExaRateLimit, ExaTimeout)
    ensures Lower(serviceName) == "firecrawl" ==>
              s == ServiceEntry(Firecrawl, FirecrawlApiError, FirecrawlApiError, FirecrawlTimeout)
    ensures Lower(serviceName) == "mem0" ==> s == ServiceEntry(Mem0, Mem0ApiError, Mem0ApiError, Mem0Timeout)
    ensures Lower(serviceName) == "convex" ==> s == ServiceEntry(Convex, ConvexApiError, ConvexApiError, ConvexTimeout)
    ensures Lower(serviceName) == "openrouter" ==>
              s == ServiceEntry(OpenRouter, OpenRouterApiError, OpenRouterRateLimit, OpenRouterTimeout)
    ensures s.cls == ExternalService ==> s == ServiceEntry(ExternalService, UnknownError, UnknownError, UnknownError)
  {
    match Lower(serviceName)
    case "gamma" => ServiceEntry(Gamma, GammaApiError, GammaRateLimit, GammaTimeout)
    case "exa" => ServiceEntry(Exa, ExaApiError, ExaRateLimit, ExaTimeout)
    case "firecrawl" => ServiceEntry(Firecrawl, FirecrawlApiError, FirecrawlApiError, FirecrawlTimeout)
    case "mem0" => ServiceEntry(Mem0, Mem0ApiError, Mem0ApiError, Mem0Timeout)
    case "convex" => ServiceEntry(Convex, ConvexApiError, ConvexApiError, ConvexTimeout)
    case "openrouter" => ServiceEntry(OpenRouter, OpenRouterApiError, OpenRouterRateLimit, OpenRouterTimeout)
    case _ => ServiceEntry(ExternalService, UnknownError, UnknownError, UnknownError)
  }

  /** A named service's codes are all external-service codes; the generic entry's are general ones. */
  lemma ServiceEntryCategories(serviceName: string)
    ensures var s := ServiceEntryFor(serviceName);
            var k := if s.cls == ExternalService then General else External;
            CategoryOf(s.apiCode) == k && CategoryOf(s.rateCode) == k && CategoryOf(s.timeoutCode) == k
  {
  }

  /** The service name is matched without regard to case. */
  lemma ServiceEntryIgnoresCase(serviceName: string)
    ensures ServiceEntryFor(Lower(serviceName)) == ServiceEntryFor(serviceName)
  {
    assert Lower(Lower(serviceName)) == Lower(serviceName) by {
      forall i | 0 <= i < |serviceName|
        ensures Lower(Lower(serviceName))[i] == Lower(serviceName)[i]
      {
        assert LowerChar(LowerChar(serviceName[i])) == LowerChar(serviceName[i]);
      }
    }
  }

  /** Which branch of the status mapping a code falls in, with the retry hint it carries. */
  datatype StatusBranch = InvalidCredentials | NoCredits | RateLimited | TimedOut | ServerError | ClientError

  function BranchOf(status: int): StatusBranch
  {
    if status == 401 then InvalidCredentials
    else if status == 402 then NoCredits
    else if status == 429 then RateLimited
    else if status == 408 || status == 504 then TimedOut
    else if status >= 500 then ServerError
    else ClientError
  }

  /** The error message `handle_http_status` gives for each branch. */
  function StatusMessage(serviceName: string, status: int, responseText: string): string
  {
    match BranchOf(status)
    case InvalidCredentials => serviceName + " API: Invalid credentials"
    case NoCredits => serviceName + " API: Insufficient credits or subscription required"
    case RateLimited => serviceName + " API: Rate limit exceeded"
    case TimedOut => serviceName + " API: Request timeout"
    case ServerError => serviceName + " API: Server error (" + IntToString(status) + ")"
    case ClientError => serviceName + " API error (" + IntToString(status) + "): " + Take(responseText, 200)
  }

  function IntToString(n: int): string
  {
    if n < 0 then "-" + NatToString(-n) else NatToString(n)
  }

  /**
   * `handle_http_status` as written: the 429 branch passes `retry_after_seconds=60`
   * to every service class, which the Firecrawl, Mem0 and Convex classes do not accept.
   */
  function HandleHttpStatus(status: int, serviceName: string, responseText: string): (r: Result<ServiceError, ConstructionError>)
  {
    var entry := ServiceEntryFor(serviceName);
    var msg := StatusMessage(serviceName, status, responseText);
    match BranchOf(status)
    case InvalidCredentials => Success(AuthenticationErr(msg, AuthInvalidKey, map[]))
    case NoCredits => BuildServiceError(entry.cls, msg, entry.apiCode, false, None)
    case RateLimited => BuildServiceError(entry.cls, msg, entry.rateCode, true, Some(60))
    case TimedOut => BuildServiceError(entry.cls, msg, entry.timeoutCode, true, None)
    case ServerError => BuildServiceError(entry.cls, msg, entry.apiCode, true, None)
    case ClientError => BuildServiceError(entry.cls, msg, entry.apiCode, false, None)
  }

  /** The rate-limit branch cannot build its error for Firecrawl, Mem0 or Convex. */
  lemma HandleHttpStatusRateLimitTypeError(responseText: string)
    ensures HandleHttpStatus(429, "firecrawl", responseText).Failure?
    ensures HandleHttpStatus(429, "mem0", responseText).Failure?
    ensures HandleHttpStatus(429, "convex", responseText).Failure?
  {
    assert Lower("firecrawl") == "firecrawl";
    assert Lower("mem0") == "mem0";
    assert Lower("convex") == "convex";
  }

  /**
   * The mapping as evidently intended: every status yields an error. Services whose class
   * carries no retry hint get the rate-limit error without it.
   */
  function HandleHttpStatusCorrected(status: int, serviceName: string, responseText: string): (e: ServiceError)
  {
    var entry := ServiceEntryFor(serviceName);
    var hint := if BranchOf(status) == RateLimited && AcceptsRetryAfter(entry.cls) then Some(60) else None;
    var msg := StatusMessage(serviceName, status, responseText);
    match BranchOf(status)
    case InvalidCredentials => AuthenticationErr(msg, AuthInvalidKey, map[])
    case NoCredits => BuildServiceError(entry.cls, msg, entry.apiCode, false, None).value
    case RateLimited => BuildServiceError(entry.cls, msg, entry.rateCode, true, hint).value
    case TimedOut => BuildServiceError(entry.cls, msg, entry.timeoutCode, true, None).value
    case ServerError => BuildServiceError(entry.cls, msg, entry.apiCode, true, None).value
    case ClientError => BuildServiceError(entry.cls, msg, entry.apiCode, false, None).value
  }

  /**
   * What the corrected mapping promises for every status and service: 401 is an
   * authentication error (status 403); otherwise the service's class, status 502 for a
   * known service and 500 for an unknown one; retryable exactly for 429, 408, 504 and
   * 5xx; the code is the service's rate-limit, timeout or API code by branch.
   */
  lemma HandleHttpStatusCorrectedSpec(status: int, serviceName: string, responseText: string)
    ensures var e := HandleHttpStatusCorrected(status, serviceName, responseText);
            var entry := ServiceEntryFor(serviceName);
            && (status == 401 ==> e.errorClass == Authentication && e.code == AuthInvalidKey && e.status == 403)
            && (status != 401 ==>
                  e.errorClass == entry.cls && e.status == (if entry.cls == ExternalService then 500 else 502))
            && (status != 401 ==> (e.retryable <==> status == 429 || status == 408 || status == 504 || status >= 500))
            && (status == 429 ==> e.code == entry.rateCode)
            && ((status == 408 || status == 504) ==> e.code == entry.timeoutCode)
            && (status != 401 && status != 429 && status != 408 && status != 504 ==> e.code == entry.apiCode)
            && (e.retryAfterSeconds.Some? <==> status == 429 && AcceptsRetryAfter(entry.cls))
  {
    var entry := ServiceEntryFor(serviceName);
    var msg := StatusMessage(serviceName, status, responseText);
    match BranchOf(status)
    case InvalidCredentials =>
    case NoCredits =>
      assert HandleHttpStatusCorrected(status, serviceName, responseText)
        == BuildServiceError(entry.cls, msg, entry.apiCode, false, None).value;
    case RateLimited =>
    case TimedOut =>
      assert HandleHttpStatusCorrected(status, serviceName, responseText)
        == BuildServiceError(entry.cls, msg, entry.timeoutCode, true, None).value;
    case ServerError =>
      assert HandleHttpStatusCorrected(status, serviceName, responseText)
        == BuildServiceError(entry.cls, msg, entry.apiCode, true, None).value;
    case ClientError =>
      assert HandleHttpStatusCorrected(status, serviceName, responseText)
        == BuildServiceError(entry.cls, msg, entry.apiCode, false, None).value;
  }

  /** Wherever the written mapping produces an error, the corrected one produces the same error. */
  lemma HandleHttpStatusCorrectedAgrees(status: int, serviceName: string, responseText: string)
    ensures HandleHttpStatus(status, serviceName, responseText).Success? ==>
              HandleHttpStatus(status, serviceName, responseText).value
              == HandleHttpStatusCorrected(status, serviceName, responseText)
    ensures HandleHttpStatus(status, serviceName, responseText).Failure? <==>
              status == 429 && ServiceEntryFor(serviceName).cls in {Firecrawl, Mem0, Convex}
  {
  }

  /** A 401 from Gamma is an invalid-key authentication error. */
  lemma InvalidCredentialsExample()
    ensures HandleHttpStatus(401, "gamma", "").Success?
    ensures HandleHttpStatus(401, "gamma", "").value.errorClass == Authentication
    ensures HandleHttpStatus(401, "gamma", "").value.code == AuthInvalidKey
  {
  }

  /** A 402 from Gamma is a Gamma error that is not retryable. */
  lemma NoCreditsExample()
    ensures HandleHttpStatus(402, "gamma", "").Success?
    ensures HandleHttpStatus(402, "gamma", "").value.errorClass == Gamma
    ensures !HandleHttpStatus(402, "gamma", "").value.retryable
  {
    assert Lower("gamma") == "gamma";
  }

  /** A 429 from Exa is Exa's retryable rate-limit error with a 60-second hint. */
  lemma RateLimitExample()
    ensures HandleHttpStatus(429, "exa", "").Success?
    ensures HandleHttpStatus(429, "exa", "").value.errorClass == Exa
    ensures HandleHttpStatus(429, "exa", "").value.code == ExaRateLimit
    ensures HandleHttpStatus(429, "exa", "").value.retryable
    ensures HandleHttpStatus(429, "exa", "").value.retryAfterSeconds == Some(60)
  {
    assert Lower("exa") == "exa";
  }

  /** A 504 from Firecrawl is Firecrawl's retryable timeout error. */
  lemma TimeoutExample()
    ensures HandleHttpStatus(504, "firecrawl", "").Success?
    ensures HandleHttpStatus(504, "firecrawl", "").value.errorClass == Firecrawl
    ensures HandleHttpStatus(504, "firecrawl", "").value.code == FirecrawlTimeout
    ensures HandleHttpStatus(504, "firecrawl", "").value.retryable
  {
    assert Lower("firecrawl") == "firecrawl";
  }

  /** A 500 from Convex is a retryable Convex error. */
  lemma ServerErrorExample()
    ensures HandleHttpStatus(500, "convex", "").Success?
    ensures HandleHttpStatus(500, "convex", "").value.errorClass == Convex
    ensures HandleHttpStatus(500, "convex", "").value.retryable
  {
    assert Lower("convex") == "convex";
  }

  /** A 500 from a service the mapping does not know carries the unknown-error code. */
  lemma UnknownServiceExample()
    ensures HandleHttpStatus(500, "unknown_service", "").Success?
    ensures HandleHttpStatus(500, "unknown_service", "").value.code == UnknownError
  {
    assert Lower("unknown_service") == "unknown_service";
  }
}
