/** The automatic analysis route: the classifier is called with the bare
    job URL, retried with a linear backoff while it answers 429, and its
    answer is turned into a job or into an error the board can show. */
module AnalyzeRoute {
  import opened JsText
  import opened JsValue
  import opened Intake
  import opened Upstream

  // ---------------------------------------------------------------------
  // fetchWithRetry
  // ---------------------------------------------------------------------

  /** What `fetchWithRetry` did: the result it returned (`None` when the
      loop falls through and returns `undefined`), the pauses it took in
      milliseconds, and how many calls it made. */
  datatype Retry = Retry(result: Option<Reply>, waits: seq<int>, calls: nat)

  /** The pause after a 429 on `attempt`. */
  function Backoff(attempt: int): int
  {
    attempt * 5000
  }

  /** The loop of `fetchWithRetry` from `attempt` on; `server(k)` is the
      reply to the `k`-th call. */
  function RetryFrom(server: nat -> Reply, maxRetries: int, attempt: nat): Retry
    requires attempt >= 1
    decreases if attempt <= maxRetries then maxRetries - attempt + 1 else 0
  {
    if attempt > maxRetries then Retry(None, [], 0)
    else
      var reply := server(attempt);
      if IsRateLimited(reply) && attempt < maxRetries then
        var rest := RetryFrom(server, maxRetries, attempt + 1);
        Retry(rest.result, [Backoff(attempt)] + rest.waits, rest.calls + 1)
      else
        Retry(Some(reply), [], 1)
  }

  /** `fetchWithRetry(url, options, maxRetries)`; the pauses are recorded
      instead of slept. */
  method FetchWithRetry(server: nat -> Reply, maxRetries: int)
    returns (result: Option<Reply>, waits: seq<int>, calls: nat)
    ensures Retry(result, waits, calls) == RetryFrom(server, maxRetries, 1)
  {
    waits := [];
    calls := 0;
    var attempt := 1;
    while attempt <= maxRetries
      invariant 1 <= attempt && calls == attempt - 1
      invariant var rest := RetryFrom(server, maxRetries, attempt);
                RetryFrom(server, maxRetries, 1) == Retry(rest.result, waits + rest.waits, calls + rest.calls)
      decreases maxRetries - attempt
    {
      var response := server(attempt);
      calls := calls + 1;
      RetryFromUnfold(server, maxRetries, attempt);
      if response.Reply? && response.status == 429 {
        var waitTime := Backoff(attempt);
        if attempt < maxRetries {
          ghost var rest := RetryFrom(server, maxRetries, attempt + 1);
          assert waits + ([waitTime] + rest.waits) == (waits + [waitTime]) + rest.waits;
          waits := waits + [waitTime];
          attempt := attempt + 1;
          continue;
        }
      }
      return Some(response), waits, calls;
    }
    result := None;
  }

  /** One attempt of the loop: a 429 before the last attempt pauses and
      goes on; any other reply, or the last one, is returned. */
  lemma RetryFromUnfold(server: nat -> Reply, maxRetries: int, attempt: nat)
    requires 1 <= attempt <= maxRetries
    ensures var r := RetryFrom(server, maxRetries, attempt);
            var rest := RetryFrom(server, maxRetries, attempt + 1);
            if IsRateLimited(server(attempt)) && attempt < maxRetries
            then r == Retry(rest.result, [Backoff(attempt)] + rest.waits, rest.calls + 1)
            else r == Retry(Some(server(attempt)), [], 1)
  {
  }

  /** The loop from `attempt` on makes `calls` calls, all but the last
      answered 429; it stops at the first other reply or at the last
      attempt, returns the last reply, and pauses `k * 5000` ms after each
      rate-limited attempt `k` except the last. */
  lemma {:induction false} RetryFromShape(server: nat -> Reply, maxRetries: int, attempt: nat)
    requires 1 <= attempt <= maxRetries
    ensures var r := RetryFrom(server, maxRetries, attempt);
            var last := attempt + r.calls - 1;
            r.calls >= 1 && last <= maxRetries &&
            r.result == Some(server(last)) &&
            (forall k :: attempt <= k < last ==> IsRateLimited(server(k))) &&
            (last == maxRetries || !IsRateLimited(server(last))) &&
            |r.waits| == r.calls - 1 &&
            (forall j :: 0 <= j < |r.waits| ==> r.waits[j] == Backoff(attempt + j))
    decreases maxRetries - attempt
  {
    var reply := server(attempt);
    if IsRateLimited(reply) && attempt < maxRetries {
      RetryFromShape(server, maxRetries, attempt + 1);
      var rest := RetryFrom(server, maxRetries, attempt + 1);
      var r := RetryFrom(server, maxRetries, attempt);
      assert r.waits == [Backoff(attempt)] + rest.waits;
      forall j | 0 <= j < |r.waits|
        ensures r.waits[j] == Backoff(attempt + j)
      {
        if j > 0 {
          assert r.waits[j] == rest.waits[j - 1];
        }
      }
    }
  }

  /** `fetchWithRetry` returns the first reply that is not a 429, or the
      last one, after at most `maxRetries` calls; it pauses `k * 5000` ms
      after a 429 on attempt `k` and never after the final call. With no
      attempt allowed it makes no call and returns `undefined`. */
  lemma RetryShape(server: nat -> Reply, maxRetries: int)
    ensures var r := RetryFrom(server, maxRetries, 1);
            (maxRetries < 1 ==> r == Retry(None, [], 0)) &&
            (maxRetries >= 1 ==>
               1 <= r.calls <= maxRetries &&
               r.result == Some(server(r.calls)) &&
               (forall k :: 1 <= k < r.calls ==> IsRateLimited(server(k))) &&
               (r.calls == maxRetries || !IsRateLimited(server(r.calls))) &&
               r.waits == seq(r.calls - 1, j requires 0 <= j < r.calls - 1 => (j + 1) * 5000))
  {
    if maxRetries >= 1 {
      RetryFromShape(server, maxRetries, 1);
    }
  }

  /** Three 429s in a row: pauses of 5 s and 10 s, and the third reply,
      itself a 429, is returned. */
  lemma RetryThreeRateLimits(server: nat -> Reply)
    requires IsRateLimited(server(1)) && IsRateLimited(server(2)) && IsRateLimited(server(3))
    ensures RetryFrom(server, 3, 1) == Retry(Some(server(3)), [5000, 10000], 3)
  {
  }

  // ---------------------------------------------------------------------
  // POST /api/analyze
  // ---------------------------------------------------------------------

  /** The number of attempts the route allows. */
  const RetryLimit: int := 3

  /** The route's answer together with the pauses and calls it made. */
  datatype Run = Run(response: Response, waits: seq<int>, calls: nat)

  /** The answer to an upstream status that is not 2xx. */
  function StatusFailure(status: int): (r: Response)
    ensures r.status == status && r.body.Failure? && !r.body.canAddAnyway
    ensures status == 429 <==> r.body.error == "Rate limited"
    ensures status != 429 <==> r.body.error == "API request failed"
  {
    if status == 429 then
      Response(429, Failure("Rate limited", Str("Too many requests. Wait 30 seconds and try again."), false))
    else
      Response(status, Failure("API request failed", Str("Server returned " + Dec(status) + ". Try again."), false))
  }

  /** The job of an accepted analysis: every field defaulted, the direct
      link falling back to the submitted URL and the posting date to today. */
  function AutoJob(a: Value, jobUrl: Value, clock: Clock): Job
    requires HasProps(a)
  {
    AnalysisJob(a, jobUrl,
                Or(Field(a, "directApplicationUrl"), jobUrl),
                Or(Field(a, "datePosted"), Str(clock.today)),
                Or(Field(a, "expirationDate"), Null),
                clock)
  }

  /** The answer once the classifier's text is available. */
  function TextOutcome(jobUrl: Value, text: string, parse: string -> Option<Value>, clock: Clock): Response
  {
    if Trim(text) == "" then
      Response(200, Failure("Empty response", Str("The page may be blocked or require login"), true))
    else
      match parse(CleanJson(text))
      case None =>
        Response(200, Failure("Failed to parse response", Str("Try the direct employer page instead of a job board."), true))
      case Some(analysis) =>
        if !HasProps(analysis) then ServerError(true)
        else if !Truthy(Field(analysis, "isLegitimate")) then
          Response(200, Failure("Flagged as not legitimate",
                                Or(Field(analysis, "legitimacyReason"), Str("Posting may be expired")), true))
        else
          Response(200, Success(AutoJob(analysis, jobUrl, clock)))
  }

  /** The answer once `fetchWithRetry` has returned. Reading a property of
      the `undefined` result, a failed `fetch` and an unreadable body all
      throw into the outer `catch`. */
  function AutoOutcome(jobUrl: Value, result: Option<Reply>, parse: string -> Option<Value>, clock: Clock): Response
  {
    match result
    case None => ServerError(true)
    case Some(NoResponse) => ServerError(true)
    case Some(Reply(status, body)) =>
      if !IsOk(status) then StatusFailure(status)
      else match body
        case None => ServerError(true)
        case Some(data) =>
          match ContentText(data)
          case Thrown => ServerError(true)
          case Ok(text) => TextOutcome(jobUrl, text, parse, clock)
  }

  /** `POST /api/analyze`. */
  function AutoRoute(request: Option<Value>, server: nat -> Reply, parse: string -> Option<Value>, clock: Clock): Run
  {
    match RequestField(request, "url")
    case Thrown => Run(ServerError(true), [], 0)
    case Ok(jobUrl) =>
      if !Truthy(jobUrl) then Run(Response(400, Failure("URL is required", Undefined, false)), [], 0)
      else
        var retry := RetryFrom(server, RetryLimit, 1);
        Run(AutoOutcome(jobUrl, retry.result, parse, clock), retry.waits, retry.calls)
  }

  /** The handler, step by step. */
  method Post(request: Option<Value>, server: nat -> Reply, parse: string -> Option<Value>, clock: Clock)
    returns (response: Response, waits: seq<int>, calls: nat)
    ensures Run(response, waits, calls) == AutoRoute(request, server, parse, clock)
  {
    waits, calls := [], 0;
    var jobUrl := RequestField(request, "url");
    if jobUrl.Thrown? {
      return ServerError(true), waits, calls;
    }
    if !Truthy(jobUrl.value) {
      return Response(400, Failure("URL is required", Undefined, false)), waits, calls;
    }
    var result;
    result, waits, calls := FetchWithRetry(server, RetryLimit);
    if result.None? || result.value.NoResponse? {
      return ServerError(true), waits, calls;
    }
    var reply := result.value;
    if !IsOk(reply.status) {
      return StatusFailure(reply.status), waits, calls;
    }
    if reply.body.None? {
      return ServerError(true), waits, calls;
    }
    var text := ExtractText(reply.body.value);
    if text.Thrown? {
      return ServerError(true), waits, calls;
    }
    response := TextOutcome(jobUrl.value, text.value, parse, clock);
  }

  // ---------------------------------------------------------------------
  // Properties of the route
  // ---------------------------------------------------------------------

  /** Past the upstream call, the one throwing path: the analysis parses
      to `null` or `undefined`, and reading `isLegitimate` from it throws. */
  predicate TextThrows(text: string, parse: string -> Option<Value>)
  {
    !AllWhite(text) && parse(CleanJson(text)).Some? && !HasProps(parse(CleanJson(text)).value)
  }

  /** The throwing paths once `fetchWithRetry` has returned: it returned
      `undefined`, `fetch` rejected, a 2xx body is not JSON, `content`
      cannot be walked, or the text throws. */
  predicate ReplyThrows(result: Option<Reply>, parse: string -> Option<Value>)
  {
    result.None? || result.value.NoResponse? ||
    (IsOk(result.value.status) &&
     (result.value.body.None? || ContentText(result.value.body.value).Thrown? ||
      TextThrows(ContentText(result.value.body.value).value, parse)))
  }

  /** The paths of `POST /api/analyze` that throw into the outer `catch`:
      the body is not an object, or the request with a truthy URL throws
      after the call. */
  predicate AutoThrows(request: Option<Value>, server: nat -> Reply, parse: string -> Option<Value>)
  {
    var jobUrl := RequestField(request, "url");
    jobUrl.Thrown? || (Truthy(jobUrl.value) && ReplyThrows(RetryFrom(server, RetryLimit, 1).result, parse))
  }

  lemma TextServerError(jobUrl: Value, text: string, parse: string -> Option<Value>, clock: Clock)
    ensures var r := TextOutcome(jobUrl, text, parse, clock);
            (r.body.Failure? && r.body.error == "Server error") <==> TextThrows(text, parse)
    ensures TextThrows(text, parse) ==> TextOutcome(jobUrl, text, parse, clock) == ServerError(true)
  {
    TrimBlank(text);
  }

  lemma ReplyServerError(jobUrl: Value, result: Option<Reply>, parse: string -> Option<Value>, clock: Clock)
    ensures var r := AutoOutcome(jobUrl, result, parse, clock);
            (r.body.Failure? && r.body.error == "Server error") <==> ReplyThrows(result, parse)
    ensures ReplyThrows(result, parse) ==> AutoOutcome(jobUrl, result, parse, clock) == ServerError(true)
  {
    if result.Some? && result.value.Reply? {
      if !IsOk(result.value.status) {
        StatusMapping(jobUrl, result.value.status, result.value.body, parse, clock);
      } else if result.value.body.Some? && ContentText(result.value.body.value).Ok? {
        TextServerError(jobUrl, ContentText(result.value.body.value).value, parse, clock);
      }
    }
  }

  /** The answer is "Server error" exactly on the throwing paths, and there
      it is the outer `catch`'s 500 answer with "Add Anyway" offered. */
  lemma AutoServerError(request: Option<Value>, server: nat -> Reply, parse: string -> Option<Value>, clock: Clock)
    ensures var r := AutoRoute(request, server, parse, clock).response;
            (r.body.Failure? && r.body.error == "Server error") <==> AutoThrows(request, server, parse)
    ensures AutoThrows(request, server, parse) ==> AutoRoute(request, server, parse, clock).response == ServerError(true)
  {
    var jobUrl := RequestField(request, "url");
    if jobUrl.Ok? && Truthy(jobUrl.value) {
      ReplyServerError(jobUrl.value, RetryFrom(server, RetryLimit, 1).result, parse, clock);
    }
  }

  /** A request without a truthy `url` is refused with 400 before any call. */
  lemma MissingUrl(request: Option<Value>, server: nat -> Reply, parse: string -> Option<Value>, clock: Clock)
    requires RequestField(request, "url").Ok? && !Truthy(RequestField(request, "url").value)
    ensures var run := AutoRoute(request, server, parse, clock);
            run.response.status == 400 && run.response.body == Failure("URL is required", Undefined, false) &&
            run.calls == 0 && run.waits == []
  {
  }

  /** A request with a truthy `url` reaches the classifier: one to three
      calls, with the pauses of `fetchWithRetry`. */
  lemma UrlReachesClassifier(request: Option<Value>, server: nat -> Reply, parse: string -> Option<Value>, clock: Clock)
    requires RequestField(request, "url").Ok? && Truthy(RequestField(request, "url").value)
    ensures var run := AutoRoute(request, server, parse, clock);
            1 <= run.calls <= RetryLimit && |run.waits| == run.calls - 1 &&
            (forall j :: 0 <= j < |run.waits| ==> run.waits[j] == (j + 1) * 5000)
  {
    RetryShape(server, RetryLimit);
  }

  /** An upstream status outside 2xx is passed through: 429 as "Rate
      limited", any other as "API request failed"; neither offers "Add
      Anyway". */
  lemma StatusMapping(jobUrl: Value, status: int, body: Option<Value>, parse: string -> Option<Value>, clock: Clock)
    requires !IsOk(status)
    ensures var r := AutoOutcome(jobUrl, Some(Reply(status, body)), parse, clock);
            r.status == status && r.body.Failure? && !r.body.canAddAnyway &&
            (status == 429 ==> r.body == Failure("Rate limited", Str("Too many requests. Wait 30 seconds and try again."), false)) &&
            (status != 429 ==> r.body == Failure("API request failed", Str("Server returned " + Dec(status) + ". Try again."), false))
  {
  }

  /** Text that is blank after trimming is an empty response; "Add
      Anyway" is offered. */
  lemma BlankText(jobUrl: Value, text: string, parse: string -> Option<Value>, clock: Clock)
    requires AllWhite(text)
    ensures TextOutcome(jobUrl, text, parse, clock) ==
            Response(200, Failure("Empty response", Str("The page may be blocked or require login"), true))
  {
    TrimBlank(text);
  }

  /** A cleaned text that does not parse is reported as such; "Add Anyway"
      is offered. */
  lemma UnparsableText(jobUrl: Value, text: string, parse: string -> Option<Value>, clock: Clock)
    requires !AllWhite(text) && parse(CleanJson(text)).None?
    ensures var r := TextOutcome(jobUrl, text, parse, clock);
            r.status == 200 && r.body.Failure? && r.body.error == "Failed to parse response" && r.body.canAddAnyway
  {
    TrimBlank(text);
  }

  /** The legitimacy gate: a parsed analysis object becomes a job exactly
      when its `isLegitimate` is truthy (an absent one is falsy); otherwise
      the troubleshoot is the `legitimacyReason` or "Posting may be
      expired", and "Add Anyway" is offered. */
  lemma LegitimacyGate(jobUrl: Value, text: string, parse: string -> Option<Value>, clock: Clock, analysis: Value)
    requires !AllWhite(text) && parse(CleanJson(text)) == Some(analysis) && HasProps(analysis)
    ensures var r := TextOutcome(jobUrl, text, parse, clock);
            r.status == 200 &&
            (r.body.Success? <==> Truthy(Field(analysis, "isLegitimate"))) &&
            (r.body.Success? ==> r.body.job == AutoJob(analysis, jobUrl, clock)) &&
            (r.body.Failure? ==>
               r.body.error == "Flagged as not legitimate" && r.body.canAddAnyway &&
               (Truthy(Field(analysis, "legitimacyReason")) ==> r.body.troubleshoot == Field(analysis, "legitimacyReason")) &&
               (!Truthy(Field(analysis, "legitimacyReason")) ==> r.body.troubleshoot == Str("Posting may be expired")))
  {
    TrimBlank(text);
  }

  /** Past the upstream call, every failure offers "Add Anyway". */
  lemma TextOutcomeAddAnyway(jobUrl: Value, text: string, parse: string -> Option<Value>, clock: Clock)
    ensures var r := TextOutcome(jobUrl, text, parse, clock);
            r.body.Failure? ==> r.body.canAddAnyway && r.body.error != "URL is required" &&
                                r.body.error != "Rate limited" && r.body.error != "API request failed"
  {
  }

  lemma AutoOutcomeAddAnyway(jobUrl: Value, result: Option<Reply>, parse: string -> Option<Value>, clock: Clock)
    ensures var r := AutoOutcome(jobUrl, result, parse, clock);
            r.body.Failure? ==>
              (r.body.canAddAnyway <==>
               r.body.error != "URL is required" && r.body.error != "Rate limited" &&
               r.body.error != "API request failed")
  {
    var r := AutoOutcome(jobUrl, result, parse, clock);
    if result.Some? && result.value.Reply? && !IsOk(result.value.status) {
      assert r == StatusFailure(result.value.status);
    } else if ReplyThrows(result, parse) {
      ReplyServerError(jobUrl, result, parse, clock);
      assert r == ServerError(true);
    } else {
      TextOutcomeAddAnyway(jobUrl, ContentText(result.value.body.value).value, parse, clock);
    }
  }

  /** "Add Anyway" is offered on every failure except a missing URL and an
      upstream status outside 2xx. */
  lemma AddAnywayOffered(request: Option<Value>, server: nat -> Reply, parse: string -> Option<Value>, clock: Clock)
    ensures var r := AutoRoute(request, server, parse, clock).response;
            r.body.Failure? ==>
              (r.body.canAddAnyway <==>
               r.body.error != "URL is required" && r.body.error != "Rate limited" &&
               r.body.error != "API request failed")
  {
    var jobUrl := RequestField(request, "url");
    if jobUrl.Ok? && Truthy(jobUrl.value) {
      AutoOutcomeAddAnyway(jobUrl.value, RetryFrom(server, RetryLimit, 1).result, parse, clock);
    }
  }

  lemma TextOutcomeSuccess(jobUrl: Value, text: string, parse: string -> Option<Value>, clock: Clock)
    ensures var r := TextOutcome(jobUrl, text, parse, clock);
            r.body.Success? ==>
              r.status == 200 && r.body.job.url == jobUrl &&
              r.body.job.needsReview == Bool(false) && r.body.job.submittedBy == Str(SubmittedBy)
  {
  }

  /** A job comes only from an accepted analysis, with status 200. */
  lemma AutoOutcomeSuccess(jobUrl: Value, result: Option<Reply>, parse: string -> Option<Value>, clock: Clock)
    ensures var r := AutoOutcome(jobUrl, result, parse, clock);
            r.body.Success? ==>
              r.status == 200 && r.body.job.url == jobUrl &&
              r.body.job.needsReview == Bool(false) && r.body.job.submittedBy == Str(SubmittedBy)
  {
    if result.Some? && result.value.Reply? && IsOk(result.value.status) && result.value.body.Some? {
      var text := ContentText(result.value.body.value);
      if text.Ok? {
        TextOutcomeSuccess(jobUrl, text.value, parse, clock);
      }
    }
  }

  /** A job is produced only with status 200 after at least one call, and
      it always carries the submitted URL and the reviewed flag `false`. */
  lemma SuccessShape(request: Option<Value>, server: nat -> Reply, parse: string -> Option<Value>, clock: Clock)
    ensures var run := AutoRoute(request, server, parse, clock);
            run.response.body.Success? ==>
              run.response.status == 200 && run.calls >= 1 &&
              request.Some? && HasProps(request.value) &&
              run.response.body.job.url == Field(request.value, "url") &&
              Truthy(run.response.body.job.url) &&
              run.response.body.job.needsReview == Bool(false) &&
              run.response.body.job.submittedBy == Str(SubmittedBy)
  {
    var jobUrl := RequestField(request, "url");
    if jobUrl.Ok? && Truthy(jobUrl.value) {
      RetryShape(server, RetryLimit);
      AutoOutcomeSuccess(jobUrl.value, RetryFrom(server, RetryLimit, 1).result, parse, clock);
    }
  }

  /** The answer depends on the text only through whether it is blank and
      what it cleans to. */
  lemma TextOutcomeOnCleaned(jobUrl: Value, t1: string, t2: string, parse: string -> Option<Value>, clock: Clock)
    requires (Trim(t1) == "") == (Trim(t2) == "") && CleanJson(t1) == CleanJson(t2)
    ensures TextOutcome(jobUrl, t1, parse, clock) == TextOutcome(jobUrl, t2, parse, clock)
  {
  }

  /** A text that starts with a backtick is not blank. */
  lemma TickNotBlank(s: string)
    requires |s| > 0 && s[0] == '`'
    ensures Trim(s) != ""
  {
    TrimBlank(s);
  }

  /** A non-blank, backtick-free payload in a `json` fence gives the same
      answer as the bare payload; in a bare fence too, unless it starts
      with the word "json", which the replacement would remove. */
  lemma FencedSameOutcome(jobUrl: Value, p: string, parse: string -> Option<Value>, clock: Clock)
    requires '`' !in p && !AllWhite(p)
    ensures TextOutcome(jobUrl, JsonFence + p + Fence, parse, clock) == TextOutcome(jobUrl, p, parse, clock)
    ensures !("json" <= p) ==> TextOutcome(jobUrl, Fence + p + Fence, parse, clock) == TextOutcome(jobUrl, p, parse, clock)
  {
    CleanTagged(p);
    CleanUnfenced(p);
    TrimBlank(p);
    TickNotBlank(JsonFence + p + Fence);
    TextOutcomeOnCleaned(jobUrl, JsonFence + p + Fence, p, parse, clock);
    if !("json" <= p) {
      CleanBare(p);
      TickNotBlank(Fence + p + Fence);
      TextOutcomeOnCleaned(jobUrl, Fence + p + Fence, p, parse, clock);
    }
  }

  /** The job takes every truthy analysis field and the documented default
      for every other one; the direct link falls back to the submitted URL,
      the posting date to today and the expiry to `null`. */
  lemma AutoJobFields(a: Value, jobUrl: Value, clock: Clock)
    requires HasProps(a)
    ensures var job := AutoJob(a, jobUrl, clock);
            (forall k :: 0 <= k < |DefaultedFields| ==>
               var (key, default) := DefaultedFields[k];
               DefaultedValues(job)[k] == if Truthy(Field(a, key)) then Field(a, key) else default) &&
            job.url == jobUrl &&
            job.directUrl == (if Truthy(Field(a, "directApplicationUrl")) then Field(a, "directApplicationUrl") else jobUrl) &&
            job.datePosted == (if Truthy(Field(a, "datePosted")) then Field(a, "datePosted") else Str(clock.today)) &&
            job.expirationDate == (if Truthy(Field(a, "expirationDate")) then Field(a, "expirationDate") else Null) &&
            job.needsReview == Bool(false) && job.submittedBy == Str(SubmittedBy)
  {
    AnalysisJobFields(a, jobUrl, Or(Field(a, "directApplicationUrl"), jobUrl),
                      Or(Field(a, "datePosted"), Str(clock.today)),
                      Or(Field(a, "expirationDate"), Null), clock);
  }

  /** A job built from a truthy URL has no `undefined` field. */
  lemma AutoJobDefined(a: Value, jobUrl: Value, clock: Clock)
    requires HasProps(a) && Truthy(jobUrl)
    ensures Defined(AutoJob(a, jobUrl, clock))
  {
    AnalysisJobTruthy(a, jobUrl, Or(Field(a, "directApplicationUrl"), jobUrl),
                      Or(Field(a, "datePosted"), Str(clock.today)),
                      Or(Field(a, "expirationDate"), Null), clock);
  }

  /** A reply holding one text block yields that block's text. */
  lemma SingleTextBlock(text: string)
    ensures ContentText(Obj(map["content" := Arr([TextBlock(text)])])) == Ok(text)
  {
    TextOfStrings([text]);
    assert Concat([text]) == text;
    assert [TextBlock(text)] == seq(1, k requires 0 <= k < 1 => TextBlock([text][k]));
  }

  /** A request with a truthy URL whose first call is not rate limited
      makes exactly that call. */
  lemma FirstCallAnswered(request: Option<Value>, server: nat -> Reply, parse: string -> Option<Value>, clock: Clock)
    requires RequestField(request, "url").Ok? && Truthy(RequestField(request, "url").value)
    requires !IsRateLimited(server(1))
    ensures AutoRoute(request, server, parse, clock) ==
            Run(AutoOutcome(RequestField(request, "url").value, Some(server(1)), parse, clock), [], 1)
  {
    assert RetryFrom(server, RetryLimit, 1) == Retry(Some(server(1)), [], 1);
  }

  /** The analysis of the accepted-posting example. */
  function ExampleAnalysis(): Value
  {
    Obj(map["isLegitimate" := Bool(true), "grade" := Str("best"), "jobTitle" := Str("Warehouse Associate")])
  }

  lemma ExampleJob(url: Value, clock: Clock)
    ensures var job := AutoJob(ExampleAnalysis(), url, clock);
            job.title == Str("Warehouse Associate") && job.grade == Str("best") &&
            job.needsReview == Bool(false) && job.company == Str("Unknown Company")
  {
    var a := ExampleAnalysis();
    var job := AutoJob(a, url, clock);
    assert Field(a, "jobTitle") == Str("Warehouse Associate");
    assert job.title == Or(Str("Warehouse Associate"), Str("Unknown Position"));
    assert Field(a, "grade") == Str("best");
    assert job.grade == Or(Str("best"), Str("good"));
    assert "company" !in a.props;
    assert job.company == Or(Undefined, Str("Unknown Company"));
  }

  lemma ExampleText(url: Value, text: string, parse: string -> Option<Value>, clock: Clock)
    requires !AllWhite(text) && parse(CleanJson(text)) == Some(ExampleAnalysis())
    ensures TextOutcome(url, text, parse, clock) == Response(200, Success(AutoJob(ExampleAnalysis(), url, clock)))
  {
    assert Field(ExampleAnalysis(), "isLegitimate") == Bool(true);
    LegitimacyGate(url, text, parse, clock, ExampleAnalysis());
  }

  lemma ExampleReply(url: Value, text: string, parse: string -> Option<Value>, clock: Clock)
    requires !AllWhite(text) && parse(CleanJson(text)) == Some(ExampleAnalysis())
    ensures AutoOutcome(url, Some(Reply(200, Some(Obj(map["content" := Arr([TextBlock(text)])])))), parse, clock) ==
            Response(200, Success(AutoJob(ExampleAnalysis(), url, clock)))
  {
    SingleTextBlock(text);
    ExampleText(url, text, parse, clock);
  }

  /** The example of an accepted posting: a legitimate analysis with a
      title and a grade gives a job with that title and grade, not flagged
      for review, after one call. */
  lemma AcceptedPosting(server: nat -> Reply, parse: string -> Option<Value>, clock: Clock, text: string)
    requires server(1) == Reply(200, Some(Obj(map["content" := Arr([TextBlock(text)])])))
    requires !AllWhite(text)
    requires parse(CleanJson(text)) == Some(ExampleAnalysis())
    ensures var run := AutoRoute(Some(Obj(map["url" := Str("https://acme.example/job/123")])), server, parse, clock);
            run.calls == 1 && run.waits == [] && run.response.status == 200 && run.response.body.Success? &&
            run.response.body.job.title == Str("Warehouse Associate") &&
            run.response.body.job.grade == Str("best") &&
            run.response.body.job.needsReview == Bool(false) &&
            run.response.body.job.company == Str("Unknown Company")
  {
    var url := Str("https://acme.example/job/123");
    var request := Some(Obj(map["url" := url]));
    assert RequestField(request, "url") == Ok(url);
    FirstCallAnswered(request, server, parse, clock);
    ExampleReply(url, text, parse, clock);
    ExampleJob(url, clock);
  }

  /** The example of a classifier that keeps answering 429: pauses of 5 s
      and 10 s, three calls, and a "Rate limited" answer without "Add
      Anyway". */
  lemma PersistentRateLimit(request: Option<Value>, server: nat -> Reply, parse: string -> Option<Value>, clock: Clock)
    requires RequestField(request, "url").Ok? && Truthy(RequestField(request, "url").value)
    requires forall k :: 1 <= k <= 3 ==> IsRateLimited(server(k))
    ensures var run := AutoRoute(request, server, parse, clock);
            run.waits == [5000, 10000] && run.calls == 3 && run.response.status == 429 &&
            run.response.body.Failure? && run.response.body.error == "Rate limited" &&
            !run.response.body.canAddAnyway
  {
    assert IsRateLimited(server(1)) && IsRateLimited(server(2)) && IsRateLimited(server(3));
    RetryThreeRateLimits(server);
  }
}
