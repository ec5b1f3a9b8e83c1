/** The manual analysis route: the staff member pastes the posting's text,
    the classifier is called once, and its answer becomes a job whose link
    and dates are fixed by the route. */
module AnalyzeManualRoute {
  import opened JsText
  import opened JsValue
  import opened Intake
  import opened Upstream
  import AnalyzeRoute

  /** The job of a manual analysis: the link is the submitted URL, the
      posting date is today and there is no expiry, whatever the analysis
      says. */
  function ManualJob(a: Value, jobUrl: Value, clock: Clock): Job
    requires HasProps(a)
  {
    AnalysisJob(a, jobUrl, jobUrl, Str(clock.today), Null, clock)
  }

  /** The answer once the classifier's text is available. There is no
      check for blank text and no legitimacy gate. */
  function ManualTextOutcome(jobUrl: Value, text: string, parse: string -> Option<Value>, clock: Clock): Response
  {
    match parse(CleanJson(text))
    case None => Response(200, Failure("Failed to parse response", Str("Please try again."), false))
    case Some(analysis) =>
      if !HasProps(analysis) then ServerError(false)
      else Response(200, Success(ManualJob(analysis, jobUrl, clock)))
  }

  /** The answer to the one upstream call. */
  function ManualOutcome(jobUrl: Value, reply: Reply, parse: string -> Option<Value>, clock: Clock): Response
  {
    match reply
    case NoResponse => ServerError(false)
    case Reply(status, body) =>
      if !IsOk(status) then
        Response(status, Failure("API request failed", Str("Server returned " + Dec(status) + ". Try again."), false))
      else match body
        case None => ServerError(false)
        case Some(data) =>
          match ContentText(data)
          case Thrown => ServerError(false)
          case Ok(text) => ManualTextOutcome(jobUrl, text, parse, clock)
  }

  /** The route's answer and whether it called the classifier. */
  datatype ManualRun = ManualRun(response: Response, called: bool)

  /** `POST /api/analyze-manual`. */
  function ManualRoute(request: Option<Value>, server: Reply, parse: string -> Option<Value>, clock: Clock): ManualRun
  {
    match RequestField(request, "url")
    case Thrown => ManualRun(ServerError(false), false)
    case Ok(jobUrl) =>
      var description := RequestField(request, "description").value;
      if !Truthy(jobUrl) || !Truthy(description) then
        ManualRun(Response(400, Failure("URL and description are required", Undefined, false)), false)
      else
        ManualRun(ManualOutcome(jobUrl, server, parse, clock), true)
  }

  /** The handler, step by step. */
  method Post(request: Option<Value>, server: Reply, parse: string -> Option<Value>, clock: Clock)
    returns (response: Response, called: bool)
    ensures ManualRun(response, called) == ManualRoute(request, server, parse, clock)
  {
    called := false;
    var jobUrl := RequestField(request, "url");
    if jobUrl.Thrown? {
      return ServerError(false), called;
    }
    var description := RequestField(request, "description");
    if !Truthy(jobUrl.value) || !Truthy(description.value) {
      return Response(400, Failure("URL and description are required", Undefined, false)), called;
    }
    var reply := server;
    called := true;
    if reply.NoResponse? {
      return ServerError(false), called;
    }
    if !IsOk(reply.status) {
      return Response(reply.status, Failure("API request failed", Str("Server returned " + Dec(reply.status) + ". Try again."), false)), called;
    }
    if reply.body.None? {
      return ServerError(false), called;
    }
    var text := ExtractText(reply.body.value);
    if text.Thrown? {
      return ServerError(false), called;
    }
    response := ManualTextOutcome(jobUrl.value, text.value, parse, clock);
  }

  // ---------------------------------------------------------------------
  // Properties of the route
  // ---------------------------------------------------------------------

  /** Without a truthy `url` and a truthy `description` the request is
      refused with 400 and the classifier is not called; with both it is
      called. */
  lemma InputCheck(request: Option<Value>, server: Reply, parse: string -> Option<Value>, clock: Clock)
    requires request.Some? && HasProps(request.value)
    ensures var run := ManualRoute(request, server, parse, clock);
            var url := Field(request.value, "url");
            var description := Field(request.value, "description");
            (run.called <==> Truthy(url) && Truthy(description)) &&
            (!run.called ==> run.response == Response(400, Failure("URL and description are required", Undefined, false)))
  {
  }

  /** Every status outside 2xx, 429 included, is "API request failed" with
      that status; there is no retry and no "Rate limited" answer. */
  lemma StatusPassedThrough(jobUrl: Value, status: int, body: Option<Value>, parse: string -> Option<Value>, clock: Clock)
    requires !IsOk(status)
    ensures var r := ManualOutcome(jobUrl, Reply(status, body), parse, clock);
            r.status == status && r.body.Failure? && r.body.error == "API request failed" &&
            !r.body.canAddAnyway && r.body.troubleshoot == Str("Server returned " + Dec(status) + ". Try again.")
  {
  }

  /** The auto route answers a 429 with "Rate limited"; this route does not. */
  lemma RateLimitDiffers(jobUrl: Value, body: Option<Value>, parse: string -> Option<Value>, clock: Clock)
    ensures ManualOutcome(jobUrl, Reply(429, body), parse, clock).body.error == "API request failed"
    ensures AnalyzeRoute.AutoOutcome(jobUrl, Some(Reply(429, body)), parse, clock).body.error == "Rate limited"
  {
  }

  /** Blank classifier text is not caught on its own: it is cleaned to the
      empty string and goes to `JSON.parse`. */
  lemma BlankTextParsed(jobUrl: Value, text: string, parse: string -> Option<Value>, clock: Clock)
    requires AllWhite(text)
    ensures ManualTextOutcome(jobUrl, text, parse, clock) == ManualTextOutcome(jobUrl, "", parse, clock)
  {
    BlankCleansEmpty(text);
    assert StripFences("") == "";
    TrimBlank("");
  }

  /** So blank text ends on the parse-failure answer whenever the empty
      string does not parse, as it does not for `JSON.parse`. */
  lemma BlankTextFails(jobUrl: Value, text: string, parse: string -> Option<Value>, clock: Clock)
    requires AllWhite(text) && parse("").None?
    ensures ManualTextOutcome(jobUrl, text, parse, clock) ==
            Response(200, Failure("Failed to parse response", Str("Please try again."), false))
  {
    BlankCleansEmpty(text);
    ParseFailure(jobUrl, text, parse, clock);
  }

  /** White space has no fence in it, so it cleans to the empty string. */
  lemma BlankCleansEmpty(text: string)
    requires AllWhite(text)
    ensures CleanJson(text) == ""
  {
    assert !IsWhite('`');
    assert '`' !in text;
    CleanUnfenced(text);
    TrimBlank(text);
  }

  /** A parse failure asks to try again and offers no "Add Anyway". */
  lemma ParseFailure(jobUrl: Value, text: string, parse: string -> Option<Value>, clock: Clock)
    requires parse(CleanJson(text)).None?
    ensures ManualTextOutcome(jobUrl, text, parse, clock) ==
            Response(200, Failure("Failed to parse response", Str("Please try again."), false))
  {
  }

  /** The link and the dates are fixed, and `isLegitimate` is never read:
      any parsed object becomes a job. */
  lemma FixedFields(jobUrl: Value, text: string, parse: string -> Option<Value>, clock: Clock, analysis: Value)
    requires parse(CleanJson(text)) == Some(analysis) && HasProps(analysis)
    ensures var r := ManualTextOutcome(jobUrl, text, parse, clock);
            r.status == 200 && r.body.Success? &&
            r.body.job.url == jobUrl && r.body.job.directUrl == jobUrl &&
            r.body.job.datePosted == Str(clock.today) && r.body.job.expirationDate == Null &&
            r.body.job.needsReview == Bool(false)
  {
  }

  /** The analysis fields the auto route reads for the link, the dates and
      the gate make no difference here. */
  lemma IgnoredKeys(a: Value, jobUrl: Value, clock: Clock, key: string, v: Value)
    requires a.Obj?
    requires key in {"isLegitimate", "legitimacyReason", "directApplicationUrl", "datePosted", "expirationDate"}
    ensures ManualJob(Obj(a.props[key := v]), jobUrl, clock) == ManualJob(a, jobUrl, clock)
  {
    var b := Obj(a.props[key := v]);
    assert Field(b, "jobTitle") == Field(a, "jobTitle");
    assert Field(b, "company") == Field(a, "company");
    assert Field(b, "location") == Field(a, "location");
    assert Field(b, "grade") == Field(a, "grade");
    assert Field(b, "gradeReason") == Field(a, "gradeReason");
    assert Field(b, "experienceCategory") == Field(a, "experienceCategory");
    assert Field(b, "ceoMatch") == Field(a, "ceoMatch");
    assert Field(b, "salary") == Field(a, "salary");
    assert Field(b, "requiresDiploma") == Field(a, "requiresDiploma");
    assert Field(b, "requiresLicense") == Field(a, "requiresLicense");
  }

  /** The manual job is the auto job with the link, the posting date and
      the expiry replaced by the route's fixed values. */
  lemma ManualIsAutoWithFixedFields(a: Value, jobUrl: Value, clock: Clock)
    requires HasProps(a)
    ensures ManualJob(a, jobUrl, clock) ==
            AnalyzeRoute.AutoJob(a, jobUrl, clock).(directUrl := jobUrl, datePosted := Str(clock.today),
                                                     expirationDate := Null)
  {
  }

  /** An unexpected exception answers 500 without "Add Anyway", where the
      auto route offers it. */
  lemma ServerErrorDiffers(server: Reply, parse: string -> Option<Value>, clock: Clock)
    ensures ManualRoute(None, server, parse, clock).response ==
            Response(500, Failure("Server error", Str("An unexpected error occurred. Please try again."), false))
    ensures !ManualRoute(None, server, parse, clock).response.body.canAddAnyway
    ensures AnalyzeRoute.AutoRoute(None, _ => server, parse, clock).response.body.canAddAnyway
  {
  }

  /** The paths of `POST /api/analyze-manual` that throw into the outer
      `catch`: the body is not an object, `fetch` rejects, a 2xx body is
      not JSON, `content` cannot be walked, or the parsed analysis is
      `null` or `undefined`. */
  predicate ManualThrows(request: Option<Value>, server: Reply, parse: string -> Option<Value>)
  {
    var jobUrl := RequestField(request, "url");
    jobUrl.Thrown? ||
    (Truthy(jobUrl.value) && Truthy(Field(request.value, "description")) &&
     (server.NoResponse? ||
      (IsOk(server.status) &&
       (server.body.None? ||
        ContentText(server.body.value).Thrown? ||
        (var text := ContentText(server.body.value).value;
         parse(CleanJson(text)).Some? && !HasProps(parse(CleanJson(text)).value))))))
  }

  /** The answer is "Server error" exactly on the throwing paths, and there
      it is the outer `catch`'s 500 answer without "Add Anyway". */
  lemma ManualServerError(request: Option<Value>, server: Reply, parse: string -> Option<Value>, clock: Clock)
    ensures var r := ManualRoute(request, server, parse, clock).response;
            (r.body.Failure? && r.body.error == "Server error") <==> ManualThrows(request, server, parse)
    ensures ManualThrows(request, server, parse) ==> ManualRoute(request, server, parse, clock).response == ServerError(false)
  {
  }

  /** No failure of this route offers "Add Anyway". */
  lemma NoAddAnyway(request: Option<Value>, server: Reply, parse: string -> Option<Value>, clock: Clock)
    ensures var r := ManualRoute(request, server, parse, clock).response;
            r.body.Failure? ==> !r.body.canAddAnyway
  {
  }
}
