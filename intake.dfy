/** The records the intake routes produce and the board consumes. */
module Intake {
  import opened JsValue

  /** A job as the analysis routes build it. Every field is a JavaScript
      value: the routes copy classifier fields with `||` and never check
      their types. */
  datatype Job = Job(
    id: Value,
    url: Value,
    directUrl: Value,
    title: Value,
    company: Value,
    location: Value,
    grade: Value,
    gradeReason: Value,
    category: Value,
    ceoMatch: Value,
    salary: Value,
    requiresDiploma: Value,
    requiresLicense: Value,
    datePosted: Value,
    expirationDate: Value,
    submittedAt: Value,
    submittedBy: Value,
    needsReview: Value)

  /** The JSON body of a route's answer: `{error, troubleshoot?, canAddAnyway?}`
      or `{success: true, job}`. An absent troubleshoot is `Undefined`; an
      absent `canAddAnyway` is `false`. */
  datatype Body =
    | Failure(error: string, troubleshoot: Value, canAddAnyway: bool)
    | Success(job: Job)

  /** A route's answer: HTTP status and body. */
  datatype Response = Response(status: int, body: Body)

  /** What the routes read from the clock and the random generator: the id
      (`Date.now()` plus a random suffix), today's date (`YYYY-MM-DD`) and the
      submission timestamp (ISO 8601). */
  datatype Clock = Clock(id: string, today: string, timestamp: string)

  /** The attribution every analysed job carries. */
  const SubmittedBy: string := "CEO Fresno Staff"

  /** The answer of the routes' outer `catch`. */
  function ServerError(canAddAnyway: bool): Response
  {
    Response(500, Failure("Server error", Str("An unexpected error occurred. Please try again."), canAddAnyway))
  }

  /** No field of the job is `undefined`, so none disappears when the job
      is sent as JSON. */
  predicate Defined(job: Job)
  {
    && job.id != Undefined && job.url != Undefined && job.directUrl != Undefined
    && job.title != Undefined && job.company != Undefined && job.location != Undefined
    && job.grade != Undefined && job.gradeReason != Undefined && job.category != Undefined
    && job.ceoMatch != Undefined && job.salary != Undefined
    && job.requiresDiploma != Undefined && job.requiresLicense != Undefined
    && job.datePosted != Undefined && job.expirationDate != Undefined
    && job.submittedAt != Undefined && job.submittedBy != Undefined
    && job.needsReview != Undefined
  }

  /** `const { key } = await request.json()`: the body may fail to parse
      (`None`), and destructuring `null` throws. */
  function RequestField(request: Option<Value>, key: string): (r: Try<Value>)
    ensures r.Thrown? <==> request.None? || !HasProps(request.value)
    ensures request.Some? && request.value.Obj? && key in request.value.props ==>
              r == Ok(request.value.props[key])
  {
    if request.None? then Thrown else Prop(request.value, key)
  }

  /** The job literal both routes build from a parsed analysis `a`. The
      fields the routes treat differently are passed in; every other field
      is the analysis field when truthy and a fixed default otherwise. */
  function AnalysisJob(a: Value, url: Value, directUrl: Value, datePosted: Value,
                       expirationDate: Value, clock: Clock): Job
    requires HasProps(a)
  {
    Job(
      id := Str(clock.id),
      url := url,
      directUrl := directUrl,
      title := Or(Field(a, "jobTitle"), Str("Unknown Position")),
      company := Or(Field(a, "company"), Str("Unknown Company")),
      location := Or(Field(a, "location"), Str("Location not specified")),
      grade := Or(Field(a, "grade"), Str("good")),
      gradeReason := Or(Field(a, "gradeReason"), Str("")),
      category := Or(Field(a, "experienceCategory"), Str("other")),
      ceoMatch := Or(Field(a, "ceoMatch"), Str("")),
      salary := Or(Field(a, "salary"), Str("Not listed")),
      requiresDiploma := Or(Field(a, "requiresDiploma"), Bool(false)),
      requiresLicense := Or(Field(a, "requiresLicense"), Bool(false)),
      datePosted := datePosted,
      expirationDate := expirationDate,
      submittedAt := Str(clock.timestamp),
      submittedBy := Str(SubmittedBy),
      needsReview := Bool(false))
  }

  /** The analysis property each defaulted field is read from, and its default. */
  const DefaultedFields: seq<(string, Value)> := [
    ("jobTitle", Str("Unknown Position")),
    ("company", Str("Unknown Company")),
    ("location", Str("Location not specified")),
    ("grade", Str("good")),
    ("gradeReason", Str("")),
    ("experienceCategory", Str("other")),
    ("ceoMatch", Str("")),
    ("salary", Str("Not listed")),
    ("requiresDiploma", Bool(false)),
    ("requiresLicense", Bool(false))
  ]

  /** The defaulted fields of a job, in the order of `DefaultedFields`. */
  function DefaultedValues(job: Job): seq<Value>
  {
    [job.title, job.company, job.location, job.grade, job.gradeReason, job.category,
     job.ceoMatch, job.salary, job.requiresDiploma, job.requiresLicense]
  }

  /** Each defaulted field is the analysis value when that is truthy and the
      field's default otherwise; the fixed fields are what the route says. */
  lemma AnalysisJobFields(a: Value, url: Value, directUrl: Value, datePosted: Value,
                          expirationDate: Value, clock: Clock)
    requires HasProps(a)
    ensures var job := AnalysisJob(a, url, directUrl, datePosted, expirationDate, clock);
            |DefaultedValues(job)| == |DefaultedFields| &&
            (forall k :: 0 <= k < |DefaultedFields| ==>
               var (key, default) := DefaultedFields[k];
               DefaultedValues(job)[k] == if Truthy(Field(a, key)) then Field(a, key) else default) &&
            job.url == url && job.directUrl == directUrl && job.datePosted == datePosted &&
            job.expirationDate == expirationDate && job.id == Str(clock.id) &&
            job.submittedAt == Str(clock.timestamp) && job.submittedBy == Str(SubmittedBy) &&
            job.needsReview == Bool(false)
  {
    var job := AnalysisJob(a, url, directUrl, datePosted, expirationDate, clock);
    var values := DefaultedValues(job);
    forall k | 0 <= k < |DefaultedFields|
      ensures var (key, default) := DefaultedFields[k];
              values[k] == if Truthy(Field(a, key)) then Field(a, key) else default
    {
      DefaultedAt(a, job, k);
    }
  }

  /** One defaulted field of a job built from `a`. */
  lemma DefaultedAt(a: Value, job: Job, k: int)
    requires HasProps(a) && 0 <= k < |DefaultedFields|
    requires DefaultedValues(job) == seq(|DefaultedFields|, i requires 0 <= i < |DefaultedFields| =>
                                           Or(Field(a, DefaultedFields[i].0), DefaultedFields[i].1))
    ensures var (key, default) := DefaultedFields[k];
            DefaultedValues(job)[k] == if Truthy(Field(a, key)) then Field(a, key) else default
  {
  }

  /** The defaults of the display fields are non-empty, so these fields are
      always truthy; and a job is complete when its fixed fields are. */
  lemma AnalysisJobTruthy(a: Value, url: Value, directUrl: Value, datePosted: Value,
                          expirationDate: Value, clock: Clock)
    requires HasProps(a)
    ensures var job := AnalysisJob(a, url, directUrl, datePosted, expirationDate, clock);
            Truthy(job.title) && Truthy(job.company) && Truthy(job.location) &&
            Truthy(job.grade) && Truthy(job.category) && Truthy(job.salary) &&
            ((url != Undefined && directUrl != Undefined && datePosted != Undefined &&
              expirationDate != Undefined) ==> Defined(job))
  {
  }
}
