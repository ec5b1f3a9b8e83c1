/** The placeholder job of "Add Anyway" and the row a job is stored as. */
module JobRecords {
  import opened JsText
  import opened JsValue
  import opened Intake
  import opened FrequentHirers

  /** `handleAddAnyway`: nothing for a blank URL; otherwise a job that
      carries only the trimmed URL and is marked for review. The page sets
      no id and no submission time on it. */
  function AddAnywayJob(url: string, today: string): Option<Job>
  {
    if Trim(url) == "" then None
    else
      Some(Job(
        id := Undefined,
        url := Str(Trim(url)),
        directUrl := Str(Trim(url)),
        title := Str("Needs Review"),
        company := Str("Unknown"),
        location := Str("Unknown"),
        grade := Str("good"),
        gradeReason := Str("Added manually - needs review"),
        category := Str("other"),
        ceoMatch := Str(""),
        salary := Str("Not listed"),
        requiresDiploma := Bool(false),
        requiresLicense := Bool(false),
        datePosted := Str(today),
        expirationDate := Null,
        submittedAt := Undefined,
        submittedBy := Str(SubmittedBy),
        needsReview := Bool(true)))
  }

  /** "Add Anyway" acts exactly on a URL that is not blank; the job links
      to the trimmed URL, names "Unknown" as company and location, is graded
      "good" in category "other", has no expiry and is marked for review. */
  lemma AddAnywayShape(url: string, today: string)
    ensures AddAnywayJob(url, today).None? <==> AllWhite(url)
    ensures AddAnywayJob(url, today).Some? ==>
              var job := AddAnywayJob(url, today).value;
              job.url == Str(Trim(url)) && job.directUrl == job.url && Truthy(job.url) &&
              job.title == Str("Needs Review") && job.company == Str("Unknown") &&
              job.location == Str("Unknown") && job.grade == Str("good") &&
              job.category == Str("other") && job.expirationDate == Null &&
              job.needsReview == Bool(true) && job.datePosted == Str(today)
  {
    TrimBlank(url);
  }

  /** A row of the `jobs` table, as `saveJobToSupabase` inserts it. The
      columns are named in snake case (`direct_url`, `grade_reason`,
      `ceo_match`, `requires_diploma`, `requires_license`, `date_posted`,
      `expiration_date`, `submitted_by`, `needs_review`,
      `frequent_hirer_slug`); `null` is `None`. */
  datatype Row = Row(
    url: Value,
    directUrl: Value,
    title: Value,
    company: Value,
    location: Value,
    grade: Value,
    gradeReason: Value,
    category: Value,
    ceoMatch: Value,
    salary: Value,
    requiresDiploma: Value,
    requiresLicense: Value,
    datePosted: Value,
    expirationDate: Value,
    submittedBy: Value,
    needsReview: Value,
    frequentHirerSlug: Option<string>)

  /** The row built in `saveJobToSupabase`. */
  function ToRow(job: Job): Row
  {
    Row(
      url := job.url,
      directUrl := job.directUrl,
      title := job.title,
      company := job.company,
      location := job.location,
      grade := job.grade,
      gradeReason := job.gradeReason,
      category := job.category,
      ceoMatch := job.ceoMatch,
      salary := job.salary,
      requiresDiploma := job.requiresDiploma,
      requiresLicense := job.requiresLicense,
      datePosted := job.datePosted,
      expirationDate := job.expirationDate,
      submittedBy := job.submittedBy,
      needsReview := Or(job.needsReview, Bool(false)),
      frequentHirerSlug := FirstHirer(SearchText(job.company, job.title), Hirers))
  }

  /** The stored review flag is a boolean-like value that is truthy exactly
      when the job's flag is, and never `undefined`; the hirer slug is the
      first table entry matching the company and title. */
  lemma RowReviewFlag(job: Job)
    ensures var row := ToRow(job);
            (Truthy(row.needsReview) <==> Truthy(job.needsReview)) &&
            row.needsReview != Undefined &&
            (!Truthy(job.needsReview) ==> row.needsReview == Bool(false)) &&
            (row.frequentHirerSlug.None? <==>
               forall k :: 0 <= k < |Hirers| ==> !Matches(SearchText(job.company, job.title), Hirers[k]))
  {
  }

  /** A job added anyway is stored marked for review; one produced by an
      analysis route is stored unmarked. */
  lemma StoredReviewFlags(url: string, today: string, a: Value, jobUrl: Value, directUrl: Value,
                          datePosted: Value, expirationDate: Value, clock: Clock)
    requires HasProps(a)
    ensures AddAnywayJob(url, today).Some? ==> ToRow(AddAnywayJob(url, today).value).needsReview == Bool(true)
    ensures ToRow(AnalysisJob(a, jobUrl, directUrl, datePosted, expirationDate, clock)).needsReview == Bool(false)
  {
  }

  /** `saveJobToSupabase(job)`: the slug is detected, the row inserted, and
      the insert's success reported; `insert` stands for the table. */
  method SaveJob(job: Job, insert: Row -> bool) returns (saved: bool)
    ensures saved == insert(ToRow(job))
  {
    var hirerSlug := DetectFrequentHirer(job);
    var row := ToRow(job).(frequentHirerSlug := hirerSlug);
    assert row == ToRow(job);
    saved := insert(row);
  }
}
