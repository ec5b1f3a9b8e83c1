/** Which stored jobs the board shows: the active ones, narrowed by the
    grade, category, diploma and license filters. */
module JobViews {
  import opened JsValue
  import opened Seqs
  import opened JobRecords

  /** A job as read back from the `jobs` table: the inserted row and the
      `submitted_at` column the table fills in. */
  datatype StoredJob = StoredJob(row: Row, submittedAt: Value)

  /** Milliseconds in a day. */
  const DayMs: int := 1000 * 60 * 60 * 24

  /** How long a job without an expiry date stays on the board, in days. */
  const ActiveDays: int := 21

  /** The active-job test of `fetchJobs`. `date(v)` is the time `new Date(v)`
      stands for, in milliseconds, or `None` for an invalid date (every
      comparison with it is false). */
  predicate IsActive(job: StoredJob, now: int, date: Value -> Option<int>)
  {
    if Truthy(job.row.expirationDate) then
      date(job.row.expirationDate).Some? && date(job.row.expirationDate).value > now
    else
      date(job.submittedAt).Some? && now - date(job.submittedAt).value <= ActiveDays * DayMs
  }

  /** What the `jobs` query returned: an error, or `data`, which may be
      `null` (`None`). */
  datatype Fetched = QueryFailed | Rows(data: Option<seq<StoredJob>>)

  /** The list `fetchJobs` leaves on the board. After a failed query only
      the error is logged and `shown`, the list already on the board,
      stays; otherwise the board gets `(data || []).filter(...)`. */
  function ActiveJobs(shown: seq<StoredJob>, fetched: Fetched, now: int, date: Value -> Option<int>): (r: seq<StoredJob>)
    ensures fetched.QueryFailed? ==> r == shown
    ensures fetched == Rows(None) ==> r == []
    ensures fetched.Rows? && fetched.data.Some? ==>
              IsSubsequence(r, fetched.data.value) &&
              (forall job :: job in r <==> job in fetched.data.value && IsActive(job, now, date)) &&
              (forall job :: multiset(r)[job] ==
                 if IsActive(job, now, date) then multiset(fetched.data.value)[job] else 0)
  {
    match fetched
    case QueryFailed => shown
    case Rows(data) =>
      var rows := if data.Some? then data.value else [];
      var keep := job => IsActive(job, now, date);
      FilterCount(rows, keep);
      Filter(rows, keep)
  }

  /** An expiry date decides on its own: a job is shown until it, however
      old, and dropped after it, however recent. Without one, a job is
      shown for 21 days after submission, the last day included. */
  lemma ActiveRule(job: StoredJob, now: int, date: Value -> Option<int>)
    ensures Truthy(job.row.expirationDate) && date(job.row.expirationDate).Some? ==>
              (IsActive(job, now, date) <==> date(job.row.expirationDate).value > now)
    ensures !Truthy(job.row.expirationDate) && date(job.submittedAt).Some? ==>
              (IsActive(job, now, date) <==> now - date(job.submittedAt).value <= 21 * 86400000)
    ensures date(job.row.expirationDate).None? && Truthy(job.row.expirationDate) ==> !IsActive(job, now, date)
  {
  }

  /** A job is shown again at any earlier time at which it was shown. */
  lemma ActiveEarlier(job: StoredJob, now: int, earlier: int, date: Value -> Option<int>)
    requires earlier <= now && IsActive(job, now, date)
    ensures IsActive(job, earlier, date)
  {
  }

  /** The values of the four view filters. */
  datatype Filters = Filters(grade: string, category: string, diploma: string, license: string)

  /** Every filter is off. */
  const AllFilters: Filters := Filters("all", "all", "all", "all")

  /** The test of `filteredJobs`: the grade and category must match unless
      the filter is "all"; "yes" and "no" require the diploma (license)
      flag to be truthy or falsy, and any other value does not filter. */
  predicate Keeps(job: StoredJob, f: Filters)
  {
    && (f.grade == "all" || job.row.grade == Str(f.grade))
    && (f.category == "all" || job.row.category == Str(f.category))
    && !(f.diploma == "no" && Truthy(job.row.requiresDiploma))
    && !(f.diploma == "yes" && !Truthy(job.row.requiresDiploma))
    && !(f.license == "no" && Truthy(job.row.requiresLicense))
    && !(f.license == "yes" && !Truthy(job.row.requiresLicense))
  }

  /** `filteredJobs`. */
  function FilterJobs(jobs: seq<StoredJob>, f: Filters): (r: seq<StoredJob>)
    ensures IsSubsequence(r, jobs)
    ensures forall job :: job in r <==> job in jobs && Keeps(job, f)
    ensures forall job :: multiset(r)[job] == if Keeps(job, f) then multiset(jobs)[job] else 0
  {
    var keep := job => Keeps(job, f);
    FilterCount(jobs, keep);
    Filter(jobs, keep)
  }

  /** With every filter set to "all" the view shows every job, in order. */
  lemma AllFiltersKeepAll(jobs: seq<StoredJob>)
    ensures FilterJobs(jobs, AllFilters) == jobs
  {
    FilterAll(jobs, job => Keeps(job, AllFilters));
  }

  /** "yes" shows only jobs that require a diploma and "no" only jobs that
      do not, whatever the other filters; the same holds for licenses. */
  lemma DiplomaLicenseFilters(jobs: seq<StoredJob>, f: Filters)
    ensures f.diploma == "yes" ==> forall job :: job in FilterJobs(jobs, f) ==> Truthy(job.row.requiresDiploma)
    ensures f.diploma == "no" ==> forall job :: job in FilterJobs(jobs, f) ==> !Truthy(job.row.requiresDiploma)
    ensures f.license == "yes" ==> forall job :: job in FilterJobs(jobs, f) ==> Truthy(job.row.requiresLicense)
    ensures f.license == "no" ==> forall job :: job in FilterJobs(jobs, f) ==> !Truthy(job.row.requiresLicense)
    ensures f.grade != "all" ==> forall job :: job in FilterJobs(jobs, f) ==> job.row.grade == Str(f.grade)
  {
  }

  /** Narrowing a filter never shows more: a job kept with a grade filter
      is kept with that filter off. */
  lemma GradeFilterNarrows(jobs: seq<StoredJob>, f: Filters)
    ensures forall job :: job in FilterJobs(jobs, f) ==> job in FilterJobs(jobs, f.(grade := "all"))
  {
  }
}
