/** How the board decides what to do with a job URL: Indeed postings and
    postings on applicant-tracking sites cannot be read by the classifier,
    so they are sent to manual entry instead. */
module UrlTriage {
  import opened JsText
  import opened JsValue

  /** `isIndeedUrl(url)`. */
  predicate IsIndeedUrl(url: string)
  {
    url != "" &&
    (Contains(Lower(url), "indeed.com") || Contains(Lower(url), "indeed.ca") || Contains(Lower(url), "indeed.co"))
  }

  /** The test for "indeed.com" adds nothing: "indeed.co" is a prefix of it.
      A URL is an Indeed URL exactly when it is non-empty and mentions
      "indeed.ca" or "indeed.co", in any letter case. */
  lemma IndeedUrlIff(url: string)
    ensures IsIndeedUrl(url) <==>
            url != "" && (Contains(Lower(url), "indeed.ca") || Contains(Lower(url), "indeed.co"))
    ensures !IsIndeedUrl("")
  {
    if Contains(Lower(url), "indeed.com") {
      ContainsShorter(Lower(url), "indeed.com", "indeed.co");
    }
  }

  /** Applicant-tracking and job-board domains whose pages the classifier
      cannot fetch. */
  const ProblematicDomains: seq<string> := [
    "workforcenow.adp.com",
    "workday.com",
    "myworkday",
    "taleo.net",
    "icims.com",
    "ultipro.com",
    "paycomonline.net",
    "lever.co",
    "greenhouse.io",
    "jobvite.com",
    "smartrecruiters.com"
  ]

  /** `isProblematicSite(url)`. */
  predicate IsProblematicSite(url: string)
  {
    url != "" && AnyOccurs(Lower(url), ProblematicDomains)
  }

  /** A URL is problematic exactly when it is non-empty and its lower-cased
      form mentions one of the eleven domains. */
  lemma ProblematicIff(url: string)
    ensures |ProblematicDomains| == 11
    ensures IsProblematicSite(url) <==>
            url != "" && exists k :: 0 <= k < |ProblematicDomains| && Contains(Lower(url), ProblematicDomains[k])
  {
  }

  /** Letter case does not matter to either test. */
  lemma TriageIgnoresCase(url: string)
    ensures IsIndeedUrl(Lower(url)) == IsIndeedUrl(url)
    ensures IsProblematicSite(Lower(url)) == IsProblematicSite(url)
  {
    assert Lower(Lower(url)) == Lower(url);
  }

  /** The URL goes to manual entry rather than to the classifier. */
  predicate NeedsManualEntry(url: string)
  {
    IsIndeedUrl(url) || IsProblematicSite(url)
  }

  /** What a single submission leads to. */
  datatype Submission =
    | AskForUrl          // "Please enter a job URL"
    | IndeedEntry        // switch to the Indeed form
    | ManualEntry        // switch to the manual-entry form
    | Analyze(url: string)  // POST `{url}` to the analysis route

  /** `handleSubmit`: a blank URL is refused, Indeed is checked before the
      other sites, and only the rest is analysed, with the trimmed URL. */
  function Submit(url: string): Submission
  {
    if Trim(url) == "" then AskForUrl
    else if IsIndeedUrl(url) then IndeedEntry
    else if IsProblematicSite(url) then ManualEntry
    else Analyze(Trim(url))
  }

  /** The order of the checks: blank, then Indeed (even on a URL that is
      also on the list of problematic sites), then the other sites; the
      classifier is called exactly for the remaining URLs. */
  lemma SubmitPrecedence(url: string)
    ensures Submit(url) == AskForUrl <==> AllWhite(url)
    ensures !AllWhite(url) && IsIndeedUrl(url) ==> Submit(url) == IndeedEntry
    ensures !AllWhite(url) && !IsIndeedUrl(url) && IsProblematicSite(url) ==> Submit(url) == ManualEntry
    ensures Submit(url).Analyze? <==> !AllWhite(url) && !NeedsManualEntry(url)
  {
    TrimBlank(url);
  }

  /** A URL that is analysed passes the route's own check for a URL. */
  lemma AnalyzedUrlAccepted(url: string)
    requires Submit(url).Analyze?
    ensures Truthy(Str(Submit(url).url))
  {
  }

  /** The two entry forms the URL field can switch on. */
  datatype Modes = Modes(indeed: bool, manual: bool)

  /** The effect that watches the URL field: an Indeed URL switches on the
      Indeed form and a problematic one the manual form, unless a form is
      already on. */
  function WatchUrl(url: string, modes: Modes): Modes
  {
    if IsIndeedUrl(url) then
      if !modes.indeed && !modes.manual then modes.(indeed := true) else modes
    else if IsProblematicSite(url) then
      if !modes.manual && !modes.indeed then modes.(manual := true) else modes
    else modes
  }

  /** The effect never turns a form off, never turns on both, and never
      turns on the manual form for an Indeed URL; with no form on, it turns
      on the form `handleSubmit` would route to. */
  lemma WatchUrlModes(url: string, modes: Modes)
    ensures var next := WatchUrl(url, modes);
            (modes.indeed ==> next.indeed) && (modes.manual ==> next.manual) &&
            (!(modes.indeed && modes.manual) ==> !(next.indeed && next.manual)) &&
            (IsIndeedUrl(url) ==> next.manual == modes.manual) &&
            (modes == Modes(false, false) && !AllWhite(url) ==>
               (next.indeed <==> Submit(url) == IndeedEntry) &&
               (next.manual <==> Submit(url) == ManualEntry))
  {
    TrimBlank(url);
  }
}
