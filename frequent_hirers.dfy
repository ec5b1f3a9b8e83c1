/** Recognising the employers that hire the program's participants most
    often, by name patterns over the job's company and title. */
module FrequentHirers {
  import opened JsText
  import opened JsValue
  import opened Intake

  /** An entry of the table: the slug stored with a job, and the
      lower-case name fragments that identify the employer. */
  datatype Hirer = Hirer(slug: string, patterns: seq<string>)

  /** The table, in the order it is searched. */
  const Hirers: seq<Hirer> := [
    Hirer("walmart", ["walmart", "sam's club", "sams club"]),
    Hirer("amazon", ["amazon", "aws", "whole foods"]),
    Hirer("target", ["target"]),
    Hirer("fedex", ["fedex", "federal express"]),
    Hirer("ups", ["ups", "united parcel"]),
    Hirer("foster_farms", ["foster farms"]),
    Hirer("pridestaff", ["pridestaff"]),
    Hirer("randstad", ["randstad"]),
    Hirer("adecco", ["adecco"]),
    Hirer("home_depot", ["home depot", "homedepot", "the home depot"]),
    Hirer("lowes", ["lowe's", "lowes", "lowe"]),
    Hirer("starbucks", ["starbucks", "starbucks coffee"]),
    Hirer("mcdonalds", ["mcdonald's", "mcdonalds", "mcd"]),
    Hirer("kroger", ["kroger", "food 4 less", "food4less", "ralphs", "fred meyer"]),
    Hirer("goodwill", ["goodwill", "goodwill industries"]),
    Hirer("taco_bell", ["taco bell", "tacobell"]),
    Hirer("burger_king", ["burger king", "burgerking", "bk"])
  ]

  /** Some pattern of the entry occurs in the text. */
  predicate Matches(text: string, hirer: Hirer)
  {
    AnyOccurs(text, hirer.patterns)
  }

  /** The slug of the first entry, in table order, that matches the text. */
  function FirstHirer(text: string, table: seq<Hirer>): (r: Option<string>)
    ensures r.None? <==> forall k :: 0 <= k < |table| ==> !Matches(text, table[k])
    ensures r.Some? ==> exists k :: 0 <= k < |table| && table[k].slug == r.value &&
                                    Matches(text, table[k]) &&
                                    forall j :: 0 <= j < k ==> !Matches(text, table[j])
  {
    if |table| == 0 then None
    else if Matches(text, table[0]) then Some(table[0].slug)
    else
      var r := FirstHirer(text, table[1..]);
      assert forall k :: 1 <= k < |table| ==> table[k] == table[1..][k - 1];
      r
  }

  /** The search from entry `i` either stops at it or goes on with the next. */
  lemma FirstHirerStep(text: string, table: seq<Hirer>, i: nat)
    requires i < |table|
    ensures Matches(text, table[i]) ==> FirstHirer(text, table[i..]) == Some(table[i].slug)
    ensures !Matches(text, table[i]) ==> FirstHirer(text, table[i..]) == FirstHirer(text, table[i + 1..])
  {
    assert table[i..][0] == table[i];
    assert table[i..][1..] == table[i + 1..];
  }

  /** What the patterns are matched against: `${company} ${title}`,
      lower-cased. */
  function SearchText(company: Value, title: Value): string
  {
    Lower(ToJsString(company) + " " + ToJsString(title))
  }

  /** `detectFrequentHirer(job)`: a loop over the table that returns the
      first matching slug, or `null`. */
  method DetectFrequentHirer(job: Job) returns (slug: Option<string>)
    ensures slug == FirstHirer(SearchText(job.company, job.title), Hirers)
  {
    var searchText := SearchText(job.company, job.title);
    var i := 0;
    while i < |Hirers|
      invariant 0 <= i <= |Hirers|
      invariant FirstHirer(searchText, Hirers[i..]) == FirstHirer(searchText, Hirers)
    {
      var hirer := Hirers[i];
      FirstHirerStep(searchText, Hirers, i);
      if AnyOccurs(searchText, hirer.patterns) {
        return Some(hirer.slug);
      }
      i := i + 1;
    }
    return None;
  }

  /** The first match is the only answer: whichever slug an earlier entry
      would give wins over any later entry. */
  lemma {:induction false} FirstHirerUnique(text: string, table: seq<Hirer>, k: int)
    requires 0 <= k < |table| && Matches(text, table[k])
    requires forall j :: 0 <= j < k ==> !Matches(text, table[j])
    ensures FirstHirer(text, table) == Some(table[k].slug)
    decreases k
  {
    if k > 0 {
      assert forall j :: 0 <= j < k - 1 ==> table[1..][j] == table[j + 1];
      FirstHirerUnique(text, table[1..], k - 1);
    }
  }

  /** The search text starts with the lower-cased company name. */
  lemma SearchTextStarts(company: string, title: Value)
    ensures Lower(company) <= SearchText(Str(company), title)
  {
    var rest := " " + ToJsString(title);
    assert ToJsString(Str(company)) == company;
    assert company + " " + ToJsString(title) == company + rest;
    LowerAppend(company, rest);
  }

  /** The search text of a company named "Walmart Supercenter" starts with
      "walmart". */
  lemma WalmartText(title: Value)
    ensures OccursAt(SearchText(Str("Walmart Supercenter"), title), "walmart", 0)
  {
    assert "Walmart Supercenter" == "Walmart" + " Supercenter";
    LowerAppend("Walmart", " Supercenter");
    assert Lower("Walmart") == "walmart";
    SearchTextStarts("Walmart Supercenter", title);
  }

  /** A company named "Walmart Supercenter" is attributed to Walmart,
      whatever the title. */
  lemma WalmartSupercenter(title: Value)
    ensures FirstHirer(SearchText(Str("Walmart Supercenter"), title), Hirers) == Some("walmart")
  {
    var text := SearchText(Str("Walmart Supercenter"), title);
    WalmartText(title);
    var walmart := Hirers[0];
    assert walmart == Hirer("walmart", ["walmart", "sam's club", "sams club"]);
    assert Contains(text, walmart.patterns[0]);
    assert Matches(text, walmart);
  }

  /** The patterns are searched in lower case against a lower-cased text,
      so the case of the company and title does not matter. */
  lemma HirerIgnoresCase(company: string, title: string)
    ensures SearchText(Str(Lower(company)), Str(Lower(title))) == SearchText(Str(company), Str(title))
  {
    LowerAppend(Lower(company), " " + Lower(title));
    LowerAppend(company, " " + title);
    LowerAppend(" ", Lower(title));
    LowerAppend(" ", title);
    assert Lower(Lower(company)) == Lower(company);
    assert Lower(Lower(title)) == Lower(title);
  }
}
