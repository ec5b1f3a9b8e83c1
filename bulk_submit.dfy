/** Bulk submission: one URL per line; URLs that need manual entry are set
    aside, every other one is analysed and saved in turn, with a pause
    after each, and the run is summed up in one message. */
module BulkSubmit {
  import opened JsText
  import opened JsValue
  import opened Seqs
  import opened Intake
  import opened UrlTriage

  /** Every line, trimmed. */
  function TrimAll(lines: seq<string>): (r: seq<string>)
    ensures |r| == |lines|
  {
    seq(|lines|, k requires 0 <= k < |lines| => Trim(lines[k]))
  }

  predicate NonEmpty(s: string)
  {
    s != ""
  }

  /** `text.split("\\n").map(u => u.trim()).filter(u => u)`. */
  function UrlList(text: string): seq<string>
  {
    Filter(TrimAll(SplitLines(text)), NonEmpty)
  }

  /** The URL is sent to the analysis route. */
  predicate Automatic(url: string)
  {
    !NeedsManualEntry(url)
  }

  /** An entry of the error log (its time of day is left out). */
  datatype ErrorEntry = ErrorEntry(url: string, error: string, troubleshoot: Value)

  /** The running state of the loop: the counters, the error log, the URLs
      set aside and those sent to the route, and the pauses taken (ms). */
  datatype Tally = Tally(added: nat, failed: nat, errors: seq<ErrorEntry>,
                         manual: seq<string>, requested: seq<string>, pauses: seq<int>)

  const Start: Tally := Tally(0, 0, [], [], [], [])

  /** The pause after every analysed URL. */
  const PaceMs: int := 1000

  const DefaultTroubleshoot: string := "Check the URL and try again"

  /** One turn of the loop, for the URL at position `at` of the list.
      `setAside(url)` is the manual-entry test (`NeedsManualEntry` on the
      page); `analyze(at, url)` is the route's JSON answer to this request,
      or `None` when the request or the reading of its answer throws;
      `save(at, job)` is what `saveJobToSupabase` reports for it. The
      position lets a URL listed twice get two different answers. */
  function Step(t: Tally, at: nat, url: string, setAside: string -> bool,
                analyze: (nat, string) -> Option<Body>, save: (nat, Job) -> bool): Tally
  {
    if setAside(url) then t.(manual := t.manual + [url])
    else
      var sent := t.(requested := t.requested + [url], pauses := t.pauses + [PaceMs]);
      match analyze(at, url)
      case None =>
        sent.(failed := t.failed + 1,
              errors := t.errors + [ErrorEntry(url, "Request failed", Str("Network error - try again"))])
      case Some(body) =>
        if body.Failure? && body.error != "" then
          sent.(failed := t.failed + 1,
                errors := t.errors + [ErrorEntry(url, body.error, Or(body.troubleshoot, Str(DefaultTroubleshoot)))])
        else if body.Success? then
          if save(at, body.job) then sent.(added := t.added + 1) else sent.(failed := t.failed + 1)
        else sent
  }

  /** The loop over `urls`, in order. */
  function Run(urls: seq<string>, setAside: string -> bool,
               analyze: (nat, string) -> Option<Body>, save: (nat, Job) -> bool): Tally
  {
    if |urls| == 0 then Start
    else Step(Run(urls[..|urls| - 1], setAside, analyze, save), |urls| - 1, urls[|urls| - 1], setAside, analyze, save)
  }

  /** `Added N job(s)`. */
  function MessageHead(added: nat): string
  {
    "Added " + Dec(added) + " job" + (if added != 1 then "s" else "")
  }

  /** `, F failed`, when there are failures. */
  function FailedNote(failed: nat): string
  {
    if failed > 0 then ", " + Dec(failed) + " failed" else ""
  }

  /** `. M Indeed/ADP URL(s) need manual entry.`, when URLs were set aside. */
  function ManualNote(manual: nat): string
  {
    if manual > 0 then ". " + Dec(manual) + " Indeed/ADP URL(s) need manual entry." else ""
  }

  /** The summary shown after a bulk run. */
  function Message(added: nat, failed: nat, manual: nat): string
  {
    MessageHead(added) + FailedNote(failed) + ManualNote(manual)
  }

  /** What the page ends with: an error for an empty list, or the counts,
      the message and the text left in the bulk box. */
  datatype Outcome =
    | NoUrls
    | Done(tally: Tally, message: string, remaining: string)

  function Bulk(text: string, analyze: (nat, string) -> Option<Body>, save: (nat, Job) -> bool): Outcome
  {
    var urls := UrlList(text);
    if |urls| == 0 then NoUrls
    else
      var t := Run(urls, NeedsManualEntry, analyze, save);
      Done(t, Message(t.added, t.failed, |t.manual|), JoinLines(t.manual))
  }

  // ---------------------------------------------------------------------
  // Properties of a bulk run
  // ---------------------------------------------------------------------

  /** The message of `handleBulkSubmit`, built piece by piece. */
  method SummaryMessage(added: nat, failed: nat, manual: nat) returns (message: string)
    ensures message == Message(added, failed, manual)
  {
    message := MessageHead(added);
    if failed > 0 {
      message := message + FailedNote(failed);
    }
    if manual > 0 {
      message := message + ManualNote(manual);
    }
  }

  /** `handleBulkSubmit`. */
  method HandleBulkSubmit(bulkUrls: string, analyze: (nat, string) -> Option<Body>, save: (nat, Job) -> bool)
    returns (outcome: Outcome)
    ensures outcome == Bulk(bulkUrls, analyze, save)
  {
    var urls := UrlList(bulkUrls);
    if |urls| == 0 {
      return NoUrls;
    }
    var added, failed := 0, 0;
    var newErrors: seq<ErrorEntry> := [];
    var indeedUrls: seq<string> := [];
    var requested: seq<string> := [];
    var pauses: seq<int> := [];
    var i := 0;
    while i < |urls|
      invariant 0 <= i <= |urls|
      invariant Tally(added, failed, newErrors, indeedUrls, requested, pauses) == Run(urls[..i], NeedsManualEntry, analyze, save)
    {
      var jobUrl, at := urls[i], i;
      ghost var before := Tally(added, failed, newErrors, indeedUrls, requested, pauses);
      RunSnoc(urls, i, NeedsManualEntry, analyze, save);
      i := i + 1;
      if IsIndeedUrl(jobUrl) || IsProblematicSite(jobUrl) {
        indeedUrls := indeedUrls + [jobUrl];
        assert Tally(added, failed, newErrors, indeedUrls, requested, pauses) == Step(before, at, jobUrl, NeedsManualEntry, analyze, save);
        continue;
      }
      requested := requested + [jobUrl];
      var data := analyze(at, jobUrl);
      if data.None? {
        failed := failed + 1;
        newErrors := newErrors + [ErrorEntry(jobUrl, "Request failed", Str("Network error - try again"))];
      } else if data.value.Failure? && data.value.error != "" {
        failed := failed + 1;
        newErrors := newErrors + [ErrorEntry(jobUrl, data.value.error, Or(data.value.troubleshoot, Str(DefaultTroubleshoot)))];
      } else if data.value.Success? {
        var saved := save(at, data.value.job);
        if saved {
          added := added + 1;
        } else {
          failed := failed + 1;
        }
      }
      pauses := pauses + [PaceMs];
      assert Tally(added, failed, newErrors, indeedUrls, requested, pauses) == Step(before, at, jobUrl, NeedsManualEntry, analyze, save);
    }
    assert urls[..i] == urls;
    var message := SummaryMessage(added, failed, |indeedUrls|);
    outcome := Done(Tally(added, failed, newErrors, indeedUrls, requested, pauses), message, JoinLines(indeedUrls));
  }

  /** The loop over one more URL is one more turn. */
  lemma RunSnoc(urls: seq<string>, i: nat, setAside: string -> bool,
                analyze: (nat, string) -> Option<Body>, save: (nat, Job) -> bool)
    requires i < |urls|
    ensures Run(urls[..i + 1], setAside, analyze, save) ==
            Step(Run(urls[..i], setAside, analyze, save), i, urls[i], setAside, analyze, save)
  {
    assert urls[..i + 1][..i] == urls[..i];
  }

  /** The URLs the test does not set aside. */
  function Not(setAside: string -> bool): string -> bool
  {
    u => !setAside(u)
  }

  /** What a tally built by the loop always satisfies: each sent URL adds to
      at most one counter and is followed by one pause of one second; the
      log holds at most one entry per failure, for a sent URL, always with a
      troubleshooting hint. */
  predicate Consistent(t: Tally)
  {
    && t.added + t.failed <= |t.requested|
    && |t.errors| <= t.failed
    && |t.pauses| == |t.requested|
    && (forall k :: 0 <= k < |t.pauses| ==> t.pauses[k] == PaceMs)
    && (forall k :: 0 <= k < |t.errors| ==>
          t.errors[k].url in t.requested && Truthy(t.errors[k].troubleshoot))
  }

  /** One turn keeps the tally consistent and appends the URL to exactly
      one of the two lists. */
  lemma StepConsistent(t: Tally, at: nat, url: string, setAside: string -> bool,
                       analyze: (nat, string) -> Option<Body>, save: (nat, Job) -> bool)
    requires Consistent(t)
    ensures var t' := Step(t, at, url, setAside, analyze, save);
            Consistent(t') &&
            t'.manual == t.manual + (if setAside(url) then [url] else []) &&
            t'.requested == t.requested + (if Not(setAside)(url) then [url] else []) &&
            t'.pauses == t.pauses + (if Not(setAside)(url) then [PaceMs] else [])
  {
    var t' := Step(t, at, url, setAside, analyze, save);
    if !setAside(url) {
      assert t'.requested == t.requested + [url];
      assert t.errors <= t'.errors;
      forall k | 0 <= k < |t'.errors|
        ensures t'.errors[k].url in t'.requested && Truthy(t'.errors[k].troubleshoot)
      {
        if k < |t.errors| {
          assert t'.errors[k] == t.errors[k];
        }
      }
    }
  }

  /** The URLs set aside are exactly those the test picks and the URLs sent
      exactly the others, both in input order, and the tally is consistent. */
  lemma {:induction false} RunShape(urls: seq<string>, setAside: string -> bool,
                                    analyze: (nat, string) -> Option<Body>, save: (nat, Job) -> bool)
    ensures var t := Run(urls, setAside, analyze, save);
            t.manual == Filter(urls, setAside) &&
            t.requested == Filter(urls, Not(setAside)) &&
            Consistent(t)
  {
    if |urls| > 0 {
      var init := urls[..|urls| - 1];
      var url := urls[|urls| - 1];
      assert urls == init + [url];
      RunShape(init, setAside, analyze, save);
      FilterSnoc(init, url, setAside);
      FilterSnoc(init, url, Not(setAside));
      StepConsistent(Run(init, setAside, analyze, save), |init|, url, setAside, analyze, save);
    }
  }

  /** One analysed URL: a thrown request and a reported error are logged
      and counted as failures (the reported one with the default hint when
      it has none); a job is counted as added when it is stored and as a
      failure, without a log entry, when it is not. */
  lemma StepOutcomes(t: Tally, at: nat, url: string, analyze: (nat, string) -> Option<Body>, save: (nat, Job) -> bool)
    requires Automatic(url)
    ensures var n := Step(t, at, url, NeedsManualEntry, analyze, save);
            n.requested == t.requested + [url] && n.manual == t.manual &&
            (analyze(at, url).None? ==>
               n.failed == t.failed + 1 && n.added == t.added &&
               n.errors == t.errors + [ErrorEntry(url, "Request failed", Str("Network error - try again"))]) &&
            (analyze(at, url).Some? && analyze(at, url).value.Failure? && analyze(at, url).value.error != "" ==>
               n.failed == t.failed + 1 && n.added == t.added &&
               n.errors == t.errors + [ErrorEntry(url, analyze(at, url).value.error,
                 if Truthy(analyze(at, url).value.troubleshoot) then analyze(at, url).value.troubleshoot
                 else Str(DefaultTroubleshoot))]) &&
            (analyze(at, url).Some? && analyze(at, url).value.Success? ==>
               n.errors == t.errors &&
               (save(at, analyze(at, url).value.job) ==> n.added == t.added + 1 && n.failed == t.failed) &&
               (!save(at, analyze(at, url).value.job) ==> n.added == t.added && n.failed == t.failed + 1))
  {
  }

  /** A URL set aside is neither requested nor paused for. */
  lemma ManualUrlsUntouched(t: Tally, at: nat, url: string, analyze: (nat, string) -> Option<Body>, save: (nat, Job) -> bool)
    requires NeedsManualEntry(url)
    ensures Step(t, at, url, NeedsManualEntry, analyze, save) == t.(manual := t.manual + [url])
  {
  }

  /** A trimmed line is trimmed already and holds no newline when the line
      held none. */
  lemma TrimmedLine(line: string)
    requires '\n' !in line
    ensures '\n' !in Trim(line) && Trim(Trim(line)) == Trim(line)
  {
    TrimIdempotent(line);
    TrimChars(line);
  }

  /** Every URL of the list is trimmed, not empty and on one line. */
  lemma UrlListClean(text: string)
    ensures forall k :: 0 <= k < |UrlList(text)| ==>
              var u := UrlList(text)[k];
              u != "" && '\n' !in u && Trim(u) == u
  {
    var lines := SplitLines(text);
    var trimmed := TrimAll(lines);
    var urls := UrlList(text);
    forall k | 0 <= k < |urls|
      ensures urls[k] != "" && '\n' !in urls[k] && Trim(urls[k]) == urls[k]
    {
      assert NonEmpty(urls[k]);
      var j :| 0 <= j < |trimmed| && trimmed[j] == urls[k];
      TrimmedLine(lines[j]);
    }
  }

  /** Trimming clean lines changes nothing. */
  lemma TrimAllClean(lines: seq<string>)
    requires forall k :: 0 <= k < |lines| ==> Trim(lines[k]) == lines[k]
    ensures TrimAll(lines) == lines
  {
  }

  /** The empty text holds no URL. */
  lemma NoUrlsInEmpty()
    ensures UrlList("") == []
  {
    assert SplitLines("") == [""];
    TrimBlank("");
    assert TrimAll([""]) == [""];
  }

  /** A list of clean URLs is read back from its lines unchanged. */
  lemma UrlListOfLines(urls: seq<string>)
    requires forall k :: 0 <= k < |urls| ==> urls[k] != "" && '\n' !in urls[k] && Trim(urls[k]) == urls[k]
    ensures UrlList(JoinLines(urls)) == urls
  {
    if |urls| == 0 {
      NoUrlsInEmpty();
    } else {
      SplitJoin(urls);
      TrimAllClean(urls);
      FilterAll(urls, NonEmpty);
    }
  }

  /** The text left in the bulk box is the list of URLs set aside, one per
      line: submitting it again reads back exactly those URLs. */
  lemma RemainingResubmits(text: string, analyze: (nat, string) -> Option<Body>, save: (nat, Job) -> bool)
    requires Bulk(text, analyze, save).Done?
    ensures var o := Bulk(text, analyze, save);
            o.remaining == JoinLines(o.tally.manual) &&
            UrlList(o.remaining) == o.tally.manual
  {
    var urls := UrlList(text);
    var t := Run(urls, NeedsManualEntry, analyze, save);
    RunShape(urls, NeedsManualEntry, analyze, save);
    UrlListClean(text);
    forall k | 0 <= k < |t.manual|
      ensures t.manual[k] != "" && '\n' !in t.manual[k] && Trim(t.manual[k]) == t.manual[k]
    {
      assert t.manual[k] in urls;
    }
    UrlListOfLines(t.manual);
  }

  /** The notes after the head start with a comma or a full stop. */
  lemma NotesStart(failed: nat, manual: nat)
    ensures var notes := FailedNote(failed) + ManualNote(manual);
            notes == [] || notes[0] == ',' || notes[0] == '.'
  {
  }

  /** A prefix of a concatenation, and the character that follows it. */
  lemma ConcatAt(a: string, b: string, c: string, d: string)
    ensures a <= ((a + b) + c) + d
    ensures ((a + b) + c) + d == a + (b + (c + d))
    ensures |b + (c + d)| > 0 ==> (((a + b) + c) + d)[|a|] == (b + (c + d))[0]
  {
    assert ((a + b) + c) + d == a + (b + (c + d));
  }

  /** The message begins with the number added and "job", followed by "s"
      exactly when that number is not one. */
  lemma MessagePlural(added: nat, failed: nat, manual: nat)
    ensures var head := "Added " + Dec(added) + " job";
            var m := Message(added, failed, manual);
            head <= m && (added != 1 <==> |m| > |head| && m[|head|] == 's')
  {
    var head := "Added " + Dec(added) + " job";
    var plural := if added != 1 then "s" else "";
    ConcatAt(head, plural, FailedNote(failed), ManualNote(manual));
    NotesStart(failed, manual);
    if added == 1 {
      assert plural + (FailedNote(failed) + ManualNote(manual)) == FailedNote(failed) + ManualNote(manual);
    }
  }

  /** A character that is neither a digit nor a minus sign never appears
      in the decimal form of a number. */
  lemma DecNoLetter(n: int, c: char)
    requires !IsDigit(c) && c != '-'
    ensures c !in Dec(n)
  {
    forall k | 0 <= k < |Dec(n)|
      ensures Dec(n)[k] != c
    {
    }
  }

  /** The head of the message holds neither 'f' nor 'I'. */
  lemma HeadLetters(added: nat)
    ensures 'f' !in MessageHead(added) && 'I' !in MessageHead(added)
  {
    DecNoLetter(added, 'f');
    DecNoLetter(added, 'I');
  }

  /** The note on failures holds no 'I'. */
  lemma FailedLetters(failed: nat)
    ensures 'I' !in FailedNote(failed)
  {
    DecNoLetter(failed, 'I');
  }

  /** The note on URLs set aside holds no 'f'. */
  lemma ManualLetters(manual: nat)
    ensures 'f' !in ManualNote(manual)
  {
    DecNoLetter(manual, 'f');
    assert 'f' !in " Indeed/ADP URL(s) need manual entry.";
  }

  /** The failures are mentioned exactly when there are any. */
  lemma MessageFailures(added: nat, failed: nat, manual: nat)
    ensures failed > 0 ==> Contains(Message(added, failed, manual), ", " + Dec(failed) + " failed")
    ensures failed == 0 ==> 'f' !in Message(added, failed, manual)
  {
    var head := MessageHead(added);
    var fpart := FailedNote(failed);
    var mpart := ManualNote(manual);
    assert Message(added, failed, manual) == head + (fpart + mpart);
    if failed > 0 {
      ContainsPrefix(fpart + mpart, fpart);
      ContainsRight(head, fpart + mpart, fpart);
    } else {
      HeadLetters(added);
      ManualLetters(manual);
    }
  }

  /** The URLs set aside are mentioned exactly when there are any. */
  lemma MessageManual(added: nat, failed: nat, manual: nat)
    ensures manual > 0 ==> Contains(Message(added, failed, manual), ". " + Dec(manual) + " Indeed/ADP URL(s) need manual entry.")
    ensures manual == 0 ==> 'I' !in Message(added, failed, manual)
  {
    var head := MessageHead(added);
    var fpart := FailedNote(failed);
    var mpart := ManualNote(manual);
    if manual > 0 {
      ContainsPrefix(mpart, mpart);
      ContainsRight(head + fpart, mpart, mpart);
    } else {
      HeadLetters(added);
      FailedLetters(failed);
    }
  }

  /** Three URLs of which the second needs manual entry: the second is set
      aside, the first and third are sent in order, and there is a pause
      after each of them, the last included. */
  lemma ThreeUrlsSecondManual(u1: string, u2: string, u3: string, analyze: (nat, string) -> Option<Body>, save: (nat, Job) -> bool)
    requires Automatic(u1) && NeedsManualEntry(u2) && Automatic(u3)
    ensures var t := Run([u1, u2, u3], NeedsManualEntry, analyze, save);
            t.manual == [u2] && t.requested == [u1, u3] && t.pauses == [1000, 1000]
  {
    var urls := [u1, u2, u3];
    assert urls[..0] == [] && urls[..1] == [u1] && urls[..2] == [u1, u2] && urls[..3] == urls;
    var t1 := Step(Start, 0, u1, NeedsManualEntry, analyze, save);
    StepConsistent(Start, 0, u1, NeedsManualEntry, analyze, save);
    RunSnoc(urls, 0, NeedsManualEntry, analyze, save);
    var t2 := Step(t1, 1, u2, NeedsManualEntry, analyze, save);
    StepConsistent(t1, 1, u2, NeedsManualEntry, analyze, save);
    RunSnoc(urls, 1, NeedsManualEntry, analyze, save);
    StepConsistent(t2, 2, u3, NeedsManualEntry, analyze, save);
    RunSnoc(urls, 2, NeedsManualEntry, analyze, save);
  }
}
