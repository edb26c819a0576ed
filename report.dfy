/**
 * The notification `_send_notification` prepares: a subject chosen by
 * whether any source failed, and a plain-text body with a summary block, one
 * line per success, one line per failure and a fixed footer. Dates and the
 * elapsed time arrive already formatted.
 */
module Report {
  import opened Wrappers
  import opened Decimal
  import opened Outcomes

  datatype Message = Message(subject: string, body: string)

  const AlertPrefix := "[ALERT] Backup job completed with "
  const AlertSuffix := " failures"
  const SuccessPrefix := "Backup job completed successfully - "

  /** The subject line; `date` is `datetime.now().strftime('%Y-%m-%d')`. */
  function Subject(failures: seq<FailureEntry>, date: string): string
  {
    if |failures| > 0 then AlertPrefix + NatToString(|failures|) + AlertSuffix
    else SuccessPrefix + date
  }

  /** How many failures an alert subject announces; None for any other subject. */
  function AlertCount(subject: string): Option<nat>
  {
    if |subject| < |AlertPrefix| + |AlertSuffix| || subject[..|AlertPrefix|] != AlertPrefix
       || subject[|subject| - |AlertSuffix|..] != AlertSuffix then None
    else
      var digits := subject[|AlertPrefix|..|subject| - |AlertSuffix|];
      if digits != [] && AllDigits(digits) then Some(ParseNat(digits)) else None
  }

  /** The subject is an alert exactly when some source failed, and it announces how many. */
  lemma SubjectAnnouncesFailures(failures: seq<FailureEntry>, date: string)
    ensures AlertCount(Subject(failures, date)) == if |failures| > 0 then Some(|failures|) else None
  {
    var s := Subject(failures, date);
    if |failures| > 0 {
      var n := NatToString(|failures|);
      assert s[..|AlertPrefix|] == AlertPrefix;
      assert s[|s| - |AlertSuffix|..] == AlertSuffix;
      assert s[|AlertPrefix|..|s| - |AlertSuffix|] == n;
      ParseNatToString(|failures|);
    } else {
      assert s[0] == 'B';
      assert |s| >= |AlertPrefix| ==> s[..|AlertPrefix|][0] != AlertPrefix[0];
    }
  }

  // The summary block of the body, with the triple-quoted literal's indentation.
  const Heading := "\n        Backup Job Report\n        ----------------\n        Date: "
  const ElapsedLabel := "\n        Elapsed Time: "
  const SuccessCountLabel := " seconds\n        \n        Summary:\n        - Successful Backups: "
  const FailureCountLabel := "\n        - Failed Backups: "
  const SummaryEnd := "\n        \n        "
  const SuccessHeading := "\nSuccessful Backups:\n"
  const FailureHeading := "\nFailed Backups:\n"
  const Footer := "\n\nThis is an automated message. Please do not reply."

  /** The two summary counts as the body prints them. */
  function Counts(successCount: nat, failureCount: nat): string
  {
    SuccessCountLabel + NatToString(successCount) + FailureCountLabel + NatToString(failureCount) + SummaryEnd
  }

  /** The summary block; `date` is the `%Y-%m-%d %H:%M:%S` time, `elapsed` the `:.2f` seconds. */
  function Summary(date: string, elapsed: string, successCount: nat, failureCount: nat): string
  {
    Heading + date + ElapsedLabel + elapsed + Counts(successCount, failureCount)
  }

  function SuccessLine(e: SuccessEntry): string
  {
    "- " + e.name + ": " + e.source + " \U{2192} " + e.artifact + "\n"
  }

  function FailureLine(e: FailureEntry): string
  {
    "- " + e.name + ": " + e.source + " - Error: " + e.reason + "\n"
  }

  /** The lines of one section, one per entry, in list order. */
  function Lines<T>(entries: seq<T>, line: T -> string): string
  {
    if entries == [] then "" else Lines(entries[..|entries| - 1], line) + line(entries[|entries| - 1])
  }

  /** The text after the summary block. */
  function Sections(s: seq<SuccessEntry>, f: seq<FailureEntry>): string
  {
    (if |s| > 0 then SuccessHeading + Lines(s, SuccessLine) else "")
    + (if |f| > 0 then FailureHeading + Lines(f, FailureLine) else "")
    + Footer
  }

  /** The whole body: a section appears only for a non-empty list. */
  function ReportBody(date: string, elapsed: string, s: seq<SuccessEntry>, f: seq<FailureEntry>): string
  {
    Summary(date, elapsed, |s|, |f|) + Sections(s, f)
  }

  /** The length of the run of decimal digits that starts `s`. */
  function LeadingDigits(s: string): (k: nat)
    ensures k <= |s| && AllDigits(s[..k])
    ensures k < |s| ==> !IsDigit(s[k])
  {
    if s == [] || !IsDigit(s[0]) then 0
    else
      var k := 1 + LeadingDigits(s[1..]);
      assert s[..k] == [s[0]] + s[1..][..k - 1];
      k
  }

  /** The digit run at the start of a printed number followed by a non-digit is the number. */
  lemma {:induction false} LeadingDigitsOfNumber(digits: string, rest: string)
    requires AllDigits(digits) && rest != [] && !IsDigit(rest[0])
    ensures LeadingDigits(digits + rest) == |digits|
    decreases |digits|
  {
    var t := digits + rest;
    if digits == [] {
      assert t == rest;
    } else {
      assert t[0] == digits[0] && IsDigit(t[0]);
      assert t[1..] == digits[1..] + rest;
      LeadingDigitsOfNumber(digits[1..], rest);
    }
  }

  /** Reads the two counts back out of a summary's count lines. */
  function ReadCounts(t: string): Option<(nat, nat)>
  {
    if !(SuccessCountLabel <= t) then None
    else
      var rest := t[|SuccessCountLabel|..];
      var k := LeadingDigits(rest);
      var tail := rest[k..];
      if k == 0 || !(FailureCountLabel <= tail) then None
      else
        var rest' := tail[|FailureCountLabel|..];
        var k' := LeadingDigits(rest');
        if k' == 0 || rest'[k'..] != SummaryEnd then None
        else Some((ParseNat(rest[..k]), ParseNat(rest'[..k'])))
  }

  /** The summary's counts read back as exactly the numbers printed into it. */
  lemma CountsReadBack(successCount: nat, failureCount: nat)
    ensures ReadCounts(Counts(successCount, failureCount)) == Some((successCount, failureCount))
  {
    var t := Counts(successCount, failureCount);
    var ns, nf := NatToString(successCount), NatToString(failureCount);
    var rest := t[|SuccessCountLabel|..];
    assert SuccessCountLabel <= t;
    assert rest == ns + (FailureCountLabel + nf + SummaryEnd);
    LeadingDigitsOfNumber(ns, FailureCountLabel + nf + SummaryEnd);
    assert rest[..|ns|] == ns;
    var tail := rest[|ns|..];
    assert tail == FailureCountLabel + nf + SummaryEnd;
    var rest' := tail[|FailureCountLabel|..];
    assert rest' == nf + SummaryEnd;
    LeadingDigitsOfNumber(nf, SummaryEnd);
    assert rest'[..|nf|] == nf;
    ParseNatToString(successCount);
    ParseNatToString(failureCount);
  }

  /** The parts of `x + y + z` are recovered by slicing at their lengths. */
  lemma SliceParts(x: string, y: string, z: string)
    ensures (x + y + z)[..|x|] == x && (x + y + z)[|x|..|x| + |y|] == y
  {
    assert (x + y + z)[..|x|] == x;
    assert (x + y + z)[|x|..|x| + |y|] == y;
  }

  /** The body opens with the two counts of the lists it reports on. */
  lemma BodyCountsLists(date: string, elapsed: string, s: seq<SuccessEntry>, f: seq<FailureEntry>)
    ensures var prefix := Heading + date + ElapsedLabel + elapsed;
            var body := ReportBody(date, elapsed, s, f);
            var k := |prefix| + |Counts(|s|, |f|)|;
            k <= |body| && body[..|prefix|] == prefix
            && ReadCounts(body[|prefix|..k]) == Some((|s|, |f|))
  {
    var prefix := Heading + date + ElapsedLabel + elapsed;
    var c := Counts(|s|, |f|);
    var rest := Sections(s, f);
    assert ReportBody(date, elapsed, s, f) == prefix + c + rest;
    SliceParts(prefix, c, rest);
    CountsReadBack(|s|, |f|);
  }

  /** Splitting the entries splits the section between the two parts. */
  lemma {:induction false} LinesConcat<T>(a: seq<T>, b: seq<T>, line: T -> string)
    ensures Lines(a + b, line) == Lines(a, line) + Lines(b, line)
    decreases |b|
  {
    if b != [] {
      var b' := b[..|b| - 1];
      assert (a + b)[..|a + b| - 1] == a + b';
      LinesConcat(a, b', line);
    } else {
      assert a + b == a;
    }
  }

  /** A section holds the line of entry `i` right after the lines of all earlier entries. */
  lemma LineAt<T>(entries: seq<T>, i: nat, line: T -> string)
    requires i < |entries|
    ensures Lines(entries, line) == Lines(entries[..i], line) + line(entries[i]) + Lines(entries[i + 1..], line)
  {
    var upTo := entries[..i + 1];
    assert entries == upTo + entries[i + 1..];
    LinesConcat(upTo, entries[i + 1..], line);
    assert upTo[..i] == entries[..i];
  }

  /** `for ... in successful_backups: body += ...`, and the same loop over `failed_backups`. */
  method AppendLines<T>(prefix: string, entries: seq<T>, line: T -> string) returns (body: string)
    ensures body == prefix + Lines(entries, line)
  {
    body := prefix;
    for i := 0 to |entries|
      invariant body == prefix + Lines(entries[..i], line)
    {
      assert entries[..i + 1][..i] == entries[..i];
      body := body + line(entries[i]);
    }
    assert entries[..|entries|] == entries;
  }

  /** The body as the source builds it, appending section by section and line by line. */
  method ComposeBody(date: string, elapsed: string, s: seq<SuccessEntry>, f: seq<FailureEntry>)
    returns (body: string)
    ensures body == ReportBody(date, elapsed, s, f)
  {
    var summary := Summary(date, elapsed, |s|, |f|);
    ghost var successPart := if |s| > 0 then SuccessHeading + Lines(s, SuccessLine) else "";
    ghost var failurePart := if |f| > 0 then FailureHeading + Lines(f, FailureLine) else "";
    body := summary;
    if |s| > 0 {
      body := AppendLines(body + SuccessHeading, s, SuccessLine);
      Regroup3(summary, SuccessHeading, Lines(s, SuccessLine));
    } else {
      EmptyRight(summary);
    }
    ghost var upToFailures := body;
    if |f| > 0 {
      body := AppendLines(body + FailureHeading, f, FailureLine);
      Regroup3(upToFailures, FailureHeading, Lines(f, FailureLine));
    } else {
      EmptyRight(upToFailures);
    }
    Regroup(summary, successPart, failurePart, Footer);
    body := body + Footer;
  }

  // String associativity, kept as separate lemmas: stated inline, these
  // equalities make the verifier unfold the whole body text.
  lemma EmptyRight(x: string)
    ensures x + "" == x
  {
  }

  lemma Regroup3(x: string, y: string, z: string)
    ensures x + (y + z) == x + y + z
  {
  }

  lemma Regroup(w: string, x: string, y: string, z: string)
    ensures w + x + y + z == w + (x + y + z)
  {
  }

  /**
   * `_send_notification`: builds the message and hands it to the SMTP
   * client. A delivery error is caught and only logged, so the caller
   * sees no difference; `delivered` records which case happened.
   */
  method SendNotification(successes: seq<SuccessEntry>, failures: seq<FailureEntry>,
                          subjectDate: string, reportDate: string, elapsed: string,
                          smtp: Message -> Option<string>)
    returns (msg: Message, delivered: bool)
    ensures msg.subject == Subject(failures, subjectDate)
    ensures msg.body == ReportBody(reportDate, elapsed, successes, failures)
    ensures delivered <==> smtp(msg).None?
  {
    var subject := Subject(failures, subjectDate);
    var body := ComposeBody(reportDate, elapsed, successes, failures);
    msg := Message(subject, body);
    match smtp(msg)
    case None => delivered := true;
    case Some(_) => delivered := false;
  }
}
