/**
 * Per-source outcomes of one run. The source keeps two lists of triples,
 * `successful_backups` of (name, source, artifact) and `failed_backups` of
 * (name, source, error); both are views of one ordered list of outcomes.
 */
module Outcomes {
  import opened Paths

  datatype SuccessEntry = SuccessEntry(name: string, source: Path, artifact: Path)

  datatype FailureEntry = FailureEntry(name: string, source: Path, reason: string)

  datatype SourceOutcome = Succeeded(success: SuccessEntry) | Failed(failure: FailureEntry)
  {
    function Name(): string
    {
      if Succeeded? then success.name else failure.name
    }

    function Source(): Path
    {
      if Succeeded? then success.source else failure.source
    }
  }

  /** The success entries, in the order the outcomes were recorded. */
  function Successes(outs: seq<SourceOutcome>): seq<SuccessEntry>
  {
    if outs == [] then []
    else
      var last := outs[|outs| - 1];
      Successes(outs[..|outs| - 1]) + (if last.Succeeded? then [last.success] else [])
  }

  /** The failure entries, in the order the outcomes were recorded. */
  function Failures(outs: seq<SourceOutcome>): seq<FailureEntry>
  {
    if outs == [] then []
    else
      var last := outs[|outs| - 1];
      Failures(outs[..|outs| - 1]) + (if last.Failed? then [last.failure] else [])
  }

  /** Every outcome lands in exactly one of the two lists. */
  lemma {:induction false} OutcomesPartition(outs: seq<SourceOutcome>)
    ensures |Successes(outs)| + |Failures(outs)| == |outs|
  {
    if outs != [] {
      OutcomesPartition(outs[..|outs| - 1]);
    }
  }

  /** Splitting the outcomes splits both lists the same way, so each keeps recording order. */
  lemma {:induction false} OutcomesConcat(a: seq<SourceOutcome>, b: seq<SourceOutcome>)
    ensures Successes(a + b) == Successes(a) + Successes(b)
    ensures Failures(a + b) == Failures(a) + Failures(b)
    decreases |b|
  {
    if b != [] {
      var b' := b[..|b| - 1];
      assert (a + b)[..|a + b| - 1] == a + b';
      OutcomesConcat(a, b');
    } else {
      assert a + b == a;
    }
  }

  /** A success entry is listed iff its outcome was recorded. */
  lemma {:induction false} SuccessListed(outs: seq<SourceOutcome>, e: SuccessEntry)
    ensures e in Successes(outs) <==> Succeeded(e) in outs
  {
    if outs != [] {
      var init := outs[..|outs| - 1];
      SuccessListed(init, e);
      assert outs == init + [outs[|outs| - 1]];
    }
  }

  /** A failure entry is listed iff its outcome was recorded. */
  lemma {:induction false} FailureListed(outs: seq<SourceOutcome>, e: FailureEntry)
    ensures e in Failures(outs) <==> Failed(e) in outs
  {
    if outs != [] {
      var init := outs[..|outs| - 1];
      FailureListed(init, e);
      assert outs == init + [outs[|outs| - 1]];
    }
  }
}
