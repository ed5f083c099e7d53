/**
 * The status line `runApiDiagnostics` (src/assets/js/main.js) shows after the
 * three API probes: all passed, or the first probe that failed, in the order
 * the probes run.
 */
module Diagnostics {
  import opened Browser

  /** The three probes, in the order they run. */
  datatype Probe = Health | CorsPreflight | SupportApi

  const ProbeOrder: seq<Probe> := [Health, CorsPreflight, SupportApi]

  /** The `success` flag of each probe's result. */
  datatype ProbeResults = ProbeResults(healthOk: bool, corsOk: bool, supportOk: bool)

  function Passed(results: ProbeResults, p: Probe): bool {
    match p
    case Health => results.healthOk
    case CorsPreflight => results.corsOk
    case SupportApi => results.supportOk
  }

  /** The first probe of `order` that failed, if any. */
  function FirstFailure(results: ProbeResults, order: seq<Probe>): (f: Option<Probe>)
    ensures f.None? <==> forall i :: 0 <= i < |order| ==> Passed(results, order[i])
    ensures f.Some? ==> exists i :: 0 <= i < |order| && FailsFirstAt(results, order, i) && order[i] == f.value
  {
    if order == [] then None
    else if !Passed(results, order[0]) then
      assert FailsFirstAt(results, order, 0);
      Some(order[0])
    else
      var f := FirstFailure(results, order[1..]);
      if f.Some? then
        var i :| 0 <= i < |order[1..]| && FailsFirstAt(results, order[1..], i) && order[1..][i] == f.value;
        assert FailsFirstAt(results, order, i + 1);
        f
      else f
  }

  /** Probe `order[i]` failed and every probe before it passed. */
  predicate FailsFirstAt(results: ProbeResults, order: seq<Probe>, i: int) {
    0 <= i < |order| && !Passed(results, order[i])
    && forall j :: 0 <= j < i ==> Passed(results, order[j])
  }

  const AllPassedLine := "✅ All tests passed - API is working"
  const MixedLine := "⚠️ Mixed results - Check logs"

  /** The line naming a failed probe. */
  function FailureLine(p: Probe): string {
    match p
    case Health => "❌ Health check failed - Server/DNS issue"
    case CorsPreflight => "❌ CORS issue - Server config problem"
    case SupportApi => "❌ Support API failed - Endpoint issue"
  }

  /** In the probes' order: health first, then the CORS preflight, then the support API. */
  lemma FirstFailureInOrder(results: ProbeResults)
    ensures FirstFailure(results, ProbeOrder) ==
      if !results.healthOk then Some(Health)
      else if !results.corsOk then Some(CorsPreflight)
      else if !results.supportOk then Some(SupportApi)
      else None
  {
    var tail := ProbeOrder[1..];
    assert tail == [CorsPreflight, SupportApi];
    assert tail[1..] == [SupportApi];
    assert tail[1..][1..] == [];
    assert FirstFailure(results, tail[1..]) == if !results.supportOk then Some(SupportApi) else None;
    assert FirstFailure(results, tail) ==
      if !results.corsOk then Some(CorsPreflight) else FirstFailure(results, tail[1..]);
  }

  /** The status line for a set of probe results. */
  function StatusLine(results: ProbeResults): (r: string)
    ensures r != MixedLine
    ensures r != AllPassedLine ==> exists p :: r == FailureLine(p) && !Passed(results, p)
  {
    match FirstFailure(results, ProbeOrder)
    case None => AllPassedLine
    case Some(p) =>
      var i :| 0 <= i < |ProbeOrder| && FailsFirstAt(results, ProbeOrder, i) && ProbeOrder[i] == p;
      FailureLine(p)
  }

  /**
   * The if-chain that sets `statusMsg`. Its last branch, "Mixed results",
   * can never be taken: once the first test fails one of the three flags is
   * false, and each of them has a branch of its own before it.
   */
  method DiagnosticsStatus(healthOk: bool, corsOk: bool, supportOk: bool) returns (statusMsg: string)
    ensures statusMsg == StatusLine(ProbeResults(healthOk, corsOk, supportOk))
    ensures statusMsg != MixedLine
  {
    FirstFailureInOrder(ProbeResults(healthOk, corsOk, supportOk));
    statusMsg := "";
    if healthOk && corsOk && supportOk {
      statusMsg := AllPassedLine;
    } else if !healthOk {
      statusMsg := FailureLine(Health);
    } else if !corsOk {
      statusMsg := FailureLine(CorsPreflight);
    } else if !supportOk {
      statusMsg := FailureLine(SupportApi);
    } else {
      assert false;
      statusMsg := MixedLine;
    }
  }

  /** The line is the success line exactly when all three probes passed. */
  lemma AllPassedIffNoFailure(results: ProbeResults)
    ensures StatusLine(results) == AllPassedLine <==>
      results.healthOk && results.corsOk && results.supportOk
  {
    var f := FirstFailure(results, ProbeOrder);
    if f.Some? {
      var i :| 0 <= i < |ProbeOrder| && FailsFirstAt(results, ProbeOrder, i) && ProbeOrder[i] == f.value;
      assert !Passed(results, ProbeOrder[i]);
    } else {
      assert Passed(results, ProbeOrder[0]) && Passed(results, ProbeOrder[1]) && Passed(results, ProbeOrder[2]);
    }
  }

  /** A failed health probe is reported whatever the other two did. */
  lemma HealthFailureFirst(corsOk: bool, supportOk: bool)
    ensures StatusLine(ProbeResults(false, corsOk, supportOk)) == FailureLine(Health)
  {
  }
}
