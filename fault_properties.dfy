/**
 * Properties of the fault decision of src/main.rs: the scan agrees with its closed
 * form, stops at the first Error or Timeout that fires, goes on past Delays and past
 * failures that do not fire, skips non-matching failures without drawing a sample,
 * and adds up the delays of the failures that fire.
 */
module FaultProperties {
  import opened Faults

  /** No Error or Timeout among the failures fires. */
  predicate NoneEnds(fs: seq<Failure>, path: string, matches: Matcher, draws: Draws) {
    forall i :: 0 <= i < |fs| ==> !(Fires(fs, path, matches, draws, i) && Ends(fs[i]))
  }

  lemma {:induction false} ScanFromAgrees(fs: seq<Failure>, path: string, matches: Matcher, draws: Draws,
                                          i: nat, slept: nat, drawn: nat)
    requires i <= |fs|
    requires forall j :: 0 <= j < i ==> !(Fires(fs, path, matches, draws, j) && Ends(fs[j]))
    requires slept == DelaySum(fs, path, matches, draws, i)
    requires drawn == MatchesBefore(fs, path, matches, i)
    ensures Scan(fs, path, matches, draws, i, slept, drawn) == Reference(fs, path, matches, draws)
    decreases |fs| - i
  {
    var t := FirstEnding(fs, path, matches, draws, 0);
    if i == |fs| {
      assert t == |fs|;
    } else {
      var f := fs[i];
      if !matches(f.path, path) {
        assert !Fires(fs, path, matches, draws, i);
        ScanFromAgrees(fs, path, matches, draws, i + 1, slept, drawn);
      } else {
        assert Triggered(f, draws(drawn)) == Fires(fs, path, matches, draws, i);
        if Fires(fs, path, matches, draws, i) && Ends(f) {
          assert t == i;
        } else {
          var next := slept + (if Fires(fs, path, matches, draws, i) then f.delay else 0);
          ScanFromAgrees(fs, path, matches, draws, i + 1, next, drawn + 1);
        }
      }
    }
  }

  /** The scan of `new_service` computes exactly the closed-form decision. */
  lemma DecideIsReference(fs: seq<Failure>, path: string, matches: Matcher, draws: Draws)
    ensures Decide(fs, path, matches, draws) == Reference(fs, path, matches, draws)
  {
    ScanFromAgrees(fs, path, matches, draws, 0, 0, 0);
  }

  /**
   * The first Error or Timeout that fires answers the request: with its own response,
   * after the delays of every failure that fired up to and including it, having drawn
   * one sample per matching failure up to it.
   */
  lemma FirstFiringEndingAnswers(fs: seq<Failure>, path: string, matches: Matcher, draws: Draws, t: nat)
    requires t < |fs| && Fires(fs, path, matches, draws, t) && Ends(fs[t])
    requires forall j :: 0 <= j < t ==> !(Fires(fs, path, matches, draws, j) && Ends(fs[j]))
    ensures Decide(fs, path, matches, draws)
         == Decision(DelaySum(fs, path, matches, draws, t + 1), MatchesBefore(fs, path, matches, t) + 1,
                     Respond(ResponseFor(fs[t].failureType)))
    ensures fs[t].failureType == Error ==> ResponseFor(fs[t].failureType) == Response(INTERNAL_SERVER_ERROR, "")
    ensures fs[t].failureType == Timeout ==> ResponseFor(fs[t].failureType) == Response(GATEWAY_TIMEOUT, "")
  {
    DecideIsReference(fs, path, matches, draws);
    assert FirstEnding(fs, path, matches, draws, 0) == t;
  }

  /**
   * When no Error or Timeout fires the request is forwarded, after the delays of every
   * failure that fired, having drawn one sample per matching failure.
   */
  lemma NoFiringEndingForwards(fs: seq<Failure>, path: string, matches: Matcher, draws: Draws)
    requires NoneEnds(fs, path, matches, draws)
    ensures Decide(fs, path, matches, draws)
         == Decision(DelaySum(fs, path, matches, draws, |fs|), MatchesBefore(fs, path, matches, |fs|), Forward)
  {
    DecideIsReference(fs, path, matches, draws);
  }

  /** A request is forwarded if and only if no Error or Timeout fires. */
  lemma ForwardIff(fs: seq<Failure>, path: string, matches: Matcher, draws: Draws)
    ensures Decide(fs, path, matches, draws).verdict == Forward <==> NoneEnds(fs, path, matches, draws)
  {
    DecideIsReference(fs, path, matches, draws);
    var t := FirstEnding(fs, path, matches, draws, 0);
    if t < |fs| {
      assert !NoneEnds(fs, path, matches, draws) by {
        assert Fires(fs, path, matches, draws, t) && Ends(fs[t]);
      }
    }
  }

  /** A list without Error or Timeout failures never produces a synthetic response. */
  lemma DelaysOnlyForward(fs: seq<Failure>, path: string, matches: Matcher, draws: Draws)
    requires forall i :: 0 <= i < |fs| ==> fs[i].failureType == Delay
    ensures Decide(fs, path, matches, draws).verdict == Forward
  {
    ForwardIff(fs, path, matches, draws);
  }

  lemma {:induction false} ScanSkipsNonMatching(fs: seq<Failure>, path: string, matches: Matcher, draws: Draws,
                                                i: nat, slept: nat, drawn: nat)
    requires i <= |fs|
    requires forall j :: i <= j < |fs| ==> !matches(fs[j].path, path)
    ensures Scan(fs, path, matches, draws, i, slept, drawn) == Decision(slept, drawn, Forward)
    decreases |fs| - i
  {
    if i < |fs| {
      ScanSkipsNonMatching(fs, path, matches, draws, i + 1, slept, drawn);
    }
  }

  /** A path that no pattern matches is forwarded at once, without sleeping or drawing a sample. */
  lemma NoMatchForwards(fs: seq<Failure>, path: string, matches: Matcher, draws: Draws)
    requires forall i :: 0 <= i < |fs| ==> !matches(fs[i].path, path)
    ensures Decide(fs, path, matches, draws) == Decision(0, 0, Forward)
  {
    ScanSkipsNonMatching(fs, path, matches, draws, 0, 0, 0);
  }

  lemma {:induction false} ScanShift(pre: seq<Failure>, fs: seq<Failure>, path: string, matches: Matcher, draws: Draws,
                                     j: nat, slept: nat, drawn: nat)
    requires j <= |fs|
    ensures Scan(pre + fs, path, matches, draws, |pre| + j, slept, drawn) == Scan(fs, path, matches, draws, j, slept, drawn)
    decreases |fs| - j
  {
    if j < |fs| {
      assert (pre + fs)[|pre| + j] == fs[j];
      ScanShift(pre, fs, path, matches, draws, j + 1, slept, drawn);
      ScanShift(pre, fs, path, matches, draws, j + 1, slept, drawn + 1);
      ScanShift(pre, fs, path, matches, draws, j + 1, slept + InjectDelay(fs[j], draws(drawn)), drawn + 1);
    }
  }

  lemma {:induction false} ScanAppend(fs: seq<Failure>, more: seq<Failure>, path: string, matches: Matcher, draws: Draws,
                                      i: nat, slept: nat, drawn: nat)
    requires i <= |fs|
    ensures var d := Scan(fs, path, matches, draws, i, slept, drawn);
            Scan(fs + more, path, matches, draws, i, slept, drawn)
            == if d.verdict.Respond? then d else Scan(more, path, matches, draws, 0, d.totalDelay, d.drawn)
    decreases |fs| - i
  {
    if i == |fs| {
      ScanShift(fs, more, path, matches, draws, 0, slept, drawn);
    } else {
      assert (fs + more)[i] == fs[i];
      ScanAppend(fs, more, path, matches, draws, i + 1, slept, drawn);
      ScanAppend(fs, more, path, matches, draws, i + 1, slept, drawn + 1);
      ScanAppend(fs, more, path, matches, draws, i + 1, slept + InjectDelay(fs[i], draws(drawn)), drawn + 1);
    }
  }

  /**
   * Scanning `fs + more`: once `fs` has answered the request, `more` is never
   * consulted; otherwise the scan goes on into `more` with the delay slept and the
   * samples drawn so far.
   */
  lemma DecideAppend(fs: seq<Failure>, more: seq<Failure>, path: string, matches: Matcher, draws: Draws)
    ensures var d := Decide(fs, path, matches, draws);
            Decide(fs + more, path, matches, draws)
            == if d.verdict.Respond? then d else Scan(more, path, matches, draws, 0, d.totalDelay, d.drawn)
  {
    ScanAppend(fs, more, path, matches, draws, 0, 0, 0);
  }

  /** After a response, later failures are not consulted: appending failures changes nothing. */
  lemma LaterFailuresIgnored(fs: seq<Failure>, more: seq<Failure>, path: string, matches: Matcher, draws: Draws)
    requires Decide(fs, path, matches, draws).verdict.Respond?
    ensures Decide(fs + more, path, matches, draws) == Decide(fs, path, matches, draws)
  {
    DecideAppend(fs, more, path, matches, draws);
  }

  /** A failure whose pattern does not match is skipped and draws no sample. */
  lemma NonMatchingSkipped(f: Failure, more: seq<Failure>, path: string, matches: Matcher, draws: Draws)
    requires !matches(f.path, path)
    ensures Decide([f] + more, path, matches, draws) == Decide(more, path, matches, draws)
  {
    DecideAppend([f], more, path, matches, draws);
    assert Scan([f], path, matches, draws, 1, 0, 0) == Decision(0, 0, Forward);
  }

  /** The samples from the `d`-th on, renumbered from 0. */
  function Shift(draws: Draws, d: nat): Draws {
    (k: nat) => draws(k + d)
  }

  /** `e` with `s` more milliseconds slept and `d` more samples drawn. */
  function Offset(e: Decision, s: nat, d: nat): Decision {
    e.(totalDelay := e.totalDelay + s, drawn := e.drawn + d)
  }

  lemma {:induction false} ScanOffset(fs: seq<Failure>, path: string, matches: Matcher, draws: Draws,
                                      i: nat, s: nat, d: nat, slept: nat, drawn: nat)
    requires i <= |fs|
    ensures Scan(fs, path, matches, draws, i, s + slept, d + drawn)
         == Offset(Scan(fs, path, matches, Shift(draws, d), i, slept, drawn), s, d)
    decreases |fs| - i
  {
    if i < |fs| {
      assert Shift(draws, d)(drawn) == draws(d + drawn);
      var x := draws(d + drawn);
      ScanOffset(fs, path, matches, draws, i + 1, s, d, slept, drawn);
      ScanOffset(fs, path, matches, draws, i + 1, s, d, slept, drawn + 1);
      ScanOffset(fs, path, matches, draws, i + 1, s, d, slept + InjectDelay(fs[i], x), drawn + 1);
    }
  }

  /**
   * Going on from a state that has slept `s` milliseconds and drawn `d` samples is
   * deciding afresh on the remaining samples, then adding `s` and `d`.
   */
  lemma ScanFromState(fs: seq<Failure>, path: string, matches: Matcher, draws: Draws, s: nat, d: nat)
    ensures Scan(fs, path, matches, draws, 0, s, d) == Offset(Decide(fs, path, matches, Shift(draws, d)), s, d)
  {
    ScanOffset(fs, path, matches, draws, 0, s, d, 0, 0);
  }

  /**
   * A matching Delay draws one sample, sleeps its delay when it fires, and the scan
   * goes on: the rest decides on the remaining samples.
   */
  lemma MatchingDelayContinues(f: Failure, more: seq<Failure>, path: string, matches: Matcher, draws: Draws)
    requires f.failureType == Delay && matches(f.path, path)
    ensures Decide([f] + more, path, matches, draws)
         == Offset(Decide(more, path, matches, Shift(draws, 1)), if Triggered(f, draws(0)) then f.delay else 0, 1)
  {
    DecideAppend([f], more, path, matches, draws);
    var slept := InjectDelay(f, draws(0));
    assert Scan([f], path, matches, draws, 1, slept, 1) == Decision(slept, 1, Forward);
    ScanFromState(more, path, matches, draws, slept, 1);
  }

  /**
   * A matching Error or Timeout that does not fire draws one sample, sleeps nothing,
   * and the scan goes on: the rest decides on the remaining samples.
   */
  lemma UnfiredEndingContinues(f: Failure, more: seq<Failure>, path: string, matches: Matcher, draws: Draws)
    requires Ends(f) && matches(f.path, path) && !Triggered(f, draws(0))
    ensures Decide([f] + more, path, matches, draws) == Offset(Decide(more, path, matches, Shift(draws, 1)), 0, 1)
  {
    DecideAppend([f], more, path, matches, draws);
    assert Scan([f], path, matches, draws, 1, 0, 1) == Decision(0, 1, Forward);
    ScanFromState(more, path, matches, draws, 0, 1);
  }

  /** A matching Error or Timeout that fires answers at once after its own delay. */
  lemma FiredEndingAnswers(f: Failure, more: seq<Failure>, path: string, matches: Matcher, draws: Draws)
    requires Ends(f) && matches(f.path, path) && Triggered(f, draws(0))
    ensures Decide([f] + more, path, matches, draws) == Decision(f.delay, 1, Respond(ResponseFor(f.failureType)))
  {
  }

  /** With samples in [0, 1), a frequency of 1.0 or more always fires. */
  lemma FullFrequencyFires(f: Failure, x: real)
    requires 0.0 <= x < 1.0 && f.frequency >= 1.0
    ensures Triggered(f, x)
  {
  }

  /**
   * With samples in [0, 1), a request whose path matches an Error or Timeout of
   * frequency 1.0 or more is never forwarded.
   */
  lemma FullFrequencyEndingNeverForwards(fs: seq<Failure>, path: string, matches: Matcher, draws: Draws, t: nat)
    requires forall k: nat :: 0.0 <= draws(k) < 1.0
    requires t < |fs| && Ends(fs[t]) && matches(fs[t].path, path) && fs[t].frequency >= 1.0
    ensures Decide(fs, path, matches, draws).verdict.Respond?
  {
    ForwardIff(fs, path, matches, draws);
    assert Fires(fs, path, matches, draws, t);
  }

  /** A frequency of 0.0 still fires on a sample of exactly 0.0, and on nothing else in [0, 1). */
  lemma ZeroFrequencyFiresOnZeroOnly(f: Failure, x: real)
    requires 0.0 <= x < 1.0 && f.frequency == 0.0
    ensures Triggered(f, x) <==> x == 0.0
  {
  }

  /**
   * When every sample is positive, Errors and Timeouts of frequency 0.0 never fire,
   * so the request is forwarded.
   */
  lemma ZeroFrequencyEndingsForward(fs: seq<Failure>, path: string, matches: Matcher, draws: Draws)
    requires forall k: nat :: 0.0 < draws(k)
    requires forall i :: 0 <= i < |fs| && Ends(fs[i]) ==> fs[i].frequency == 0.0
    ensures Decide(fs, path, matches, draws).verdict == Forward
  {
    ForwardIff(fs, path, matches, draws);
  }

  /** The example of a Timeout on "/test" with frequency 1.0 and delay 500: always a 504 after 500 ms. */
  lemma TimeoutExample(path: string, matches: Matcher, draws: Draws)
    requires matches("/test", path) && 0.0 <= draws(0) < 1.0
    ensures Decide([Failure("/test", Timeout, 1.0, 500)], path, matches, draws)
         == Decision(500, 1, Respond(Response(504, "")))
  {
  }

  lemma {:induction false} MatchesBeforeMonotone(fs: seq<Failure>, path: string, matches: Matcher, m: nat, n: nat)
    requires m <= n <= |fs|
    ensures MatchesBefore(fs, path, matches, m) <= MatchesBefore(fs, path, matches, n)
    decreases n - m
  {
    if m < n {
      MatchesBeforeMonotone(fs, path, matches, m, n - 1);
    }
  }

  /** No request draws more samples than there are failures matching its path. */
  lemma DrawsAtMostMatches(fs: seq<Failure>, path: string, matches: Matcher, draws: Draws)
    ensures Decide(fs, path, matches, draws).drawn <= MatchesBefore(fs, path, matches, |fs|)
  {
    DecideIsReference(fs, path, matches, draws);
    var t := FirstEnding(fs, path, matches, draws, 0);
    if t < |fs| {
      MatchesBeforeMonotone(fs, path, matches, t + 1, |fs|);
    }
  }
}
