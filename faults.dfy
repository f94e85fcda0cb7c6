/**
 * The per-request fault decision of src/main.rs: the `FailureType`, `Failure` and
 * `Configuration` records, the three `inject_*` decisions and the scan over the
 * configured failures that `new_service` performs before forwarding.
 *
 * Regular-expression matching is the parameter `matches(pattern, path)`, the random
 * samples are the parameter `draws` (`draws(k)` is the k-th sample drawn for this
 * request), and sleeping is recorded as an accumulated delay in milliseconds.
 */
module Faults {
  import opened Wrappers

  datatype FailureType = Error | Delay | Timeout

  /** One configured failure. `frequency` is an `f32` and `delay` a `u64` of milliseconds in the source. */
  datatype Failure = Failure(path: string, failureType: FailureType, frequency: real, delay: nat)

  datatype Configuration = Configuration(failures: seq<Failure>, listenerAddress: string, proxyAddress: string)

  /** A synthetic response: its status code and its body. */
  datatype Response = Response(status: nat, body: string)

  /** What an Error or Timeout that fires does: sleep `slept` milliseconds, then answer `response`. */
  datatype Fault = Fault(slept: nat, response: Response)

  /** How a request ends: answered by an injected fault, or handed on to the upstream service. */
  datatype Verdict = Respond(response: Response) | Forward

  /** The outcome of the scan: milliseconds slept, samples drawn, and the verdict. */
  datatype Decision = Decision(totalDelay: nat, drawn: nat, verdict: Verdict)

  type Matcher = (string, string) -> bool
  type Draws = nat -> real

  const INTERNAL_SERVER_ERROR: nat := 500
  const GATEWAY_TIMEOUT: nat := 504

  /** A failure fires on sample `x` when `x` does not exceed its frequency. */
  predicate Triggered(f: Failure, x: real) {
    x <= f.frequency
  }

  /** `inject_delay`: the milliseconds slept for sample `x`. */
  function InjectDelay(f: Failure, x: real): (slept: nat)
    ensures slept > 0 ==> Triggered(f, x) && slept == f.delay
    ensures Triggered(f, x) ==> slept == f.delay
  {
    if Triggered(f, x) then f.delay else 0
  }

  /** `inject_error`: a 500 with an empty body after the failure's delay, when the sample fires. */
  function InjectError(f: Failure, x: real): (r: Option<Fault>)
    ensures r.Some? <==> Triggered(f, x)
    ensures r.Some? ==> r.value.slept == f.delay && r.value.response == Response(INTERNAL_SERVER_ERROR, "")
  {
    if Triggered(f, x) then Some(Fault(f.delay, Response(INTERNAL_SERVER_ERROR, ""))) else None
  }

  /** `inject_timeout`: a 504 with an empty body after the failure's delay, when the sample fires. */
  function InjectTimeout(f: Failure, x: real): (r: Option<Fault>)
    ensures r.Some? <==> Triggered(f, x)
    ensures r.Some? ==> r.value.slept == f.delay && r.value.response == Response(GATEWAY_TIMEOUT, "")
  {
    if Triggered(f, x) then Some(Fault(f.delay, Response(GATEWAY_TIMEOUT, ""))) else None
  }

  /**
   * The loop of `new_service` from failure `i` on, having slept `slept` milliseconds
   * and drawn `drawn` samples so far. Every matching failure draws the next sample;
   * a firing Error or Timeout ends the scan, anything else lets it go on.
   */
  function Scan(fs: seq<Failure>, path: string, matches: Matcher, draws: Draws,
                i: nat, slept: nat, drawn: nat): Decision
    requires i <= |fs|
    decreases |fs| - i
  {
    if i == |fs| then Decision(slept, drawn, Forward)
    else if !matches(fs[i].path, path) then Scan(fs, path, matches, draws, i + 1, slept, drawn)
    else
      var f, x := fs[i], draws(drawn);
      match f.failureType
      case Error =>
        (match InjectError(f, x)
         case Some(fault) => Decision(slept + fault.slept, drawn + 1, Respond(fault.response))
         case None => Scan(fs, path, matches, draws, i + 1, slept, drawn + 1))
      case Timeout =>
        (match InjectTimeout(f, x)
         case Some(fault) => Decision(slept + fault.slept, drawn + 1, Respond(fault.response))
         case None => Scan(fs, path, matches, draws, i + 1, slept, drawn + 1))
      case Delay =>
        Scan(fs, path, matches, draws, i + 1, slept + InjectDelay(f, x), drawn + 1)
  }

  /** The decision `new_service` takes for a request with this path. */
  function Decide(fs: seq<Failure>, path: string, matches: Matcher, draws: Draws): Decision {
    Scan(fs, path, matches, draws, 0, 0, 0)
  }

  // ---------------------------------------------------------------------------
  // A closed-form description of the same decision, independent of the loop.
  // ---------------------------------------------------------------------------

  /** Error and Timeout end the scan when they fire; Delay never does. */
  predicate Ends(f: Failure) {
    f.failureType != Delay
  }

  /** The number of failures among the first `n` whose pattern matches the path. */
  function MatchesBefore(fs: seq<Failure>, path: string, matches: Matcher, n: nat): nat
    requires n <= |fs|
  {
    if n == 0 then 0
    else MatchesBefore(fs, path, matches, n - 1) + (if matches(fs[n - 1].path, path) then 1 else 0)
  }

  /** Failure `i` matches and fires on its own sample, the one whose rank is the number of earlier matches. */
  predicate Fires(fs: seq<Failure>, path: string, matches: Matcher, draws: Draws, i: nat)
    requires i < |fs|
  {
    matches(fs[i].path, path) && Triggered(fs[i], draws(MatchesBefore(fs, path, matches, i)))
  }

  /** The sum of the delays of the failures among the first `n` that fire. */
  function DelaySum(fs: seq<Failure>, path: string, matches: Matcher, draws: Draws, n: nat): nat
    requires n <= |fs|
  {
    if n == 0 then 0
    else DelaySum(fs, path, matches, draws, n - 1) + (if Fires(fs, path, matches, draws, n - 1) then fs[n - 1].delay else 0)
  }

  /** The first index from `i` on of a failure that ends the scan by firing, or `|fs|` when there is none. */
  function FirstEnding(fs: seq<Failure>, path: string, matches: Matcher, draws: Draws, i: nat): (t: nat)
    requires i <= |fs|
    ensures i <= t <= |fs|
    ensures t < |fs| ==> Fires(fs, path, matches, draws, t) && Ends(fs[t])
    ensures forall j :: i <= j < t ==> !(Fires(fs, path, matches, draws, j) && Ends(fs[j]))
    decreases |fs| - i
  {
    if i == |fs| then i
    else if Fires(fs, path, matches, draws, i) && Ends(fs[i]) then i
    else FirstEnding(fs, path, matches, draws, i + 1)
  }

  /** The synthetic response of a failure that ends the scan. */
  function ResponseFor(t: FailureType): Response {
    if t == Timeout then Response(GATEWAY_TIMEOUT, "") else Response(INTERNAL_SERVER_ERROR, "")
  }

  /**
   * The decision in closed form: the first ending failure that fires answers the
   * request; the delays of all firing failures up to and including it are slept, and
   * one sample was drawn per matching failure up to it.
   */
  function Reference(fs: seq<Failure>, path: string, matches: Matcher, draws: Draws): Decision {
    var t := FirstEnding(fs, path, matches, draws, 0);
    if t == |fs| then
      Decision(DelaySum(fs, path, matches, draws, |fs|), MatchesBefore(fs, path, matches, |fs|), Forward)
    else
      Decision(DelaySum(fs, path, matches, draws, t + 1), MatchesBefore(fs, path, matches, t) + 1,
               Respond(ResponseFor(fs[t].failureType)))
  }
}
