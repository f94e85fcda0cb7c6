/**
 * The counters of src/metrics.rs: a `Counter` is a name and a `u32` value changed in
 * place by `increment` and `decrement`; `Metrics` holds six of them, all starting at
 * zero, and renders four of them as a fixed four-line summary.
 */
module Metrics {
  import opened Wrappers
  import opened Decimal

  newtype u32 = x: int | 0 <= x < 0x1_0000_0000

  const U32_MAX: u32 := 0xFFFF_FFFF

  /** A named counter. The name is set at creation and never changes. */
  class Counter {
    const name: string
    var value: u32

    /** `Counter::new`: the given name and the value 0. */
    constructor (name: string)
      ensures this.name == name && value == 0
    {
      this.name := name;
      value := 0;
    }

    /** `increment`: one more, returning the new value. Rust's `+=` on a `u32` must not overflow. */
    method Increment() returns (v: u32)
      requires value < U32_MAX
      modifies this
      ensures value == old(value) + 1 && v == value
    {
      value := value + 1;
      v := value;
    }

    /** `decrement`: one less, returning the new value. Rust's `-=` on a `u32` must not underflow. */
    method Decrement() returns (v: u32)
      requires value > 0
      modifies this
      ensures value == old(value) - 1 && v == value
    {
      value := value - 1;
      v := value;
    }
  }

  datatype CounterKind = Requests | Delays | Errors | Timeouts | ConcurrentRequests | ShedRequests

  /** The name `Metrics::new` gives each counter. */
  function CounterName(k: CounterKind): string {
    match k
    case Requests => "Requests"
    case Delays => "Delays"
    case Errors => "Errors"
    case Timeouts => "Timeouts"
    case ConcurrentRequests => "ConcurrentRequests"
    case ShedRequests => "ShedRequests"
  }

  /** The six counter values at one instant. */
  datatype Snapshot = Snapshot(requests: u32, delays: u32, errors: u32, timeouts: u32,
                               concurrentRequests: u32, shedRequests: u32)
  {
    function Get(k: CounterKind): u32 {
      match k
      case Requests => requests
      case Delays => delays
      case Errors => errors
      case Timeouts => timeouts
      case ConcurrentRequests => concurrentRequests
      case ShedRequests => shedRequests
    }

    /** This snapshot with counter `k` set to `v` and every other counter as it was. */
    function With(k: CounterKind, v: u32): (s: Snapshot)
      ensures s.Get(k) == v
      ensures forall k' :: k' != k ==> s.Get(k') == Get(k')
    {
      match k
      case Requests => this.(requests := v)
      case Delays => this.(delays := v)
      case Errors => this.(errors := v)
      case Timeouts => this.(timeouts := v)
      case ConcurrentRequests => this.(concurrentRequests := v)
      case ShedRequests => this.(shedRequests := v)
    }
  }

  /** The six counters of the proxy. */
  class Metrics {
    const requests: Counter
    const delays: Counter
    const errors: Counter
    const timeouts: Counter
    const concurrentRequests: Counter
    const shedRequests: Counter

    function Get(k: CounterKind): Counter {
      match k
      case Requests => requests
      case Delays => delays
      case Errors => errors
      case Timeouts => timeouts
      case ConcurrentRequests => concurrentRequests
      case ShedRequests => shedRequests
    }

    /** Six distinct counters, each carrying its own name. */
    ghost predicate Valid() {
      (forall k, k' :: k != k' ==> Get(k) != Get(k'))
      && (forall k :: Get(k).name == CounterName(k))
    }

    /** The values of the six counters. */
    function Values(): (s: Snapshot)
      reads requests, delays, errors, timeouts, concurrentRequests, shedRequests
      ensures forall k :: s.Get(k) == Get(k).value
    {
      Snapshot(requests.value, delays.value, errors.value, timeouts.value,
               concurrentRequests.value, shedRequests.value)
    }

    /** `Metrics::new`: six fresh counters, named after their role, all at 0. */
    constructor ()
      ensures Valid()
      ensures fresh(requests) && fresh(delays) && fresh(errors) && fresh(timeouts)
      ensures fresh(concurrentRequests) && fresh(shedRequests)
      ensures Values() == Snapshot(0, 0, 0, 0, 0, 0)
    {
      requests := new Counter("Requests");
      delays := new Counter("Delays");
      errors := new Counter("Errors");
      timeouts := new Counter("Timeouts");
      concurrentRequests := new Counter("ConcurrentRequests");
      shedRequests := new Counter("ShedRequests");
    }

    /** A caller's `metrics.<k>.increment()`: counter `k` goes up by one, the other five do not change. */
    method IncrementCounter(k: CounterKind) returns (v: u32)
      requires Valid() && Get(k).value < U32_MAX
      modifies Get(k)
      ensures Valid()
      ensures v == old(Get(k).value) + 1
      ensures Values() == old(Values()).With(k, v)
    {
      v := Get(k).Increment();
      forall k' | k' != k
        ensures Values().Get(k') == old(Values()).Get(k')
      {
        assert Get(k') != Get(k);
      }
      SnapshotExtensional(Values(), old(Values()).With(k, v));
    }

    /** A caller's `metrics.<k>.decrement()`: counter `k` goes down by one, the other five do not change. */
    method DecrementCounter(k: CounterKind) returns (v: u32)
      requires Valid() && Get(k).value > 0
      modifies Get(k)
      ensures Valid()
      ensures v == old(Get(k).value) - 1
      ensures Values() == old(Values()).With(k, v)
    {
      v := Get(k).Decrement();
      forall k' | k' != k
        ensures Values().Get(k') == old(Values()).Get(k')
      {
        assert Get(k') != Get(k);
      }
      SnapshotExtensional(Values(), old(Values()).With(k, v));
    }

    /** `Display for Metrics`: the requests, delays, errors and timeouts counts, readable back from the text. */
    function Fmt(): (r: string)
      reads requests, delays, errors, timeouts, concurrentRequests, shedRequests
      ensures ParseDisplay(r) == Some((requests.value as nat, delays.value as nat, errors.value as nat, timeouts.value as nat))
    {
      DisplayRoundTrip(Values());
      Display(Values())
    }
  }

  /** Snapshots that agree on every counter are equal. */
  lemma SnapshotExtensional(a: Snapshot, b: Snapshot)
    requires forall k :: a.Get(k) == b.Get(k)
    ensures a == b
  {
    assert a.requests == b.Get(Requests) && a.delays == b.Get(Delays) && a.errors == b.Get(Errors);
    assert a.timeouts == b.Get(Timeouts) && a.concurrentRequests == b.Get(ConcurrentRequests);
    assert a.shedRequests == b.Get(ShedRequests);
  }

  const REQUESTS_LABEL: string := "Request Count: "
  const DELAYS_LABEL: string := "Delayed Requests: "
  const ERRORS_LABEL: string := "Errored Requests: "
  // The misspelling is the source's own output.
  const TIMEOUTS_LABEL: string := "Timedout Requets: "
  const LINE_END: string := ".\n"

  function Line(heading: string, n: nat): string {
    heading + NatToString(n) + LINE_END
  }

  /** The summary rendering: requests, delays, errors and timeouts, one per line. */
  function Display(s: Snapshot): string {
    Line(REQUESTS_LABEL, s.requests as nat) + Line(DELAYS_LABEL, s.delays as nat)
    + Line(ERRORS_LABEL, s.errors as nat) + Line(TIMEOUTS_LABEL, s.timeouts as nat)
  }

  /** Reads one line `heading`, number, ".\n" off the front of `t`. */
  function ReadLine(heading: string, t: string): Option<(nat, string)> {
    if |heading| <= |t| && t[..|heading|] == heading then
      match ReadNat(t[|heading|..])
      case None => None
      case Some((n, rest)) => if |rest| >= 2 && rest[..2] == LINE_END then Some((n, rest[2..])) else None
    else None
  }

  /** Reads the four counts back from a summary rendering. */
  function ParseDisplay(t: string): Option<(nat, nat, nat, nat)> {
    match ReadLine(REQUESTS_LABEL, t)
    case None => None
    case Some((r, t1)) =>
      match ReadLine(DELAYS_LABEL, t1)
      case None => None
      case Some((d, t2)) =>
        match ReadLine(ERRORS_LABEL, t2)
        case None => None
        case Some((e, t3)) =>
          match ReadLine(TIMEOUTS_LABEL, t3)
          case None => None
          case Some((o, t4)) => if t4 == [] then Some((r, d, e, o)) else None
  }

  lemma ReadLineOfLine(heading: string, n: nat, rest: string)
    ensures ReadLine(heading, Line(heading, n) + rest) == Some((n, rest))
  {
    var ds := NatToString(n);
    var t := Line(heading, n) + rest;
    var tail := LINE_END + rest;
    assert t == heading + (ds + tail);
    assert t[..|heading|] == heading;
    assert t[|heading|..] == ds + tail;
    ReadNatToString(n, tail);
    assert tail[..2] == LINE_END;
    assert tail[2..] == rest;
  }

  /** The summary loses none of the four counts it shows: they can be read back from it. */
  lemma DisplayRoundTrip(s: Snapshot)
    ensures ParseDisplay(Display(s)) == Some((s.requests as nat, s.delays as nat, s.errors as nat, s.timeouts as nat))
  {
    var l1 := Line(REQUESTS_LABEL, s.requests as nat);
    var l2 := Line(DELAYS_LABEL, s.delays as nat);
    var l3 := Line(ERRORS_LABEL, s.errors as nat);
    var l4 := Line(TIMEOUTS_LABEL, s.timeouts as nat);
    assert Display(s) == l1 + (l2 + (l3 + (l4 + [])));
    ReadLineOfLine(REQUESTS_LABEL, s.requests as nat, l2 + (l3 + (l4 + [])));
    ReadLineOfLine(DELAYS_LABEL, s.delays as nat, l3 + (l4 + []));
    ReadLineOfLine(ERRORS_LABEL, s.errors as nat, l4 + []);
    ReadLineOfLine(TIMEOUTS_LABEL, s.timeouts as nat, []);
  }

  /**
   * Two snapshots render alike exactly when their requests, delays, errors and
   * timeouts agree: the rendering shows those four and omits the other two.
   */
  lemma DisplayShowsExactlyFourCounts(a: Snapshot, b: Snapshot)
    ensures Display(a) == Display(b)
        <==> a.requests == b.requests && a.delays == b.delays && a.errors == b.errors && a.timeouts == b.timeouts
  {
    if Display(a) == Display(b) {
      DisplayRoundTrip(a);
      DisplayRoundTrip(b);
    }
  }

  /** One rendering written out. */
  lemma DisplayExample()
    ensures Display(Snapshot(3, 1, 0, 12, 5, 7))
         == "Request Count: 3.\n" + "Delayed Requests: 1.\n" + "Errored Requests: 0.\n" + "Timedout Requets: 12.\n"
  {
  }
}
