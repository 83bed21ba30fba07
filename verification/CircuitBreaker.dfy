/** The circuit breaker in front of each downstream (http_client.py). Time is the process's
    monotonic clock, as a real number of seconds. */
module CircuitBreaker {

  datatype BreakerState = Closed | Open | HalfOpen

  /** The fields of a breaker as a value. */
  datatype Breaker = Breaker(state: BreakerState, failures: int, openedAt: real, probe: bool)

  datatype Settings = Settings(failThreshold: int, openSeconds: real)

  const FRESH := Breaker(Closed, 0, 0.0, false)

  /** Whether a call is let through now. */
  predicate Admits(cfg: Settings, b: Breaker, now: real) {
    match b.state
    case Closed => true
    case Open => now - b.openedAt >= cfg.openSeconds
    case HalfOpen => !b.probe
  }

  function AfterAllow(cfg: Settings, b: Breaker, now: real): Breaker {
    if b.state != Closed && Admits(cfg, b, now) then b.(state := HalfOpen, probe := true) else b
  }

  function AfterSuccess(b: Breaker): Breaker {
    b.(state := Closed, failures := 0, probe := false)
  }

  function Tripped(b: Breaker, now: real): Breaker {
    b.(state := Open, openedAt := now, probe := false)
  }

  function AfterFailure(cfg: Settings, b: Breaker, now: real): Breaker {
    if b.state == HalfOpen then Tripped(b, now)
    else
      var b' := b.(failures := b.failures + 1);
      if b'.failures >= cfg.failThreshold then Tripped(b', now) else b'
  }

  /** The breaker object, statement by statement. */
  class CircuitBreaker {
    const cfg: Settings
    var state: BreakerState
    var failures: int
    var openedAt: real
    var probeInflight: bool

    ghost function Value(): Breaker
      reads this
    {
      Breaker(state, failures, openedAt, probeInflight)
    }

    constructor (cfg: Settings)
      ensures this.cfg == cfg && Value() == FRESH
    {
      this.cfg := cfg;
      state, failures, openedAt, probeInflight := Closed, 0, 0.0, false;
    }

    method Allow(now: real) returns (admitted: bool)
      modifies this
      ensures admitted == Admits(cfg, old(Value()), now)
      ensures Value() == AfterAllow(cfg, old(Value()), now)
    {
      if state == Closed {
        return true;
      }
      if state == Open {
        if now - openedAt >= cfg.openSeconds {
          state := HalfOpen;
          probeInflight := false;
        } else {
          return false;
        }
      }
      if probeInflight {
        return false;
      }
      probeInflight := true;
      return true;
    }

    method RecordSuccess()
      modifies this
      ensures Value() == AfterSuccess(old(Value()))
    {
      failures := 0;
      probeInflight := false;
      state := Closed;
    }

    method RecordFailure(now: real)
      modifies this
      ensures Value() == AfterFailure(cfg, old(Value()), now)
    {
      if state == HalfOpen {
        Trip(now);
        return;
      }
      failures := failures + 1;
      if failures >= cfg.failThreshold {
        Trip(now);
      }
    }

    method Trip(now: real)
      modifies this
      ensures Value() == Tripped(old(Value()), now)
    {
      state := Open;
      openedAt := now;
      probeInflight := false;
    }
  }

  // ---- traces -------------------------------------------------------------------

  /** What callers do to a breaker. Results may be reported by any earlier caller, in any order. */
  datatype Event = Asked(at: real) | Succeeded(at: real) | Failed(at: real)

  function Next(cfg: Settings, b: Breaker, e: Event): Breaker {
    match e
    case Asked(at) => AfterAllow(cfg, b, at)
    case Succeeded(_) => AfterSuccess(b)
    case Failed(at) => AfterFailure(cfg, b, at)
  }

  function Run(cfg: Settings, b: Breaker, events: seq<Event>): Breaker
    decreases |events|
  {
    if |events| == 0 then b else Run(cfg, Next(cfg, b, events[0]), events[1..])
  }

  predicate Monotone(events: seq<Event>) {
    forall i, j :: 0 <= i < j < |events| ==> events[i].at <= events[j].at
  }

  /** What the three fields mean to each other. */
  predicate Coherent(cfg: Settings, b: Breaker) {
    && 0 <= b.failures
    && (b.state == Closed <==> b.failures < cfg.failThreshold)
    && (b.state == HalfOpen <==> b.probe)
  }

  lemma {:induction false} CoherentRun(cfg: Settings, b: Breaker, events: seq<Event>)
    requires cfg.failThreshold >= 1 && Coherent(cfg, b)
    ensures Coherent(cfg, Run(cfg, b, events))
    decreases |events|
  {
    if |events| > 0 {
      CoherentRun(cfg, Next(cfg, b, events[0]), events[1..]);
    }
  }

  /** The breaker is closed exactly while its failure count is below the threshold, and half-open
      exactly while a probe is out, after every trace of calls and results; and this needs a
      threshold of at least one. */
  lemma AlwaysCoherent(cfg: Settings)
    ensures (forall events :: Coherent(cfg, Run(cfg, FRESH, events))) <==> cfg.failThreshold >= 1
  {
    if cfg.failThreshold >= 1 {
      forall events ensures Coherent(cfg, Run(cfg, FRESH, events)) {
        CoherentRun(cfg, FRESH, events);
      }
    } else {
      assert Run(cfg, FRESH, []) == FRESH;
      assert !Coherent(cfg, Run(cfg, FRESH, []));
    }
  }

  // ---- the state, read off the history ----------------------------------------------------

  /** The failures that no success followed. */
  function FailuresSince(events: seq<Event>): set<nat> {
    set i: nat | i < |events| && events[i].Failed? && forall j :: i < j < |events| ==> !events[j].Succeeded?
  }

  /** The failures have reached the threshold, or there is one although the threshold is not positive. */
  predicate HasTripped(cfg: Settings, events: seq<Event>) {
    |FailuresSince(events)| >= if cfg.failThreshold > 1 then cfg.failThreshold else 1
  }

  predicate LastFailure(events: seq<Event>, i: nat) {
    i in FailuresSince(events) && forall j :: i < j < |events| ==> !events[j].Failed?
  }

  /** Some call asked late enough after the last failure. */
  ghost predicate ProbeOut(cfg: Settings, events: seq<Event>) {
    exists i: nat, j: nat :: LastFailure(events, i) && i < j < |events|
      && events[j].Asked? && events[j].at - events[i].at >= cfg.openSeconds
  }

  /** What the history says about the breaker. */
  ghost predicate ToldBy(cfg: Settings, b: Breaker, events: seq<Event>) {
    if HasTripped(cfg, events) then
      && b.state == (if ProbeOut(cfg, events) then HalfOpen else Open) && b.probe == ProbeOut(cfg, events)
      && b.failures >= cfg.failThreshold
      && exists i: nat :: LastFailure(events, i) && b.openedAt == events[i].at
    else b.state == Closed && b.failures == |FailuresSince(events)| && !b.probe
  }

  lemma FailuresSnoc(events: seq<Event>, e: Event)
    ensures FailuresSince(events + [e])
            == match e
               case Succeeded(_) => {}
               case Failed(_) => FailuresSince(events) + {|events|}
               case Asked(_) => FailuresSince(events)
  {
    var longer := events + [e];
    assert forall i :: 0 <= i < |events| ==> longer[i] == events[i];
    assert longer[|events|] == e;
  }

  lemma LastSnoc(events: seq<Event>, e: Event)
    ensures e.Asked? ==> forall i: nat :: LastFailure(events + [e], i) <==> LastFailure(events, i)
    ensures e.Failed? ==> forall i: nat :: LastFailure(events + [e], i) <==> i == |events|
  {
    FailuresSnoc(events, e);
    var longer := events + [e];
    assert forall i :: 0 <= i < |events| ==> longer[i] == events[i];
    assert longer[|events|] == e;
    hide FailuresSince;
    assert forall i: nat :: i in FailuresSince(events) ==> i < |events| by { Within(events); }
  }

  lemma Within(events: seq<Event>)
    ensures forall i: nat :: i in FailuresSince(events) ==> i < |events|
  {
  }

  lemma OneLastFailure(events: seq<Event>, i: nat, j: nat)
    requires LastFailure(events, i) && LastFailure(events, j)
    ensures i == j && i < |events|
  {
  }

  lemma AskSnoc(cfg: Settings, events: seq<Event>, at: real, i: nat)
    requires LastFailure(events, i)
    ensures ProbeOut(cfg, events + [Asked(at)]) <==> ProbeOut(cfg, events) || at - events[i].at >= cfg.openSeconds
  {
    var longer := events + [Asked(at)];
    LastSnoc(events, Asked(at));
    Within(events);
    assert longer[|events|] == Asked(at) && longer[i] == events[i] && LastFailure(longer, i);
    if ProbeOut(cfg, events) {
      var i': nat, j': nat :| LastFailure(events, i') && i' < j' < |events| && events[j'].Asked?
                    && events[j'].at - events[i'].at >= cfg.openSeconds;
      assert longer[j'] == events[j'] && longer[i'] == events[i'] && LastFailure(longer, i');
    }
    if ProbeOut(cfg, longer) {
      var i': nat, j': nat :| LastFailure(longer, i') && i' < j' < |longer| && longer[j'].Asked?
                    && longer[j'].at - longer[i'].at >= cfg.openSeconds;
      OneLastFailure(longer, i, i');
      if j' < |events| {
        assert longer[j'] == events[j'];
      }
    }
  }

  lemma NoProbeAfterFailure(cfg: Settings, events: seq<Event>, e: Event)
    requires !e.Asked?
    ensures !ProbeOut(cfg, events + [e])
  {
    var longer := events + [e];
    FailuresSnoc(events, e);
    LastSnoc(events, e);
  }

  lemma RunSnoc(cfg: Settings, b: Breaker, events: seq<Event>, e: Event)
    ensures Run(cfg, b, events + [e]) == Next(cfg, Run(cfg, b, events), e)
    decreases |events|
  {
    hide Next;
    if |events| == 0 {
      assert events + [e] == [e];
      assert Run(cfg, Next(cfg, b, e), [e][1..]) == Next(cfg, b, e);
    } else {
      assert (events + [e])[0] == events[0] && (events + [e])[1..] == events[1..] + [e];
      RunSnoc(cfg, Next(cfg, b, events[0]), events[1..], e);
    }
  }

  lemma FailedTold(cfg: Settings, b: Breaker, events: seq<Event>, at: real)
    requires ToldBy(cfg, b, events)
    ensures ToldBy(cfg, AfterFailure(cfg, b, at), events + [Failed(at)])
  {
    FailuresSnoc(events, Failed(at));
    LastSnoc(events, Failed(at));
    NoProbeAfterFailure(cfg, events, Failed(at));
    Within(events);
    hide FailuresSince, ProbeOut, LastFailure;
    assert |FailuresSince(events) + {|events|}| == |FailuresSince(events)| + 1;
    assert LastFailure(events + [Failed(at)], |events|) && (events + [Failed(at)])[|events|].at == at;
  }

  lemma AskedTold(cfg: Settings, b: Breaker, events: seq<Event>, at: real)
    requires ToldBy(cfg, b, events)
    ensures ToldBy(cfg, AfterAllow(cfg, b, at), events + [Asked(at)])
  {
    FailuresSnoc(events, Asked(at));
    hide FailuresSince, ProbeOut;
    Within(events);
    if HasTripped(cfg, events) {
      var i: nat :| LastFailure(events, i) && b.openedAt == events[i].at;
      AskSnoc(cfg, events, at, i);
      LastSnoc(events, Asked(at));
      assert LastFailure(events + [Asked(at)], i) && (events + [Asked(at)])[i] == events[i];
    }
    hide LastFailure;
  }

  lemma {:induction false} RunTold(cfg: Settings, events: seq<Event>)
    ensures ToldBy(cfg, Run(cfg, FRESH, events), events)
    decreases |events|
  {
    hide ToldBy, AfterAllow, AfterFailure;
    if |events| == 0 {
      NothingTold(cfg);
    } else {
      var front, last := events[..|events| - 1], events[|events| - 1];
      var b := Run(cfg, FRESH, front);
      RunTold(cfg, front);
      RunSnoc(cfg, FRESH, front, last);
      assert events == front + [last];
      match last
      case Asked(at) => AskedTold(cfg, b, front, at);
      case Failed(at) => FailedTold(cfg, b, front, at);
      case Succeeded(_) => SucceededTold(cfg, b, front, last);
    }
  }

  lemma NothingTold(cfg: Settings)
    ensures ToldBy(cfg, FRESH, [])
  {
    assert FailuresSince([]) == {};
  }

  lemma SucceededTold(cfg: Settings, b: Breaker, events: seq<Event>, e: Event)
    requires e.Succeeded?
    ensures ToldBy(cfg, AfterSuccess(b), events + [e])
  {
    FailuresSnoc(events, e);
  }

  /** The state of the breaker is a function of its history, late results included: it is closed exactly
      while fewer failures than the threshold came after the last success; otherwise it is half-open
      exactly if some call has asked at least open_seconds after the last failure, and open until then.
      So a failed probe opens it again for the whole time, and a success closes it whenever it comes. */
  lemma StateIsHistory(cfg: Settings, events: seq<Event>)
    ensures var state := Run(cfg, FRESH, events).state;
            && (state == Closed <==> !HasTripped(cfg, events))
            && (state == HalfOpen <==> HasTripped(cfg, events) && ProbeOut(cfg, events))
  {
    RunTold(cfg, events);
    hide Run, HasTripped, ProbeOut;
  }

  /** Which call is let through: any while too few failed, else the first that asks open_seconds after the
      last failure, and no other. */
  lemma AdmissionIsHistory(cfg: Settings, events: seq<Event>, now: real)
    ensures Admits(cfg, Run(cfg, FRESH, events), now) <==>
            !HasTripped(cfg, events)
            || (!ProbeOut(cfg, events)
                && exists i: nat :: LastFailure(events, i) && now - events[i].at >= cfg.openSeconds)
  {
    RunTold(cfg, events);
    hide Run, HasTripped, ProbeOut, LastFailure;
    forall i: nat, j: nat | LastFailure(events, i) && LastFailure(events, j) ensures i == j {
      OneLastFailure(events, i, j);
    }
  }

  // ---- half-open admissions --------------------------------------------------------

  predicate ProbeNow(cfg: Settings, b: Breaker, e: Event) {
    e.Asked? && b.state != Closed && Admits(cfg, b, e.at)
  }

  /** The times at which a call was admitted while the breaker was not closed. */
  function Probes(cfg: Settings, b: Breaker, events: seq<Event>): seq<real>
    decreases |events|
  {
    if |events| == 0 then []
    else
      var rest := Probes(cfg, Next(cfg, b, events[0]), events[1..]);
      if ProbeNow(cfg, b, events[0]) then [events[0].at] + rest else rest
  }

  /** Each time is at least `gap` after the one before it, the first at least `gap` after p. */
  predicate Spaced(times: seq<real>, gap: real) {
    forall i, j :: 0 <= i < |times| && 0 <= j < |times| && j == i + 1 ==> times[j] - times[i] >= gap
  }

  lemma {:induction false} ProbesAfter(cfg: Settings, b: Breaker, events: seq<Event>, p: real)
    requires Monotone(events) && (|events| > 0 ==> p <= events[0].at)
    requires b.state == Open ==> b.openedAt >= p
    requires b.state == HalfOpen ==> b.probe
    ensures var times := Probes(cfg, b, events);
            Spaced(times, cfg.openSeconds) && (|times| > 0 ==> times[0] >= p + cfg.openSeconds)
    decreases |events|
  {
    if |events| > 0 {
      var e, b' := events[0], Next(cfg, b, events[0]);
      if ProbeNow(cfg, b, e) {
        ProbesAfter(cfg, b', events[1..], e.at);
        var rest := Probes(cfg, b', events[1..]);
        assert Probes(cfg, b, events) == [e.at] + rest;
      } else {
        ProbesAfter(cfg, b', events[1..], p);
      }
    }
  }

  /** Two half-open admissions are at least open_seconds apart, whatever happens between them:
      late results of earlier calls, closings and new trips included. */
  lemma {:induction false} ProbesSpaced(cfg: Settings, b: Breaker, events: seq<Event>)
    requires Monotone(events) && (b.state == HalfOpen ==> b.probe)
    ensures Spaced(Probes(cfg, b, events), cfg.openSeconds)
    decreases |events|
  {
    if |events| > 0 {
      var e, b' := events[0], Next(cfg, b, events[0]);
      if ProbeNow(cfg, b, e) {
        ProbesAfter(cfg, b', events[1..], e.at);
        assert Probes(cfg, b, events) == [e.at] + Probes(cfg, b', events[1..]);
      } else {
        ProbesSpaced(cfg, b', events[1..]);
      }
    }
  }

  lemma {:induction false} SpacedSpan(times: seq<real>, gap: real, i: nat)
    requires Spaced(times, gap) && i < |times|
    ensures times[i] - times[0] >= (i as real) * gap
  {
    if i > 0 {
      SpacedSpan(times, gap, i - 1);
      assert times[i] - times[i - 1] >= gap;
      assert (i as real) * gap == ((i - 1) as real) * gap + gap;
    }
  }

  /** All admissions of a trace, with or without a probe. */
  function Admissions(cfg: Settings, b: Breaker, events: seq<Event>): nat
    decreases |events|
  {
    if |events| == 0 then 0
    else
      (if events[0].Asked? && Admits(cfg, b, events[0].at) then 1 else 0)
      + Admissions(cfg, Next(cfg, b, events[0]), events[1..])
  }

  /** The breaker is never closed when a call asks. */
  predicate NeverClosed(cfg: Settings, b: Breaker, events: seq<Event>)
    decreases |events|
  {
    |events| > 0 ==> b.state != Closed && NeverClosed(cfg, Next(cfg, b, events[0]), events[1..])
  }

  lemma {:induction false} AdmissionsAreProbes(cfg: Settings, b: Breaker, events: seq<Event>)
    requires NeverClosed(cfg, b, events)
    ensures Admissions(cfg, b, events) == |Probes(cfg, b, events)|
    ensures |events| > 0 ==>
              forall t :: t in Probes(cfg, b, events) ==> exists i :: 0 <= i < |events| && events[i].at == t
    decreases |events|
  {
    if |events| > 0 {
      var rest := events[1..];
      AdmissionsAreProbes(cfg, Next(cfg, b, events[0]), rest);
      forall t | t in Probes(cfg, b, events) ensures exists i :: 0 <= i < |events| && events[i].at == t {
        if t in Probes(cfg, Next(cfg, b, events[0]), rest) {
          assert |rest| > 0;
          var i :| 0 <= i < |rest| && rest[i].at == t;
          assert events[i + 1].at == t;
        } else {
          assert events[0].at == t;
        }
      }
    }
  }

  lemma TimesWithin(events: seq<Event>, times: seq<real>, span: real)
    requires Monotone(events) && |events| > 0 && events[|events| - 1].at - events[0].at <= span
    requires forall t :: t in times ==> exists i :: 0 <= i < |events| && events[i].at == t
    requires |times| > 0
    ensures times[|times| - 1] - times[0] <= span
  {
    assert times[0] in times && times[|times| - 1] in times;
    var i :| 0 <= i < |events| && events[i].at == times[0];
    var j :| 0 <= j < |events| && events[j].at == times[|times| - 1];
    assert events[0].at <= events[i].at && events[j].at <= events[|events| - 1].at;
  }

  /** A stretch of length `span` during which the breaker is never closed lets through at most
      floor(span / open_seconds) + 1 calls. */
  lemma OutageThrottled(cfg: Settings, b: Breaker, events: seq<Event>, span: real)
    requires cfg.openSeconds > 0.0 && Monotone(events) && NeverClosed(cfg, b, events)
    requires b.state == HalfOpen ==> b.probe
    requires |events| > 0 && events[|events| - 1].at - events[0].at <= span
    ensures Admissions(cfg, b, events) <= (span / cfg.openSeconds).Floor + 1
  {
    AdmissionsAreProbes(cfg, b, events);
    ProbesSpaced(cfg, b, events);
    var times, gap := Probes(cfg, b, events), cfg.openSeconds;
    assert 0.0 <= span;
    if |times| > 0 {
      TimesWithin(events, times, span);
    }
    hide *;
    SpacedCount(times, gap, span);
  }

  lemma SpacedCount(times: seq<real>, gap: real, span: real)
    requires Spaced(times, gap) && gap > 0.0 && span >= 0.0
    requires |times| > 0 ==> times[|times| - 1] - times[0] <= span
    ensures |times| <= (span / gap).Floor + 1
  {
    if |times| > 0 {
      SpacedSpan(times, gap, |times| - 1);
      DivideSpan(|times| - 1, gap, span);
    } else {
      DivideSpan(0, gap, span);
    }
  }

  lemma MulMono(a: real, b: real, gap: real)
    requires a < b && gap > 0.0
    ensures a * gap < b * gap
  {
  }

  lemma DivideSpan(n: nat, gap: real, span: real)
    requires gap > 0.0 && (n as real) * gap <= span
    ensures n <= (span / gap).Floor
  {
    var q := span / gap;
    assert q * gap == span;
    if q < n as real {
      MulMono(q, n as real, gap);
    }
  }
}
