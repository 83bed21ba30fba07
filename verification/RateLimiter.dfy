/** The fixed-window rate limiter of the simulated downstreams (downstream.py, FlakyCore). */
module RateLimiter {

  /** _win_start and _win_count. */
  datatype Window = Window(start: real, count: int)

  const UNUSED := Window(0.0, 0)

  function Tick(w: Window, now: real): Window {
    if now - w.start >= 1.0 then Window(now, 1) else w.(count := w.count + 1)
  }

  predicate Passes(limit: int, w: Window, now: real) {
    Tick(w, now).count <= limit
  }

  /** The switches and counters of one simulated downstream. */
  class FlakyCore {
    var rateLimit: int
    var forcedDown: bool
    var autoDownUntil: real
    var winStart: real
    var winCount: int

    ghost function Win(): Window
      reads this
    {
      Window(winStart, winCount)
    }

    constructor (rateLimit: int)
      ensures Win() == UNUSED && this.rateLimit == rateLimit && !forcedDown
    {
      this.rateLimit := rateLimit;
      forcedDown, autoDownUntil, winStart, winCount := false, 0.0, 0.0, 0;
    }

    method IsDown(now: real) returns (down: bool)
      ensures down == (forcedDown || now < autoDownUntil)
    {
      down := forcedDown || now < autoDownUntil;
    }

    /** Counts the request and says whether it is over the limit. */
    method RateLimited(now: real) returns (limited: bool)
      modifies this`winStart, this`winCount
      ensures Win() == Tick(old(Win()), now)
      ensures limited == !Passes(rateLimit, old(Win()), now)
    {
      if now - winStart >= 1.0 {
        winStart := now;
        winCount := 0;
      }
      winCount := winCount + 1;
      limited := winCount > rateLimit;
    }
  }

  // ---- traces --------------------------------------------------------------------

  predicate Ascending(times: seq<real>) {
    forall i, j :: 0 <= i < j < |times| ==> times[i] <= times[j]
  }

  /** How many requests arriving in [lo, hi] are let through. */
  function Through(limit: int, w: Window, times: seq<real>, lo: real, hi: real): nat
    decreases |times|
  {
    if |times| == 0 then 0
    else
      (if lo <= times[0] <= hi && Passes(limit, w, times[0]) then 1 else 0)
      + Through(limit, Tick(w, times[0]), times[1..], lo, hi)
  }

  /** The times at which a window was opened by a request. */
  function Openings(w: Window, times: seq<real>): seq<real>
    decreases |times|
  {
    if |times| == 0 then []
    else
      var rest := Openings(Tick(w, times[0]), times[1..]);
      if times[0] - w.start >= 1.0 then [times[0]] + rest else rest
  }

  /** Window starts are at least one second apart. */
  lemma {:induction false} OpeningsApart(w: Window, times: seq<real>)
    requires Ascending(times)
    ensures var o := Openings(w, times);
            && (|o| > 0 ==> o[0] >= w.start + 1.0)
            && (forall i, j :: 0 <= i < |o| && 0 <= j < |o| && j == i + 1 ==> o[j] >= o[i] + 1.0)
    decreases |times|
  {
    if |times| > 0 {
      var w', rest := Tick(w, times[0]), times[1..];
      OpeningsApart(w', rest);
      if times[0] - w.start >= 1.0 {
        assert Openings(w, times) == [times[0]] + Openings(w', rest);
      }
    }
  }

  function Cap(limit: int): nat {
    if limit > 0 then limit else 0
  }

  function Budget(limit: int, w: Window): nat {
    if limit > w.count then limit - w.count else 0
  }

  lemma MulStep(m: nat, c: nat)
    requires m > 0
    ensures m * c == (m - 1) * c + c
  {
  }

  lemma {:induction false} NothingAfter(limit: int, w: Window, times: seq<real>, lo: real, hi: real)
    requires Ascending(times) && (|times| > 0 ==> times[0] > hi)
    ensures Through(limit, w, times, lo, hi) == 0
    decreases |times|
  {
    if |times| > 0 {
      NothingAfter(limit, Tick(w, times[0]), times[1..], lo, hi);
    }
  }

  /** From an open window on, what is left of it plus one full window for every further second. */
  lemma {:induction false} WithinBudget(limit: int, w: Window, times: seq<real>, lo: real, hi: real, m: nat)
    requires Ascending(times) && (|times| > 0 ==> w.start <= times[0])
    requires w.count >= 0 && hi - w.start < m as real + 1.0
    ensures Through(limit, w, times, lo, hi) <= Budget(limit, w) + m * Cap(limit)
    decreases |times|
  {
    if |times| > 0 {
      var t, rest := times[0], times[1..];
      if t > hi {
        NothingAfter(limit, w, times, lo, hi);
      } else if t - w.start >= 1.0 {
        MulStep(m, Cap(limit));
        WithinBudget(limit, Tick(w, t), rest, lo, hi, m - 1);
      } else {
        WithinBudget(limit, Tick(w, t), rest, lo, hi, m);
      }
    }
  }

  /** Any interval of n whole seconds, wherever it starts, lets through at most (n + 1) times
      rate_limit_rps requests; in any one second at most twice the limit. */
  lemma {:induction false} IntervalBound(limit: int, w: Window, times: seq<real>, lo: real, hi: real, n: nat)
    requires Ascending(times) && (|times| > 0 ==> w.start <= times[0])
    requires w.count >= 0 && hi - lo <= n as real
    ensures Through(limit, w, times, lo, hi) <= (n + 1) * Cap(limit)
    decreases |times|
  {
    MulStep(n + 1, Cap(limit));
    if |times| > 0 {
      var t, rest := times[0], times[1..];
      if t < lo {
        IntervalBound(limit, Tick(w, t), rest, lo, hi, n);
      } else if t > hi {
        NothingAfter(limit, w, times, lo, hi);
      } else if t - w.start >= 1.0 {
        WithinBudget(limit, Tick(w, t), rest, lo, hi, n);
      } else {
        WithinBudget(limit, w, times, lo, hi, n);
      }
    }
  }

  function After(w: Window, times: seq<real>): Window
    decreases |times|
  {
    if |times| == 0 then w else After(Tick(w, times[0]), times[1..])
  }

  lemma {:induction false} ThroughConcat(limit: int, w: Window, a: seq<real>, b: seq<real>, lo: real, hi: real)
    ensures Through(limit, w, a + b, lo, hi) == Through(limit, w, a, lo, hi) + Through(limit, After(w, a), b, lo, hi)
    decreases |a|
  {
    if |a| == 0 {
      assert a + b == b;
    } else {
      assert (a + b)[0] == a[0] && (a + b)[1..] == a[1..] + b;
      ThroughConcat(limit, Tick(w, a[0]), a[1..], b, lo, hi);
    }
  }

  /** k requests at one moment inside a window with room for them all pass. */
  lemma {:induction false} Burst(limit: nat, k: nat, w: Window, t: real, lo: real, hi: real)
    requires t - w.start < 1.0 && lo <= t <= hi && 0 <= w.count && w.count + k <= limit
    ensures Through(limit, w, seq(k, _ => t), lo, hi) == k
    ensures After(w, seq(k, _ => t)) == w.(count := w.count + k)
    decreases k
  {
    if k > 0 {
      assert seq(k, _ => t)[0] == t && seq(k, _ => t)[1..] == seq(k - 1, _ => t);
      Burst(limit, k - 1, Tick(w, t), t, lo, hi);
    }
  }

  /** The bound is met: a burst just before a window ends and one right after it let twice the limit
      through within a tenth of a second. */
  lemma TwiceTheLimitHappens(limit: nat)
    requires limit > 0
    ensures var times := seq(limit, _ => 0.9) + ([1.0] + seq(limit - 1, _ => 1.0));
            Ascending(times) && Through(limit, UNUSED, times, 0.9, 1.0) == 2 * limit
  {
    var a, c := seq(limit, _ => 0.9), seq(limit - 1, _ => 1.0);
    Burst(limit, limit, UNUSED, 0.9, 0.9, 1.0);
    var w := After(UNUSED, a);
    ThroughConcat(limit, UNUSED, a, [1.0] + c, 0.9, 1.0);
    Burst(limit, limit - 1, Tick(w, 1.0), 1.0, 0.9, 1.0);
    assert ([1.0] + c)[0] == 1.0 && ([1.0] + c)[1..] == c;
  }
}
