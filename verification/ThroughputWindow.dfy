/** The dashboard's throughput window (dashboard_api): a pruned deque that stands for the whole
    history of events. */
module ThroughputWindow {

  const WINDOW := 5.0

  predicate Ascending(times: seq<real>) {
    forall i, j :: 0 <= i < j < |times| ==> times[i] <= times[j]
  }

  /** The events no older than WINDOW at time now, in arrival order. */
  function Recent(history: seq<real>, now: real): seq<real> {
    if |history| == 0 then []
    else
      var rest := Recent(history[..|history| - 1], now);
      var last := history[|history| - 1];
      if now - last <= WINDOW then rest + [last] else rest
  }

  /** In an ascending history the recent events are its tail. */
  lemma {:induction false} RecentIsTail(history: seq<real>, k: nat, now: real)
    requires k <= |history|
    requires forall i :: 0 <= i < k ==> now - history[i] > WINDOW
    requires forall i :: k <= i < |history| ==> now - history[i] <= WINDOW
    ensures Recent(history, now) == history[k..]
  {
    if |history| > 0 {
      var front := history[..|history| - 1];
      if k < |history| {
        RecentIsTail(front, k, now);
        assert history[k..] == front[k..] + [history[|history| - 1]];
      } else {
        RecentIsTail(front, k - 1, now);
        assert front[k - 1..] == [];
      }
    }
  }

  lemma PrunedIsRecent(history: seq<real>, k: nat, now: real)
    requires Ascending(history) && k <= |history|
    requires forall i :: 0 <= i < k ==> now - history[i] > WINDOW
    requires k < |history| ==> now - history[k] <= WINDOW
    ensures Recent(history, now) == history[k..]
  {
    forall i | k <= i < |history| ensures now - history[i] <= WINDOW {
      assert history[k] <= history[i];
    }
    RecentIsTail(history, k, now);
  }

  /** Python's round to two digits: the nearest multiple of 0.01, a tie to the even one. */
  function RoundTo2(x: real): real {
    var low := (x * 100.0).Floor;
    var over := x * 100.0 - low as real;
    (if over < 0.5 || (over == 0.5 && low % 2 == 0) then low else low + 1) as real / 100.0
  }

  /** A rate over a window of five seconds has at most one decimal, so rounding loses nothing. */
  lemma RoundingIsExact(n: nat)
    ensures RoundTo2(n as real / WINDOW) == n as real / WINDOW
  {
    assert n as real / WINDOW * 100.0 == (20 * n) as real;
  }

  class ThroughputWindow {
    var times: seq<real>
    ghost var history: seq<real>     // every event ever seen
    ghost var dropped: nat           // how many of them have been pruned
    ghost var clock: real            // the latest time the monotonic clock has shown here

    /** What is kept is a tail of the history, and what was pruned is too old for ever. */
    ghost predicate Valid()
      reads this
    {
      && Ascending(history)
      && (forall i :: 0 <= i < |history| ==> history[i] <= clock)
      && dropped <= |history| && times == history[dropped..]
      && (forall i :: 0 <= i < dropped ==> clock - history[i] > WINDOW)
    }

    constructor ()
      ensures Valid() && history == []
    {
      times, history, dropped, clock := [], [], 0, 0.0;
    }

    /** on_event: an order.placed or a delivery arrived. */
    method OnEvent(now: real)
      requires Valid() && clock <= now
      modifies this
      ensures Valid() && history == old(history) + [now] && clock == now
      ensures times == old(times) + [now]
    {
      times := times + [now];
      history := history + [now];
      clock := now;
    }

    /** _rate: after pruning the deque holds exactly the recent events of the whole history, so the
        rate is exactly the one a filter over every event ever seen would give. */
    method Rate(now: real) returns (perSecond: real)
      requires Valid() && clock <= now
      modifies this
      ensures Valid() && history == old(history) && clock == now
      ensures times == Recent(history, now)
      ensures perSecond == |Recent(history, now)| as real / WINDOW
    {
      while |times| > 0 && now - times[0] > WINDOW
        invariant history == old(history) && clock == old(clock)
        invariant dropped <= |history| && times == history[dropped..]
        invariant forall i :: 0 <= i < dropped ==> now - history[i] > WINDOW
        decreases |times|
      {
        assert times[0] == history[dropped];
        times := times[1..];
        dropped := dropped + 1;
      }
      clock := now;
      assert dropped < |history| ==> times[0] == history[dropped];
      PrunedIsRecent(history, dropped, now);
      RoundingIsExact(|times|);
      perSecond := RoundTo2(|times| as real / WINDOW);
    }
  }
}
