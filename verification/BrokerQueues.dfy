/** The command queues of the broker (broker.py): bounce through the retry queue, park, replay.
    Every move publishes the copy before it acks the original. */
module BrokerQueues {
  import opened Pipeline

  /** A message body: an envelope, or bytes that do not decode to one. */
  datatype Body = Good(env: Envelope) | Poison(raw: string)

  /** A body without its attempt counter: what must not get lost. */
  function Identity(b: Body): Body {
    match b
    case Good(env) => Good(env.(attempt := 1))
    case Poison(_) => b
  }

  function Identities(queue: seq<Body>): seq<Body> {
    seq(|queue|, i requires 0 <= i < |queue| => Identity(queue[i]))
  }

  lemma IdentitiesConcat(a: seq<Body>, b: seq<Body>)
    ensures Identities(a + b) == Identities(a) + Identities(b)
  {
  }

  // ---- replay ----------------------------------------------------------------

  /** The bodies a replay of `parked` puts on the work queue: the envelopes, restarted. */
  function Replayed(parked: seq<Body>): seq<Body> {
    if |parked| == 0 then []
    else
      var front, last := Replayed(parked[..|parked| - 1]), parked[|parked| - 1];
      if last.Good? then front + [Identity(last)] else front
  }

  function PoisonOf(parked: seq<Body>): multiset<Body> {
    if |parked| == 0 then multiset{}
    else
      var front, last := PoisonOf(parked[..|parked| - 1]), parked[|parked| - 1];
      if last.Poison? then front + multiset{last} else front
  }

  lemma ReplayedAppend(parked: seq<Body>, b: Body)
    ensures Replayed(parked + [b]) == Replayed(parked) + (if b.Good? then [Identity(b)] else [])
    ensures PoisonOf(parked + [b]) == PoisonOf(parked) + (if b.Poison? then multiset{b} else multiset{})
  {
  }

  lemma ReplayedNone()
    ensures Replayed([]) == []
  {
  }

  /** Replaying in two goes replays the same commands in the same order. */
  lemma {:induction false} ReplayedConcat(a: seq<Body>, b: seq<Body>)
    ensures Replayed(a + b) == Replayed(a) + Replayed(b)
    decreases |b|
  {
    hide Replayed, Identity;
    if |b| == 0 {
      ReplayedNone();
      assert a + b == a && b == [];
    } else {
      var front, last := b[..|b| - 1], b[|b| - 1];
      ReplayedConcat(a, front);
      ReplayedAppend(a + front, last);
      ReplayedAppend(front, last);
      assert a + b == (a + front) + [last] && b == front + [last];
      var tail := if last.Good? then [Identity(last)] else [];
      assert (Replayed(a) + Replayed(front)) + tail == Replayed(a) + (Replayed(front) + tail);
    }
  }

  /** Every parked envelope comes back, behind exactly the envelopes parked before it, as a first
      attempt; the bodies that do not come back are the poison ones. */
  lemma {:induction false} ReplayKeepsEveryCommand(parked: seq<Body>, i: nat)
    requires i < |parked| && parked[i].Good?
    ensures |Replayed(parked[..i])| < |Replayed(parked)|
    ensures Replayed(parked)[|Replayed(parked[..i])|] == Good(parked[i].env.(attempt := 1))
  {
    assert parked == parked[..i] + [parked[i]] + parked[i + 1..];
    ReplayedAppend(parked[..i], parked[i]);
    ReplayedConcat(parked[..i] + [parked[i]], parked[i + 1..]);
  }

  lemma IdentitiesAppend(queue: seq<Body>, b: Body)
    ensures Identities(queue + [b]) == Identities(queue) + [Identity(b)]
    ensures Identity(Identity(b)) == Identity(b)
  {
    IdentitiesConcat(queue, [b]);
  }

  lemma {:induction false} ReplaySplits(parked: seq<Body>)
    ensures multiset(Identities(parked)) == multiset(Replayed(parked)) + PoisonOf(parked)
    ensures Identities(Replayed(parked)) == Replayed(parked)
  {
    if |parked| > 0 {
      var front, last := parked[..|parked| - 1], parked[|parked| - 1];
      hide Identities;
      ReplaySplits(front);
      assert parked == front + [last];
      IdentitiesAppend(front, last);
      IdentitiesAppend(Replayed(front), Identity(last));
    }
  }

  /** How many messages a replay with this limit takes from a queue of this length. */
  function Taken(limit: int, depth: nat): nat {
    if limit <= 0 then 0 else if limit < depth then limit else depth
  }

  // ---- drain ticks -------------------------------------------------------------

  const DRAIN_BATCH := 500

  /** The DLQ after a number of drain ticks that found every downstream healthy, while nothing else
      is parked. */
  function Left(parked: seq<Body>, ticks: nat): seq<Body> {
    if ticks == 0 then parked else Left(parked[Taken(DRAIN_BATCH, |parked|)..], ticks - 1)
  }

  /** What these ticks put on the work queue. */
  function Sent(parked: seq<Body>, ticks: nat): seq<Body> {
    if ticks == 0 then []
    else
      var n := Taken(DRAIN_BATCH, |parked|);
      Replayed(parked[..n]) + Sent(parked[n..], ticks - 1)
  }

  /** How many ticks found every downstream healthy. */
  function Healthy(ticks: seq<bool>): nat {
    if |ticks| == 0 then 0 else (if ticks[0] then 1 else 0) + Healthy(ticks[1..])
  }

  lemma {:induction false} NothingToDrain(parked: seq<Body>, ticks: nat)
    requires parked == []
    ensures Left(parked, ticks) == [] && Sent(parked, ticks) == []
  {
    if ticks > 0 {
      NothingToDrain(parked[0..], ticks - 1);
    }
  }

  lemma HealthyTick(parked: seq<Body>, sent: seq<Body>, rest: nat)
    ensures var n := Taken(DRAIN_BATCH, |parked|);
            && Left(parked, rest + 1) == Left(parked[n..], rest)
            && sent + Sent(parked, rest + 1) == (sent + Replayed(parked[..n])) + Sent(parked[n..], rest)
  {
    hide Replayed;
    var n := Taken(DRAIN_BATCH, |parked|);
    assert Sent(parked, rest + 1) == Replayed(parked[..n]) + Sent(parked[n..], rest);
  }

  lemma DrainedAll(left: seq<Body>, sent: seq<Body>, ticks: seq<bool>, i: nat)
    requires i == |ticks|
    ensures Left(left, Healthy(ticks[i..])) == left && sent + Sent(left, Healthy(ticks[i..])) == sent
  {
  }

  lemma HealthyFrom(ticks: seq<bool>, i: nat)
    requires i < |ticks|
    ensures Healthy(ticks[i..]) == (if ticks[i] then 1 else 0) + Healthy(ticks[i + 1..])
  {
    assert ticks[i..][1..] == ticks[i + 1..];
  }

  function Least(a: nat, b: nat): nat {
    if a < b then a else b
  }

  /** While nothing else is parked, healthy ticks move the oldest messages, 500 a tick and no more, and send
      what is decodable among them once and in order. */
  lemma {:induction false} DrainTakesBatches(parked: seq<Body>, ticks: nat)
    ensures var n := Least(|parked|, 500 * ticks);
            Left(parked, ticks) == parked[n..] && Sent(parked, ticks) == Replayed(parked[..n])
    decreases ticks
  {
    if ticks == 0 {
      ReplayedNone();
      assert parked[..0] == [];
    } else {
      hide Replayed;
      var first := Taken(DRAIN_BATCH, |parked|);
      var rest := parked[first..];
      var n, m := Least(|parked|, 500 * ticks), Least(|rest|, 500 * (ticks - 1));
      DrainTakesBatches(rest, ticks - 1);
      assert n == first + m;
      ReplayedConcat(parked[..first], rest[..m]);
      assert parked[..n] == parked[..first] + rest[..m] && parked[n..] == rest[m..];
    }
  }

  /** So enough of them empty it. */
  lemma DrainEmptiesTheDlq(parked: seq<Body>, ticks: nat)
    requires |parked| <= 500 * ticks
    ensures Left(parked, ticks) == [] && Sent(parked, ticks) == Replayed(parked)
  {
    hide Left, Sent, Replayed;
    DrainTakesBatches(parked, ticks);
    assert parked[..|parked|] == parked;
  }

  // ---- the capped bounce --------------------------------------------------------

  function Max(a: int, b: int): int {
    if a < b then b else a
  }

  /** The copy that _retry_or_dlq publishes for a command in hand, and whether it parks it. */
  datatype Bounced = ToDlq(env: Envelope) | ToRetry(env: Envelope)

  function BounceOf(maxAttempts: int, env: Envelope): Bounced {
    if env.attempt >= maxAttempts then ToDlq(env) else ToRetry(env.(attempt := env.attempt + 1))
  }

  /** A command that fails every time: how often it is handled, and what is parked at the end. */
  function Failing(maxAttempts: int, env: Envelope): (nat, Envelope)
    decreases maxAttempts - env.attempt
  {
    match BounceOf(maxAttempts, env)
    case ToDlq(last) => (1, last)
    case ToRetry(next) => var (n, last) := Failing(maxAttempts, next); (n + 1, last)
  }

  /** A fresh command gets max(1, BROKER_MAX_ATTEMPTS) tries, never more, and is then parked with
      nothing but its counter changed. */
  lemma {:induction false} CappedRetries(maxAttempts: int, env: Envelope)
    ensures Failing(maxAttempts, env).0 == Max(1, maxAttempts - env.attempt + 1)
    ensures Failing(maxAttempts, env).1 == env.(attempt := Max(env.attempt, maxAttempts))
    decreases maxAttempts - env.attempt
  {
    if env.attempt < maxAttempts {
      CappedRetries(maxAttempts, env.(attempt := env.attempt + 1));
    }
  }

  // ---- the broker ---------------------------------------------------------------

  /** Everything in two places, attempt counters aside. */
  function Together(a: seq<Body>, b: seq<Body>): multiset<Body> {
    multiset(Identities(a)) + multiset(Identities(b))
  }

  lemma TogetherAfterReplay(work: seq<Body>, parked: seq<Body>, n: nat)
    requires n <= |parked|
    ensures Together(work + Replayed(parked[..n]), parked[n..]) + PoisonOf(parked[..n]) == Together(work, parked)
  {
    hide Replayed, PoisonOf;
    ReplaySplits(parked[..n]);
    IdentitiesConcat(work, Replayed(parked[..n]));
    IdentitiesConcat(parked[..n], parked[n..]);
    assert parked == parked[..n] + parked[n..];
  }

  lemma CancelMultiset(a: multiset<Body>, b: multiset<Body>, c: multiset<Body>)
    requires a + c == b + c
    ensures a == b
  {
    assert a == (a + c) - c && b == (b + c) - c;
  }

  class Broker {
    var work: seq<Body>      // q.order.advance
    var retry: seq<Body>     // q.order.advance.retry, oldest first
    var dlq: seq<Body>       // q.order.dlq
    var unacked: seq<Body>   // delivered to a handler and not acked yet

    constructor ()
      ensures work == [] && retry == [] && dlq == [] && unacked == []
    {
      work, retry, dlq, unacked := [], [], [], [];
    }

    /** Everything the broker holds, attempt counters aside. */
    ghost function Held(): multiset<Body>
      reads this
    {
      Together(work, dlq) + Together(retry, unacked)
    }

    method Deliver()
      requires |work| > 0
      modifies this`work, this`unacked
      ensures work == old(work)[1..] && unacked == old(unacked) + [old(work)[0]]
      ensures Held() == old(Held())
    {
      assert work == [work[0]] + work[1..];
      IdentitiesConcat([work[0]], work[1..]);
      IdentitiesConcat(unacked, [work[0]]);
      unacked, work := unacked + [work[0]], work[1..];
    }

    method Ack(i: nat)
      requires i < |unacked|
      modifies this`unacked
      ensures unacked == old(unacked)[..i] + old(unacked)[i + 1..]
      ensures Held() + multiset{Identity(old(unacked)[i])} == old(Held())
    {
      var body := unacked[i];
      assert unacked == unacked[..i] + [body] + unacked[i + 1..];
      IdentitiesConcat(unacked[..i], [body]);
      IdentitiesConcat(unacked[..i] + [body], unacked[i + 1..]);
      IdentitiesConcat(unacked[..i], unacked[i + 1..]);
      assert Identities([body]) == [Identity(body)];
      unacked := unacked[..i] + unacked[i + 1..];
    }

    /** schedule_retry: the caller's envelope is counted up, then a copy is published. */
    method ScheduleRetry(env: Envelope) returns (counted: Envelope)
      modifies this`retry
      ensures counted == env.(attempt := env.attempt + 1)
      ensures retry == old(retry) + [Good(counted)]
      ensures Held() == old(Held()) + multiset{Identity(Good(env))}
    {
      counted := env.(attempt := env.attempt + 1);
      IdentitiesConcat(retry, [Good(counted)]);
      assert Identities([Good(counted)]) == [Identity(Good(env))];
      retry := retry + [Good(counted)];
    }

    /** send_to_dlq and send_raw_to_dlq. */
    method Park(body: Body)
      modifies this`dlq
      ensures dlq == old(dlq) + [body]
      ensures Held() == old(Held()) + multiset{Identity(body)}
    {
      IdentitiesConcat(dlq, [body]);
      assert Identities([body]) == [Identity(body)];
      dlq := dlq + [body];
    }

    /** _retry_or_dlq on the delivery i, whose envelope in memory is env. */
    method RetryOrDlq(maxAttempts: int, env: Envelope, i: nat)
      requires i < |unacked| && Identity(unacked[i]) == Identity(Good(env))
      modifies this`retry, this`dlq, this`unacked
      ensures unacked == old(unacked)[..i] + old(unacked)[i + 1..]
      ensures match BounceOf(maxAttempts, env)
              case ToDlq(copy) => dlq == old(dlq) + [Good(copy)] && retry == old(retry)
              case ToRetry(copy) => retry == old(retry) + [Good(copy)] && dlq == old(dlq)
      ensures Held() == old(Held())
    {
      hide Together, Identities, Identity;
      ghost var held := Held();
      if env.attempt >= maxAttempts {
        Park(Good(env));
      } else {
        var _ := ScheduleRetry(env);
      }
      Ack(i);
      CancelMultiset(Held(), held, multiset{Identity(Good(env))});
    }

    /** _fault on a delivery that does not decode: parked as it is, then acked. */
    method ParkPoison(i: nat)
      requires i < |unacked| && unacked[i].Poison?
      modifies this`dlq, this`unacked
      ensures dlq == old(dlq) + [old(unacked)[i]]
      ensures unacked == old(unacked)[..i] + old(unacked)[i + 1..]
      ensures Held() == old(Held())
    {
      ghost var held, body := Held(), unacked[i];
      Park(unacked[i]);
      Ack(i);
      CancelMultiset(Held(), held, multiset{Identity(body)});
    }

    /** The retry TTL of the oldest message runs out: dead-lettered back onto the work queue. */
    method ExpireRetry()
      requires |retry| > 0
      modifies this`work, this`retry
      ensures work == old(work) + [old(retry)[0]] && retry == old(retry)[1..]
      ensures Held() == old(Held())
    {
      assert retry == [retry[0]] + retry[1..];
      IdentitiesConcat([retry[0]], retry[1..]);
      IdentitiesConcat(work, [retry[0]]);
      work, retry := work + [retry[0]], retry[1..];
    }

    /** replay_dlq: the oldest parked messages move back in order, restarted; poison is dropped
        and nothing else is. */
    method ReplayDlq(limit: int) returns (moved: nat, dropped: nat)
      modifies this`work, this`dlq
      ensures var n := Taken(limit, |old(dlq)|); var taken := old(dlq)[..n];
              && dlq == old(dlq)[n..] && work == old(work) + Replayed(taken)
              && moved == |Replayed(taken)| && moved + dropped == n
              && (limit <= 0 ==> n == 0) && (limit >= 0 ==> n <= limit) && (n < limit ==> dlq == [])
              && Held() + PoisonOf(taken) == old(Held())
    {
      hide Together, Identities, PoisonOf;
      moved, dropped := 0, 0;
      ghost var parked := dlq;
      var i := 0;
      while i < limit && |dlq| > 0
        invariant 0 <= i <= |parked| && (i <= limit || i == 0)
        invariant dlq == parked[i..] && work == old(work) + Replayed(parked[..i])
        invariant moved == |Replayed(parked[..i])| && moved + dropped == i
      {
        var body := dlq[0];
        assert parked[..i + 1] == parked[..i] + [body];
        ReplayedAppend(parked[..i], body);
        match body {
          case Poison(_) => dropped := dropped + 1;
          case Good(env) =>
            work := work + [Good(env.(attempt := 1))];
            moved := moved + 1;
        }
        dlq := dlq[1..];
        i := i + 1;
      }
      TogetherAfterReplay(old(work), parked, i);
    }

    /** _dlq_drain_loop over a number of its ticks while nobody else uses the queues; healthy[i] is what
        _downstreams_healthy says at tick i. Only healthy ticks replay, 500 messages each. */
    method DrainLoop(healthy: seq<bool>)
      modifies this`work, this`dlq
      ensures var n := Least(|old(dlq)|, 500 * Healthy(healthy));
              dlq == old(dlq)[n..] && work == old(work) + Replayed(old(dlq)[..n])
    {
      hide Replayed, Left, Sent, Healthy, PoisonOf, Together, Held;
      var i := 0;
      ghost var sent: seq<Body> := [];
      assert healthy[0..] == healthy;
      while i < |healthy|
        invariant 0 <= i <= |healthy| && work == old(work) + sent
        invariant Left(dlq, Healthy(healthy[i..])) == Left(old(dlq), Healthy(healthy))
        invariant sent + Sent(dlq, Healthy(healthy[i..])) == Sent(old(dlq), Healthy(healthy))
      {
        HealthyFrom(healthy, i);
        if |dlq| == 0 {
          NothingToDrain(dlq, Healthy(healthy[i..]));
          NothingToDrain(dlq, Healthy(healthy[i + 1..]));
        } else if healthy[i] {
          HealthyTick(dlq, sent, Healthy(healthy[i + 1..]));
          sent := sent + Replayed(dlq[..Taken(DRAIN_BATCH, |dlq|)]);
          var moved, dropped := ReplayDlq(DRAIN_BATCH);
        }
        i := i + 1;
      }
      DrainedAll(dlq, sent, healthy, i);
      DrainTakesBatches(old(dlq), Healthy(healthy));
    }
  }
}
