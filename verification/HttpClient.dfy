/** The resilient HTTP client (http_client.py): classification, the bounded retry loop, the call
    counters, and what they add up to when any number of calls share one client. */
module HttpClient {
  import opened CircuitBreaker

  datatype Response = Status(code: int) | TransportError

  datatype Verdict = Succeed | Permanent(code: int) | Transient(limited: bool)

  function Classify(r: Response): Verdict {
    match r
    case TransportError => Transient(false)
    case Status(code) =>
      if code < 300 then Succeed
      else if code == 429 then Transient(true)
      else if code >= 500 then Transient(false)
      else Permanent(code)
  }

  datatype Result = BreakerOpen | Success | PermanentError(code: int) | TransientExhausted

  datatype Stats = Stats(calls: int, successes: int, failures: int, rateLimited: int, retries: int)

  /** How many of the first n answers were 429. */
  function Limited(reply: nat -> Response, n: nat): nat {
    if n == 0 then 0 else Limited(reply, n - 1) + (if Classify(reply(n)) == Transient(true) then 1 else 0)
  }

  /** What a call that made `posts` POSTs ends in. */
  function Ending(reply: nat -> Response, posts: nat): Result {
    if posts == 0 then TransientExhausted
    else match Classify(reply(posts))
      case Succeed => Success
      case Permanent(code) => PermanentError(code)
      case Transient(_) => TransientExhausted
  }

  /** What one call comes to. It stops at the first answer that is not transient, or after
      max_retries + 1 POSTs, counts one retry for every POST after the first, and resolves the breaker
      once; a call that is not admitted changes nothing. */
  predicate CallEnds(cfg: Settings, maxRetries: int, b: Breaker, stats: Stats, now: real, reply: nat -> Response,
                     finished: real, result: Result, posts: nat, b': Breaker, stats': Stats)
  {
    if !Admits(cfg, b, now) then result == BreakerOpen && posts == 0 && stats' == stats && b' == b
    else
      && result == Ending(reply, posts)
      && (forall i :: 1 <= i < posts ==> Classify(reply(i)).Transient?)
      && posts <= (if maxRetries < 0 then 0 else maxRetries + 1)
      && (result == TransientExhausted ==> posts == if maxRetries < 0 then 0 else maxRetries + 1)
      && (maxRetries >= 0 ==> posts >= 1)
      && stats' == stats.(
           calls := stats.calls + 1,
           successes := stats.successes + (if result == Success then 1 else 0),
           failures := stats.failures + (if result == TransientExhausted then 1 else 0),
           rateLimited := stats.rateLimited + Limited(reply, posts),
           retries := stats.retries + (if posts == 0 then 0 else posts - 1))
      && b' == (var open := AfterAllow(cfg, b, now);
                if result == TransientExhausted then AfterFailure(cfg, open, finished) else AfterSuccess(open))
  }

  class ResilientClient {
    const maxRetries: int
    const breaker: CircuitBreaker
    var stats: Stats

    constructor (maxRetries: int, cfg: Settings)
      ensures this.maxRetries == maxRetries && fresh(breaker) && breaker.cfg == cfg && breaker.Value() == FRESH
      ensures stats == Stats(0, 0, 0, 0, 0)
    {
      this.maxRetries := maxRetries;
      breaker := new CircuitBreaker(cfg);
      stats := Stats(0, 0, 0, 0, 0);
    }

    /** One call that nobody else interleaves with; reply(i) is the answer to its i-th POST. It resolves
        the breaker exactly once on every exit. UninterruptedCall says which steps of the shared client
        it takes. */
    method PostJson(now: real, reply: nat -> Response, finished: real) returns (result: Result, posts: nat)
      modifies this, breaker
      ensures CallEnds(breaker.cfg, maxRetries, old(breaker.Value()), old(stats), now, reply, finished,
                       result, posts, breaker.Value(), stats)
    {
      hide AfterFailure, AfterSuccess, Admits;
      posts := 0;
      var admitted := breaker.Allow(now);
      if !admitted {
        return BreakerOpen, 0;
      }
      stats := stats.(calls := stats.calls + 1);
      ghost var entered := stats;
      var attempts := maxRetries + 1;
      var attempt := 1;
      while attempt <= attempts
        invariant posts + 1 == attempt
        invariant 1 <= attempt && (attempt <= attempts + 1 || attempt == 1)
        invariant forall i :: 1 <= i < attempt ==> Classify(reply(i)).Transient?
        invariant stats == entered.(
                    rateLimited := entered.rateLimited + Limited(reply, posts),
                    retries := entered.retries
                               + (if attempt <= attempts then posts else if posts == 0 then 0 else posts - 1))
        invariant breaker.Value() == AfterAllow(breaker.cfg, old(breaker.Value()), now)
        decreases attempts + 1 - attempt
      {
        posts := posts + 1;
        match Classify(reply(attempt)) {
          case Succeed =>
            stats := stats.(successes := stats.successes + 1);
            breaker.RecordSuccess();
            return Success, posts;
          case Transient(limited) =>
            if limited {
              stats := stats.(rateLimited := stats.rateLimited + 1);
            }
            if attempt < attempts {
              stats := stats.(retries := stats.retries + 1);
            }
          case Permanent(code) =>
            breaker.RecordSuccess();
            return PermanentError(code), posts;
        }
        attempt := attempt + 1;
      }
      stats := stats.(failures := stats.failures + 1);
      breaker.RecordFailure(finished);
      return TransientExhausted, posts;
    }
  }

  // ---- what a call comes to, by status codes ----------------------------------------------------

  /** A rate limit, a server error, a timeout or a transport error. */
  predicate Passing(r: Response) {
    r.TransportError? || r.code == 429 || r.code >= 500
  }

  /** The classification, read off the status code. */
  lemma ClassifyMeans(r: Response)
    ensures Classify(r).Transient? <==> Passing(r)
    ensures Classify(r) == Transient(true) <==> r == Status(429)
    ensures Classify(r) == Succeed <==> r.Status? && r.code < 300
    ensures forall code :: Classify(r) == Permanent(code) <==> r == Status(code) && 300 <= code < 500 && code != 429
  {
  }

  /** The 429s among the first n answers. */
  function Limits(reply: nat -> Response, n: nat): set<nat> {
    set i: nat | 1 <= i <= n && reply(i) == Status(429)
  }

  lemma LimitsGrow(reply: nat -> Response, n: nat)
    ensures Limits(reply, n + 1) == Limits(reply, n) + (if reply(n + 1) == Status(429) then {n + 1} else {})
    ensures n + 1 !in Limits(reply, n) && Limits(reply, 0) == {}
  {
  }

  lemma {:induction false} LimitedCounts(reply: nat -> Response, n: nat)
    ensures Limited(reply, n) == |Limits(reply, n)|
  {
    hide Classify, Limits;
    if n > 0 {
      LimitedCounts(reply, n - 1);
      LimitsGrow(reply, n - 1);
      ClassifyMeans(reply(n));
    } else {
      LimitsGrow(reply, 0);
    }
  }

  /** What an admitted call comes to, by status codes alone: every answer but the last is passing; a last one
      below 300 is a success, one that is passing comes only after max_retries + 1 POSTs and counts
      against the breaker, and any other is raised with its code; both of these leave the breaker
      closed with no failures. Every 429 is counted. */
  lemma StatusCodesDecide(cfg: Settings, maxRetries: int, b: Breaker, stats: Stats, now: real, reply: nat -> Response,
                          finished: real, result: Result, posts: nat, b': Breaker, stats': Stats)
    requires Admits(cfg, b, now) && maxRetries >= 0
    requires CallEnds(cfg, maxRetries, b, stats, now, reply, finished, result, posts, b', stats')
    ensures 1 <= posts <= maxRetries + 1 && forall i :: 1 <= i < posts ==> Passing(reply(i))
    ensures match reply(posts)
            case TransportError => result == TransientExhausted && posts == maxRetries + 1
            case Status(code) =>
              if code < 300 then result == Success
              else if code == 429 || code >= 500 then result == TransientExhausted && posts == maxRetries + 1
              else result == PermanentError(code)
    ensures !Passing(reply(posts)) ==> b'.state == Closed && b'.failures == 0 && !b'.probe
    ensures stats'.rateLimited == stats.rateLimited + |Limits(reply, posts)|
  {
    hide AfterAllow, Admits, Classify, Passing, Limited, Limits;
    LimitedCounts(reply, posts);
    ClassifyMeans(reply(posts));
    forall i | 1 <= i < posts ensures Passing(reply(i)) {
      ClassifyMeans(reply(i));
    }
    PassingIs(reply(posts));
  }

  lemma PassingIs(r: Response)
    ensures Passing(r) <==> (match r case TransportError => true case Status(code) => code == 429 || code >= 500)
  {
  }

  // ---- what trips the breaker ----------------------------------------------------------

  /** None of the first n answers settles a call. */
  predicate AllPassing(reply: nat -> Response, n: nat) {
    forall i :: 1 <= i <= n ==> Passing(reply(i))
  }

  /** An admitted call counts against the breaker exactly if all its max_retries + 1 answers are
      passing, rate limiting included; any other call counts as a success. */
  lemma FailureRecordedIff(cfg: Settings, maxRetries: int, b: Breaker, stats: Stats, now: real, reply: nat -> Response,
                           finished: real, result: Result, posts: nat, b': Breaker, stats': Stats)
    requires Admits(cfg, b, now) && maxRetries >= 0
    requires CallEnds(cfg, maxRetries, b, stats, now, reply, finished, result, posts, b', stats')
    ensures result == TransientExhausted <==> AllPassing(reply, maxRetries + 1)
    ensures AllPassing(reply, maxRetries + 1) ==> b' == AfterFailure(cfg, AfterAllow(cfg, b, now), finished)
    ensures !AllPassing(reply, maxRetries + 1) ==> b' == AfterSuccess(AfterAllow(cfg, b, now))
  {
    hide AfterFailure, AfterSuccess, AfterAllow, Admits, Limited, Classify, Passing;
    forall i: nat ensures Classify(reply(i)).Transient? <==> Passing(reply(i)) {
      ClassifyMeans(reply(i));
    }
  }

  /** A call of post_json that is over, with the breaker and the counters it left. */
  datatype Done = Done(now: real, reply: nat -> Response, finished: real,
                       result: Result, posts: nat, b: Breaker, stats: Stats)

  /** One call after the other. */
  predicate Calls(cfg: Settings, maxRetries: int, b: Breaker, stats: Stats, calls: seq<Done>)
    decreases |calls|
  {
    |calls| > 0 ==>
      var d := calls[0];
      && CallEnds(cfg, maxRetries, b, stats, d.now, d.reply, d.finished, d.result, d.posts, d.b, d.stats)
      && Calls(cfg, maxRetries, d.b, d.stats, calls[1..])
  }

  function BreakerAfter(b: Breaker, calls: seq<Done>): Breaker {
    if |calls| == 0 then b else calls[|calls| - 1].b
  }

  lemma {:induction false} FailuresCount(cfg: Settings, maxRetries: int, n: nat, stats: Stats, calls: seq<Done>)
    requires maxRetries >= 0 && n < cfg.failThreshold && n + |calls| <= cfg.failThreshold
    requires Calls(cfg, maxRetries, FRESH.(failures := n), stats, calls)
    requires forall d :: d in calls ==> AllPassing(d.reply, maxRetries + 1)
    ensures var b := BreakerAfter(FRESH.(failures := n), calls);
            && b.failures == n + |calls|
            && b.state == if n + |calls| < cfg.failThreshold then Closed else Open
    decreases |calls|
  {
    hide CallEnds, AllPassing;
    if |calls| > 0 {
      var d, b := calls[0], FRESH.(failures := n);
      assert d in calls;
      FailureRecordedIff(cfg, maxRetries, b, stats, d.now, d.reply, d.finished, d.result, d.posts, d.b, d.stats);
      if |calls| > 1 {
        FailuresCount(cfg, maxRetries, n + 1, d.stats, calls[1..]);
      }
    }
  }

  /** Calls whose answers are all transient, 429 or not, open a fresh breaker exactly when their number
      reaches the threshold. */
  lemma TransientCallsTrip(cfg: Settings, maxRetries: int, stats: Stats, calls: seq<Done>)
    requires maxRetries >= 0 && cfg.failThreshold >= 1 && |calls| <= cfg.failThreshold
    requires Calls(cfg, maxRetries, FRESH, stats, calls)
    requires forall d :: d in calls ==> AllPassing(d.reply, maxRetries + 1)
    ensures BreakerAfter(FRESH, calls).state == Open <==> |calls| == cfg.failThreshold
  {
    hide Calls, AllPassing;
    assert FRESH == FRESH.(failures := 0);
    FailuresCount(cfg, maxRetries, 0, stats, calls);
  }

  /** A call that is answered with nothing but r. */
  function HopelessCall(cfg: Settings, maxRetries: nat, b: Breaker, stats: Stats, r: Response): Done {
    var reply := (_: nat) => r;
    Done(0.0, reply, 0.0, TransientExhausted, maxRetries + 1, AfterFailure(cfg, b, 0.0),
         Stats(stats.calls + 1, stats.successes, stats.failures + 1,
               stats.rateLimited + Limited(reply, maxRetries + 1), stats.retries + maxRetries))
  }

  /** Such calls can follow one another on a breaker that is closed until the last of them. */
  lemma {:induction false} HopelessCalls(cfg: Settings, maxRetries: nat, k: nat, n: nat, stats: Stats, r: Response)
    returns (calls: seq<Done>)
    requires k + n <= cfg.failThreshold && Passing(r)
    ensures |calls| == n && Calls(cfg, maxRetries, FRESH.(failures := k), stats, calls)
    ensures forall d, i :: d in calls ==> d.reply(i) == r
    decreases n
  {
    hide Classify;
    calls := [];
    if n > 0 {
      var b := FRESH.(failures := k);
      var d := HopelessCall(cfg, maxRetries, b, stats, r);
      ClassifyMeans(r);
      var rest := [];
      if n > 1 {
        rest := HopelessCalls(cfg, maxRetries, k + 1, n - 1, d.stats, r);
      }
      calls := [d] + rest;
      assert calls[1..] == rest;
    }
  }

  /** For every threshold and every passing answer, a 429 or any code from 500 on included, that many calls
      answered with nothing else leave a fresh breaker open. */
  lemma HopelessCallsTrip(cfg: Settings, maxRetries: nat, stats: Stats, r: Response) returns (calls: seq<Done>)
    requires cfg.failThreshold >= 1 && (r.Status? ==> r.code == 429 || r.code >= 500)
    ensures |calls| == cfg.failThreshold && Calls(cfg, maxRetries, FRESH, stats, calls)
    ensures forall d, i :: d in calls ==> d.reply(i) == r
    ensures forall d :: d in calls ==> d.posts == maxRetries + 1 && d.result == TransientExhausted
    ensures BreakerAfter(FRESH, calls).state == Open
  {
    assert FRESH == FRESH.(failures := 0);
    calls := HopelessCalls(cfg, maxRetries, 0, cfg.failThreshold, stats, r);
    TransientCallsTrip(cfg, maxRetries, stats, calls);
    AllExhaust(cfg, maxRetries, 0, stats, calls);
  }

  /** Below the threshold every such call is admitted, makes all its POSTs and fails. */
  lemma {:induction false} AllExhaust(cfg: Settings, maxRetries: nat, n: nat, stats: Stats, calls: seq<Done>)
    requires n < cfg.failThreshold && n + |calls| <= cfg.failThreshold
    requires Calls(cfg, maxRetries, FRESH.(failures := n), stats, calls)
    requires forall d :: d in calls ==> AllPassing(d.reply, maxRetries + 1)
    ensures forall d :: d in calls ==> d.posts == maxRetries + 1 && d.result == TransientExhausted
    decreases |calls|
  {
    hide CallEnds, AllPassing;
    if |calls| > 0 {
      var d, b := calls[0], FRESH.(failures := n);
      assert d in calls;
      FailureRecordedIff(cfg, maxRetries, b, stats, d.now, d.reply, d.finished, d.result, d.posts, d.b, d.stats);
      StatusCodesDecide(cfg, maxRetries, b, stats, d.now, d.reply, d.finished, d.result, d.posts, d.b, d.stats);
      if |calls| > 1 {
        AllExhaust(cfg, maxRetries, n + 1, d.stats, calls[1..]);
      }
      assert calls == [d] + calls[1..];
    }
  }

  // ---- any number of calls at once -------------------------------------------------

  /** A client shared by concurrent calls. A call is posting its n-th POST or sleeping before it. */
  datatype Client = Client(
    b: Breaker, stats: Stats,
    posting: map<nat, nat>, sleeping: map<nat, nat>,
    probe: int,                     // the call that was let through half-open; -1 before any
    posts: nat, permanent: nat,     // POSTs sent and permanent errors raised so far
    next: nat)

  const IDLE := Client(FRESH, Stats(0, 0, 0, 0, 0), map[], map[], -1, 0, 0, 0)

  datatype Step = Ask(now: real, failed: real) | Reply(id: nat, response: Response, now: real) | Wake(id: nat)

  predicate Enabled(c: Client, step: Step) {
    match step
    case Ask(_, _) => true
    case Reply(id, _, _) => id in c.posting
    case Wake(id) => id in c.sleeping
  }

  function Take(cfg: Settings, maxRetries: int, c: Client, step: Step): Client
    requires Enabled(c, step)
  {
    match step
    case Ask(now, failed) =>
      if !Admits(cfg, c.b, now) then c
      else if maxRetries < 0 then
        // no attempt at all: the loop is skipped and the call is a failure at once
        c.(b := AfterFailure(cfg, AfterAllow(cfg, c.b, now), failed),
           stats := c.stats.(calls := c.stats.calls + 1, failures := c.stats.failures + 1))
      else c.(b := AfterAllow(cfg, c.b, now),
              stats := c.stats.(calls := c.stats.calls + 1),
              posting := c.posting[c.next := 1],
              probe := if c.b.state == Closed then c.probe else c.next,
              posts := c.posts + 1, next := c.next + 1)
    case Wake(id) =>
      c.(posting := c.posting[id := c.sleeping[id]], sleeping := c.sleeping - {id}, posts := c.posts + 1)
    case Reply(id, response, now) =>
      var rest := c.(posting := c.posting - {id});
      match Classify(response)
      case Succeed => rest.(b := AfterSuccess(c.b), stats := c.stats.(successes := c.stats.successes + 1))
      case Permanent(_) => rest.(b := AfterSuccess(c.b), permanent := c.permanent + 1)
      case Transient(limited) =>
        var stats := if limited then c.stats.(rateLimited := c.stats.rateLimited + 1) else c.stats;
        if c.posting[id] < maxRetries + 1
        then rest.(stats := stats.(retries := stats.retries + 1), sleeping := c.sleeping[id := c.posting[id] + 1])
        else rest.(b := AfterFailure(cfg, c.b, now), stats := stats.(failures := stats.failures + 1))
  }

  predicate Valid(cfg: Settings, maxRetries: int, c: Client, steps: seq<Step>)
    decreases |steps|
  {
    |steps| > 0 ==> Enabled(c, steps[0]) && Valid(cfg, maxRetries, Take(cfg, maxRetries, c, steps[0]), steps[1..])
  }

  function Exec(cfg: Settings, maxRetries: int, c: Client, steps: seq<Step>): Client
    requires Valid(cfg, maxRetries, c, steps)
    decreases |steps|
  {
    if |steps| == 0 then c else Exec(cfg, maxRetries, Take(cfg, maxRetries, c, steps[0]), steps[1..])
  }

  /** Every POST is a call's first or a retry, up to the calls sleeping before their next one. */
  predicate PostsAddUp(c: Client) {
    c.posts + |c.sleeping| == c.stats.calls + c.stats.retries
  }

  /** The books balance at every moment. */
  predicate Books(maxRetries: int, c: Client) {
    && (if maxRetries >= 0 then PostsAddUp(c)
        else c.posts == 0 && c.stats.retries == 0 && c.posting == map[] && c.sleeping == map[])
    && c.stats.calls == c.stats.successes + c.stats.failures + c.permanent + |c.posting| + |c.sleeping|
  }

  predicate InFlight(c: Client, id: int) {
    id in c.posting || id in c.sleeping
  }

  predicate Consistent(maxRetries: int, c: Client) {
    && (forall id :: id in c.posting ==> id < c.next && id !in c.sleeping && 1 <= c.posting[id] <= maxRetries + 1)
    && (forall id :: id in c.sleeping ==> id < c.next && 1 <= c.sleeping[id] <= maxRetries + 1)
    && (c.b.state == HalfOpen ==> c.b.probe && InFlight(c, c.probe))
  }

  lemma TakeBooks(cfg: Settings, maxRetries: int, c: Client, step: Step)
    requires Enabled(c, step) && Consistent(maxRetries, c) && Books(maxRetries, c)
    ensures Books(maxRetries, Take(cfg, maxRetries, c, step))
  {
    match step
    case Ask(now, failed) => AskBooks(cfg, maxRetries, c, now, failed);
    case Wake(id) =>
      CardPut(c.posting, id, c.sleeping[id]);
      CardCut(c.sleeping, id);
    case Reply(id, response, now) => ReplyBooks(cfg, maxRetries, c, id, response, now);
  }

  lemma AskBooks(cfg: Settings, maxRetries: int, c: Client, now: real, failed: real)
    requires Consistent(maxRetries, c) && Books(maxRetries, c)
    ensures Books(maxRetries, Take(cfg, maxRetries, c, Ask(now, failed)))
  {
    hide Admits, AfterAllow, AfterFailure;
    assert c.next !in c.posting;
    CardPut(c.posting, c.next, 1);
  }

  lemma ReplyBooks(cfg: Settings, maxRetries: int, c: Client, id: nat, response: Response, now: real)
    requires id in c.posting && Consistent(maxRetries, c) && Books(maxRetries, c)
    ensures Books(maxRetries, Take(cfg, maxRetries, c, Reply(id, response, now)))
  {
    hide Classify, AfterSuccess, AfterFailure;
    CardCut(c.posting, id);
    CardPut(c.sleeping, id, c.posting[id] + 1);
  }

  lemma CardPut(m: map<nat, nat>, k: nat, v: nat)
    requires k !in m
    ensures |m[k := v]| == |m| + 1
  {
  }

  lemma CardCut(m: map<nat, nat>, k: nat)
    requires k in m
    ensures |m - {k}| == |m| - 1
  {
  }

  lemma TakeConsistent(cfg: Settings, maxRetries: int, c: Client, step: Step)
    requires Enabled(c, step) && Consistent(maxRetries, c)
    ensures Consistent(maxRetries, Take(cfg, maxRetries, c, step))
  {
  }

  lemma {:induction false} ExecKeeps(cfg: Settings, maxRetries: int, c: Client, steps: seq<Step>)
    requires Valid(cfg, maxRetries, c, steps) && Consistent(maxRetries, c) && Books(maxRetries, c)
    ensures Consistent(maxRetries, Exec(cfg, maxRetries, c, steps))
    ensures Books(maxRetries, Exec(cfg, maxRetries, c, steps))
    decreases |steps|
  {
    hide Take, Enabled, Consistent, Books;
    if |steps| > 0 {
      TakeConsistent(cfg, maxRetries, c, steps[0]);
      TakeBooks(cfg, maxRetries, c, steps[0]);
      ExecKeeps(cfg, maxRetries, Take(cfg, maxRetries, c, steps[0]), steps[1..]);
    }
  }

  /** Retry accounting over every interleaving of any number of calls: calls = successes + failures +
      permanent errors, and POSTs = calls + retries, up to the calls still in flight; no call makes
      more than max_retries + 1 POSTs, and below zero none makes any. */
  lemma RetryAccounting(cfg: Settings, maxRetries: int, steps: seq<Step>)
    requires Valid(cfg, maxRetries, IDLE, steps)
    ensures var c := Exec(cfg, maxRetries, IDLE, steps);
            && c.stats.calls == c.stats.successes + c.stats.failures + c.permanent + |c.posting| + |c.sleeping|
            && (if maxRetries >= 0 then PostsAddUp(c) else c.posts == 0)
            && (forall id :: id in c.posting ==> 1 <= c.posting[id] <= maxRetries + 1)
            && (forall id :: id in c.sleeping ==> c.sleeping[id] <= maxRetries + 1)
  {
    ExecKeeps(cfg, maxRetries, IDLE, steps);
  }

  lemma OneCallWithoutAttempts(cfg: Settings, maxRetries: int)
    requires maxRetries < 0
    ensures var once := [Ask(0.0, 0.0)];
            Valid(cfg, maxRetries, IDLE, once) && !PostsAddUp(Exec(cfg, maxRetries, IDLE, once))
  {
    var once, c := [Ask(0.0, 0.0)], Take(cfg, maxRetries, IDLE, Ask(0.0, 0.0));
    assert once[0] == Ask(0.0, 0.0) && once[1..] == [] && Valid(cfg, maxRetries, c, []);
    assert Exec(cfg, maxRetries, IDLE, once) == c;
  }

  /** POSTs = calls + retries is a law of the client exactly when max_retries is not negative. */
  lemma PostsAddUpIff(cfg: Settings, maxRetries: int)
    ensures (forall steps :: Valid(cfg, maxRetries, IDLE, steps) ==> PostsAddUp(Exec(cfg, maxRetries, IDLE, steps)))
            <==> maxRetries >= 0
  {
    hide Valid, Exec, PostsAddUp;
    if maxRetries >= 0 {
      forall steps | Valid(cfg, maxRetries, IDLE, steps) ensures PostsAddUp(Exec(cfg, maxRetries, IDLE, steps)) {
        RetryAccounting(cfg, maxRetries, steps);
      }
    } else {
      OneCallWithoutAttempts(cfg, maxRetries);
    }
  }

  /** A probe is always released: while the breaker is half-open, the call that was let through is
      still in flight, so with no call in flight the breaker is open or closed. */
  lemma NeverStuckHalfOpen(cfg: Settings, maxRetries: int, steps: seq<Step>)
    requires Valid(cfg, maxRetries, IDLE, steps)
    ensures var c := Exec(cfg, maxRetries, IDLE, steps);
            c.b.state == HalfOpen ==> InFlight(c, c.probe)
  {
    ExecKeeps(cfg, maxRetries, IDLE, steps);
  }

  // ---- an uninterrupted call among the others ----------------------------------------------

  function Counted(n: int, c: bool): int {
    if c then n + 1 else n
  }

  /** The client once the call `id`, with its n-th POST out, has made its `posts`-th and last one. */
  function AfterCall(cfg: Settings, c: Client, id: nat, n: nat, reply: nat -> Response, finished: real,
                     posts: nat): Client
    requires 1 <= n <= posts
  {
    var end := Classify(reply(posts));
    c.(b := if end.Transient? then AfterFailure(cfg, c.b, finished) else AfterSuccess(c.b),
       stats := c.stats.(
         successes := Counted(c.stats.successes, end == Succeed),
         failures := Counted(c.stats.failures, end.Transient?),
         rateLimited := c.stats.rateLimited + Limited(reply, posts) - Limited(reply, n - 1),
         retries := c.stats.retries + posts - n),
       posting := c.posting - {id},
       posts := c.posts + posts - n,
       permanent := if end.Permanent? then c.permanent + 1 else c.permanent)
  }

  lemma LastAnswer(cfg: Settings, maxRetries: int, c: Client, id: nat,
                   reply: nat -> Response, finished: real, posts: nat)
    requires id in c.posting && c.posting[id] == posts && posts >= 1
    requires Classify(reply(posts)).Transient? ==> posts == maxRetries + 1
    ensures Take(cfg, maxRetries, c, Reply(id, reply(posts), finished))
            == AfterCall(cfg, c, id, posts, reply, finished, posts)
  {
    hide Classify, AfterSuccess, AfterFailure;
  }

  /** A transient answer and the wake-up for the next POST. */
  lemma OneRetry(cfg: Settings, maxRetries: int, c: Client, id: nat, n: nat, reply: nat -> Response, finished: real,
                 posts: nat)
    requires id in c.posting && id !in c.sleeping && c.posting[id] == n && 1 <= n < posts <= maxRetries + 1
    requires Classify(reply(n)).Transient?
    ensures var c1 := Take(cfg, maxRetries, c, Reply(id, reply(n), finished));
            && id in c1.sleeping
            && var c2 := Take(cfg, maxRetries, c1, Wake(id));
            && id in c2.posting && id !in c2.sleeping && c2.posting[id] == n + 1
            && AfterCall(cfg, c2, id, n + 1, reply, finished, posts) == AfterCall(cfg, c, id, n, reply, finished, posts)
  {
    hide Classify, AfterSuccess, AfterFailure;
    var c2 := Take(cfg, maxRetries, Take(cfg, maxRetries, c, Reply(id, reply(n), finished)), Wake(id));
    assert c2.posting - {id} == c.posting - {id} && c2.sleeping == c.sleeping;
  }

  lemma TwoMore(cfg: Settings, maxRetries: int, c: Client, a: Step, b: Step, rest: seq<Step>)
    requires Enabled(c, a) && Enabled(Take(cfg, maxRetries, c, a), b)
    requires Valid(cfg, maxRetries, Take(cfg, maxRetries, Take(cfg, maxRetries, c, a), b), rest)
    ensures Valid(cfg, maxRetries, c, [a, b] + rest)
    ensures Exec(cfg, maxRetries, c, [a, b] + rest)
            == Exec(cfg, maxRetries, Take(cfg, maxRetries, Take(cfg, maxRetries, c, a), b), rest)
  {
    hide Take, Enabled;
    var steps := [a, b] + rest;
    assert steps[1..][1..] == rest && steps[1..][0] == b;
    assert Valid(cfg, maxRetries, Take(cfg, maxRetries, c, a), steps[1..]);
  }

  /** From its n-th POST on, a call alternates answers and wake-ups until its last POST. */
  lemma {:induction false} RestOfCall(cfg: Settings, maxRetries: int, c: Client, id: nat, n: nat,
                                      reply: nat -> Response, finished: real, posts: nat) returns (steps: seq<Step>)
    requires id in c.posting && id !in c.sleeping && c.posting[id] == n && 1 <= n <= posts <= maxRetries + 1
    requires forall i :: n <= i < posts ==> Classify(reply(i)).Transient?
    requires Classify(reply(posts)).Transient? ==> posts == maxRetries + 1
    ensures Valid(cfg, maxRetries, c, steps)
    ensures Exec(cfg, maxRetries, c, steps) == AfterCall(cfg, c, id, n, reply, finished, posts)
    decreases posts - n
  {
    hide Classify, Take, AfterCall;
    var answer := Reply(id, reply(n), finished);
    var c1 := Take(cfg, maxRetries, c, answer);
    if n == posts {
      steps := [answer];
      LastAnswer(cfg, maxRetries, c, id, reply, finished, posts);
      assert steps[1..] == [] && Valid(cfg, maxRetries, c1, []);
    } else {
      OneRetry(cfg, maxRetries, c, id, n, reply, finished, posts);
      var rest := RestOfCall(cfg, maxRetries, Take(cfg, maxRetries, c1, Wake(id)), id, n + 1, reply, finished, posts);
      steps := [answer, Wake(id)] + rest;
      TwoMore(cfg, maxRetries, c, answer, Wake(id), rest);
    }
  }

  /** A call of post_json that nothing interrupts is a run of the shared client: one Ask, then its
      answers and wake-ups, leaving the breaker and the counters that PostJson leaves, and the other
      calls as they are. */
  lemma UninterruptedCall(cfg: Settings, maxRetries: int, c: Client, now: real, reply: nat -> Response, finished: real,
                          result: Result, posts: nat, b': Breaker, stats': Stats) returns (steps: seq<Step>)
    requires Consistent(maxRetries, c)
    requires CallEnds(cfg, maxRetries, c.b, c.stats, now, reply, finished, result, posts, b', stats')
    ensures Valid(cfg, maxRetries, c, steps)
    ensures var c' := Exec(cfg, maxRetries, c, steps);
            && c'.b == b' && c'.stats == stats' && c'.posts == c.posts + posts
            && c'.permanent == (if result.PermanentError? then c.permanent + 1 else c.permanent)
            && c'.posting == c.posting && c'.sleeping == c.sleeping
  {
    hide AfterSuccess, AfterFailure, AfterAllow;
    var ask := Ask(now, finished);
    var c1 := Take(cfg, maxRetries, c, ask);
    if Admits(cfg, c.b, now) && maxRetries >= 0 {
      assert c.next !in c.posting && c.next !in c.sleeping;
      var rest := RestOfCall(cfg, maxRetries, c1, c.next, 1, reply, finished, posts);
      steps := [ask] + rest;
      assert steps[1..] == rest;
      assert c1.posting - {c.next} == c.posting;
    } else {
      steps := [ask];
      assert steps[1..] == [] && Valid(cfg, maxRetries, c1, []);
    }
  }
}
