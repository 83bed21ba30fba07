/** What happens to message bodies: which step may put which message where, what the attempt counters
    and the transitions rows say after any run, and how often a handler asks a downstream. */
module PipelineMessages {
  import opened Lifecycle
  import opened Pipeline
  import opened PipelineInvariant
  import opened PipelineNoLoss
  import opened PipelineTheorems
  import opened PipelineLimits
  import opened PipelineFate
  import BrokerQueues

  // ---- bodies ---------------------------------------------------------------------------

  /** The message that _retry_or_dlq publishes for the envelope that its handler has in memory. */
  function Bounced(cfg: Config, inMemory: Envelope): Token {
    match BrokerQueues.BounceOf(cfg.maxAttempts, inMemory)
    case ToDlq(copy) => Dlq(copy, false)
    case ToRetry(copy) => Retry(copy)
  }

  /** What a step on token `was` may newly put into an outbox or a queue: an event or a command of the
      order at its first attempt, an exact copy, what the broker's capped bounce makes of the handler's
      envelope, or what its replay makes of a parked one. */
  predicate NewFrom(cfg: Config, step: Step, was: Token, t: Token) {
    match step
    case PlacedCommit(_) => t == AdvanceRow(was.env.order, Placed)
    case Commit(_) =>
      was.env.data.AdvanceCommand? && NextHappy(was.env.data.from).Some?
      && t == AdvanceRow(was.env.order, NextHappy(was.env.data.from).value)
    case RelayPublish(_) => t == if was.env.data.PlacedEvent? then PlacedReady(was.env, false) else Work(was.env)
    case PlacedFault(_) => was.PlacedBusy? && was.redelivered && t == Dlq(was.env, false)
    case BouncePublish(_) => was.Busy? && t == Bounced(cfg, was.env.(attempt := was.att))
    case ReplayPublish(_) =>
      t.Work? && BrokerQueues.Replayed([BrokerQueues.Good(was.env)]) == [BrokerQueues.Good(t.env)]
    case _ => false
  }

  predicate NewMessage(cfg: Config, s: Sys, step: Step, t: Token) {
    if step.Post? then t == Outbox(Envelope(step.order, 1, PlacedEvent(step.total)), false)
    else OnToken(step) && step.k in s.tokens && NewFrom(cfg, step, s.tokens[step.k], t)
  }

  predicate OnToken(step: Step) {
    !step.Post? && !step.RedisForget? && !CallStep(step)
  }

  /** Token j is where it was before with the same body, or it is new and may be. */
  predicate BodyKept(cfg: Config, s: Sys, s': Sys, step: Step, j: nat)
    requires j in s'.tokens
  {
    if j in s.tokens then s'.tokens[j].env == s.tokens[j].env else NewMessage(cfg, s, step, s'.tokens[j])
  }

  ghost predicate BodiesKept(cfg: Config, s: Sys, s': Sys, step: Step) {
    forall j :: j in s'.tokens ==> BodyKept(cfg, s, s', step, j)
  }

  lemma ReplayedOne(env: Envelope)
    ensures BrokerQueues.Replayed([BrokerQueues.Good(env)]) == [BrokerQueues.Good(env.(attempt := 1))]
  {
    BrokerQueues.ReplayedAppend([], BrokerQueues.Good(env));
    assert [] + [BrokerQueues.Good(env)] == [BrokerQueues.Good(env)];
    BrokerQueues.ReplayedNone();
  }

  lemma CopiedBodies(cfg: Config, s: Sys, step: Step)
    requires s.next !in s.tokens && Enabled(cfg, s, step) && CopyStep(step)
    ensures BodiesKept(cfg, s, Apply(cfg, s, step), step)
  {
    hide RunTx, PublishBounce, Recorded, EffectTx, PostOf, PostTx, SeedTx,
         AfterRead, AfterSnap, AfterAnswer, AfterFault;
    hide BrokerQueues.Replayed;
    ReplayedOne(s.tokens[step.k].env);
  }

  lemma MovedBodies(cfg: Config, s: Sys, step: Step)
    requires Enabled(cfg, s, step) && QueueStep(step) && !CopyStep(step)
    ensures BodiesKept(cfg, s, Apply(cfg, s, step), step)
  {
    hide RunTx, PublishBounce, Recorded, EffectTx, PostOf, PostTx, SeedTx,
         AfterRead, AfterSnap, AfterAnswer, AfterFault;
    hide PlacedException, Routed, NewMessage;
  }

  lemma BouncedBody(cfg: Config, s: Sys, k: nat)
    requires s.next !in s.tokens && Enabled(cfg, s, BouncePublish(k))
    ensures BodiesKept(cfg, s, Apply(cfg, s, BouncePublish(k)), BouncePublish(k))
  {
  }

  lemma HandledBody(cfg: Config, s: Sys, step: Step)
    requires WorkStep(step) && !step.BouncePublish? && Enabled(cfg, s, step)
    ensures BodiesKept(cfg, s, Apply(cfg, s, step), step)
  {
    hide Apply, Enabled, WorkStep, NewMessage;
    HandlerMoves(cfg, s, step);
  }

  lemma SeededBody(cfg: Config, s: Sys, k: nat)
    requires s.next !in s.tokens && Enabled(cfg, s, PlacedCommit(k))
    ensures BodiesKept(cfg, s, Apply(cfg, s, PlacedCommit(k)), PlacedCommit(k))
  {
    hide SeedTx;
  }

  lemma RunTxTokens(cfg: Config, s: Sys, k: nat, op: Op, cause: Cause, done: Pc)
    requires s.next !in s.tokens && BusyAt(s, k)
    ensures var s' := RunTx(cfg, s, k, op, cause, done);
            forall j :: j in s'.tokens ==>
              if j in s.tokens then s'.tokens[j].env == s.tokens[j].env
              else cause == Advanced && s'.tokens[j] == AdvanceRow(op.order, op.to)
  {
    hide TransitionTx, TxOf;
  }

  lemma TxBodies(cfg: Config, s: Sys, step: Step)
    requires step.Commit? || step.FailOrder? || step.Cancel?
    requires s.next !in s.tokens && Enabled(cfg, s, step)
    ensures BodiesKept(cfg, s, Apply(cfg, s, step), step)
  {
    hide RunTx;
    var env := s.tokens[step.k].env;
    match step
    case Commit(k) => RunTxTokens(cfg, s, k, HappyOp(env), Advanced, Marking);
    case FailOrder(k) => RunTxTokens(cfg, s, k, Op(env.order, env.data.from, Failed), Refused, Acking);
    case Cancel(k) => RunTxTokens(cfg, s, k, Op(env.order, env.data.from, Cancelled), CustomerCancelled, Acking);
  }

  lemma PostedBody(cfg: Config, s: Sys, step: Step)
    requires step.Post? && s.next !in s.tokens && Enabled(cfg, s, step)
    ensures BodiesKept(cfg, s, Apply(cfg, s, step), step)
  {
    hide PostOf, PostTx;
  }

  /** Message bodies are immutable, and every new message is one that its step may send: commands and
      events start at attempt 1, the relay and a second failure in on_placed copy exactly, a bounce and
      a replay are those of BrokerQueues, and no other step sends anything. */
  lemma MessagesLawful(cfg: Config, s: Sys, step: Step)
    requires Inv(cfg, s) && Enabled(cfg, s, step)
    ensures BodiesKept(cfg, s, Apply(cfg, s, step), step)
  {
    hide Inv, Apply, Enabled, NewMessage;
    FreshTokens(cfg, s);
    if step.Post? {
      PostedBody(cfg, s, step);
    } else if step.RedisForget? || CallStep(step) {
      TokensUntouched(cfg, s, step);
    } else if step.Commit? || step.FailOrder? || step.Cancel? {
      TxBodies(cfg, s, step);
    } else if step.PlacedCommit? {
      SeededBody(cfg, s, step.k);
    } else if step.BouncePublish? {
      BouncedBody(cfg, s, step.k);
    } else if WorkStep(step) {
      HandledBody(cfg, s, step);
    } else if CopyStep(step) {
      CopiedBodies(cfg, s, step);
    } else {
      MovedBodies(cfg, s, step);
    }
  }

  /** When the publish of a retry fails, its attempt is spent all the same: _fault bounces the envelope
      that schedule_retry has counted up already. */
  lemma FailedRetrySpendsAnAttempt(cfg: Config, s: Sys, k: nat)
    requires s.next !in s.tokens && BusyAt(s, k) && s.tokens[k].pc == Bounce && !s.tokens[k].faulted
    requires s.tokens[k].att < cfg.maxAttempts
    ensures var t, steps := s.tokens[k], [Fault(k), BouncePublish(k)];
            && ValidRun(cfg, s, steps)
            && var s' := Exec(cfg, s, steps);
               && s.next in s'.tokens
               && s'.tokens[s.next]
                  == if t.att + 1 == cfg.maxAttempts then Dlq(t.env.(attempt := cfg.maxAttempts), false)
                     else Retry(t.env.(attempt := t.att + 2))
  {
    hide ValidRun, Exec;
    RunTwo(cfg, s, Fault(k), BouncePublish(k));
  }

  // ---- the transitions rows ------------------------------------------------------------------

  /** A row tells why its order moved: cancelled by the customer in an early stage, refused by the
      payment service, or advanced along the happy path; and at which attempt. */
  predicate TellsWhy(cfg: Config, row: Trans) {
    && (match row.cause
        case CustomerCancelled => row.to == Cancelled && Rank(row.from) <= Rank(Preparing)
        case Refused => row.to == Failed && row.from == Placed
        case Advanced => NextHappy(row.from) == Some(row.to))
    && 1 <= row.attempt && (row.attempt == 1 || row.attempt <= cfg.maxAttempts)
  }

  ghost predicate RowsTellWhy(cfg: Config, db: Db) {
    forall o, i :: o in db.log && 0 <= i < |db.log[o]| ==> TellsWhy(cfg, db.log[o][i])
  }

  lemma NewRowTells(cfg: Config, db: Db, op: Op, cause: Cause, attempt: int)
    requires RowsTellWhy(cfg, db) && TellsWhy(cfg, Trans(op.from, op.to, cause, attempt))
    ensures RowsTellWhy(cfg, TransitionTx(db, op, cause, attempt))
  {
    hide TellsWhy;
  }

  /** What a handler that is about to claim writes. */
  lemma ClaimTells(cfg: Config, db: Db, calls: map<nat, Call>, t: Token)
    requires TokenInv(cfg, db, calls, t) && t.Busy?
    requires t.pc == Cleared || t.pc == Rejected || t.pc == Cancelling
    ensures t.env.data.AdvanceCommand?
    ensures t.pc == Cleared ==>
              NextHappy(t.env.data.from).Some?
              && TellsWhy(cfg, Trans(t.env.data.from, NextHappy(t.env.data.from).value, Advanced, t.att))
    ensures t.pc == Rejected ==> TellsWhy(cfg, Trans(t.env.data.from, Failed, Refused, t.att))
    ensures t.pc == Cancelling ==> TellsWhy(cfg, Trans(t.env.data.from, Cancelled, CustomerCancelled, t.att))
  {
    hide Justified, Visited;
  }

  lemma TxTells(cfg: Config, s: Sys, step: Step)
    requires step.Commit? || step.FailOrder? || step.Cancel?
    requires Inv(cfg, s) && Enabled(cfg, s, step) && RowsTellWhy(cfg, s.db)
    ensures RowsTellWhy(cfg, Apply(cfg, s, step).db)
  {
    hide DbInv, TokensInv, CallsInv, TokenInv, RowsTellWhy, TellsWhy, RunTx, Apply;
    var t := s.tokens[step.k];
    TokenOf(cfg, s, step.k);
    ClaimTells(cfg, s.db, s.calls, t);
    ApplyClaims(cfg, s, step);
    var cause := if step.Commit? then Advanced else if step.FailOrder? then Refused else CustomerCancelled;
    RunTxDb(cfg, s, step.k, Claim(s, step), cause, if step.Commit? then Marking else Acking);
    NewRowTells(cfg, s.db, Claim(s, step), cause, t.att);
  }

  lemma SeedTells(cfg: Config, db: Db, o: OrderId, total: int)
    requires RowsTellWhy(cfg, db)
    ensures RowsTellWhy(cfg, SeedTx(db, o, total))
  {
    hide TellsWhy;
  }

  lemma StepTells(cfg: Config, s: Sys, step: Step)
    requires Inv(cfg, s) && Enabled(cfg, s, step) && RowsTellWhy(cfg, s.db)
    ensures RowsTellWhy(cfg, Apply(cfg, s, step).db)
  {
    hide DbInv, TokensInv, CallsInv, Apply, Enabled, TellsWhy;
    if step.Commit? || step.FailOrder? || step.Cancel? {
      TxTells(cfg, s, step);
    } else if step.PlacedCommit? {
      PlacedCommitDb(cfg, s, step.k);
      TokenOf(cfg, s, step.k);
      SeedTells(cfg, s.db, s.tokens[step.k].env.order, s.tokens[step.k].env.data.total);
    } else {
      OrdersUntouched(cfg, s, step);
    }
  }

  lemma {:induction false} RunTells(cfg: Config, s: Sys, steps: seq<Step>)
    requires Inv(cfg, s) && RowsTellWhy(cfg, s.db) && ValidRun(cfg, s, steps)
    ensures RowsTellWhy(cfg, Exec(cfg, s, steps).db)
    decreases |steps|
  {
    hide Inv, Apply, Enabled, RowsTellWhy;
    if |steps| > 0 {
      StepInv(cfg, s, steps[0]);
      StepTells(cfg, s, steps[0]);
      RunTells(cfg, Apply(cfg, s, steps[0]), steps[1..]);
    }
  }

  /** After every run each transitions row tells why its order moved. */
  lemma LogTellsWhy(cfg: Config, steps: seq<Step>, o: OrderId, i: nat)
    requires ValidRun(cfg, INITIAL, steps)
    requires o in Exec(cfg, INITIAL, steps).db.log && i < |Exec(cfg, INITIAL, steps).db.log[o]|
    ensures TellsWhy(cfg, Exec(cfg, INITIAL, steps).db.log[o][i])
  {
    hide ValidRun, Exec, TellsWhy;
    InitInv(cfg);
    RunTells(cfg, INITIAL, steps);
  }

  // ---- what it takes to park an order.placed ---------------------------------------------------

  /** The event is on its way to on_placed or in its hands, and not parked by it. */
  predicate OnTheWay(t: Token) {
    t.env.data.PlacedEvent? ==> t.Outbox? || t.PlacedReady? || (t.PlacedBusy? && t.ppc != Parked)
  }

  /** Nor was it ever handed back. */
  predicate NeverBack(t: Token) {
    && OnTheWay(t)
    && (t.PlacedReady? ==> !t.redelivered) && (t.PlacedBusy? ==> !t.redelivered)
  }

  ghost predicate AllOnTheWay(s: Sys, o: OrderId, first: bool) {
    forall k :: k in s.tokens && s.tokens[k].env.order == o ==>
      OnTheWay(s.tokens[k]) && (first ==> NeverBack(s.tokens[k]))
  }

  /** on_placed fails on order o's event, or its connection is lost meanwhile. */
  predicate Setback(s: Sys, step: Step, o: OrderId) {
    && (step.PlacedFault? || step.Redeliver?)
    && step.k in s.tokens && s.tokens[step.k].PlacedBusy? && s.tokens[step.k].env.order == o
  }

  function Setbacks(cfg: Config, s: Sys, steps: seq<Step>, o: OrderId): nat
    requires ValidRun(cfg, s, steps)
    decreases |steps|
  {
    if |steps| == 0 then 0
    else (if Setback(s, steps[0], o) then 1 else 0) + Setbacks(cfg, Apply(cfg, s, steps[0]), steps[1..], o)
  }

  lemma CopiedOnTheWay(cfg: Config, s: Sys, step: Step, o: OrderId, first: bool)
    requires Enabled(cfg, s, step) && (CopyStep(step) || step.PlacedCommit?) && AllOnTheWay(s, o, first)
    ensures !Setback(s, step, o) ==> AllOnTheWay(Apply(cfg, s, step), o, first)
  {
    hide RunTx, PublishBounce, Recorded, EffectTx, PostOf, PostTx, SeedTx,
         AfterRead, AfterSnap, AfterAnswer, AfterFault;
  }

  lemma OneTokenMoves(cfg: Config, s: Sys, step: Step)
    requires Enabled(cfg, s, step) && QueueStep(step) && !CopyStep(step)
    ensures var tokens' := Apply(cfg, s, step).tokens;
            step.k in s.tokens
            && if step.k in tokens' then tokens' == s.tokens[step.k := tokens'[step.k]]
               else tokens' == s.tokens - {step.k}
  {
    hide RunTx, PublishBounce, Recorded, EffectTx, PostOf, PostTx, SeedTx,
         AfterRead, AfterSnap, AfterAnswer, AfterFault;
    hide PlacedException, Routed;
    hide Returned;
  }

  lemma MovedKind(cfg: Config, s: Sys, step: Step)
    requires Enabled(cfg, s, step) && QueueStep(step) && !CopyStep(step) && step.k in s.tokens
    requires s.tokens[step.k].PlacedReady? ==> s.tokens[step.k].env.data.PlacedEvent?
    requires !(step.Redeliver? && s.tokens[step.k].PlacedBusy?) && OnTheWay(s.tokens[step.k])
    ensures var t, tokens' := s.tokens[step.k], Apply(cfg, s, step).tokens;
            step.k in tokens' ==>
              var t' := tokens'[step.k];
              t'.env.order == t.env.order && OnTheWay(t') && (NeverBack(t) ==> NeverBack(t'))
  {
    hide RunTx, PublishBounce, Recorded, EffectTx, PostOf, PostTx, SeedTx,
         AfterRead, AfterSnap, AfterAnswer, AfterFault;
    hide PlacedException, Routed;
  }

  lemma MovedOnTheWay(cfg: Config, s: Sys, step: Step, o: OrderId, first: bool)
    requires Enabled(cfg, s, step) && QueueStep(step) && !CopyStep(step) && AllOnTheWay(s, o, first)
    requires step.k in s.tokens && (s.tokens[step.k].PlacedReady? ==> s.tokens[step.k].env.data.PlacedEvent?)
    ensures !Setback(s, step, o) ==> AllOnTheWay(Apply(cfg, s, step), o, first)
  {
    hide Apply, Enabled, OnTheWay, NeverBack;
    OneTokenMoves(cfg, s, step);
    if !Setback(s, step, o) {
      if s.tokens[step.k].env.order == o {
        MovedKind(cfg, s, step);
      } else {
        BodyStays(cfg, s, step);
      }
    }
  }

  lemma BodyStays(cfg: Config, s: Sys, step: Step)
    requires Enabled(cfg, s, step) && QueueStep(step) && !CopyStep(step) && step.k in s.tokens
    ensures var tokens' := Apply(cfg, s, step).tokens;
            step.k in tokens' ==> tokens'[step.k].env == s.tokens[step.k].env
  {
    hide BodyKept;
    MovedBodies(cfg, s, step);
    var s' := Apply(cfg, s, step);
    hide Apply, Enabled, QueueStep;
    assert step.k in s'.tokens ==> BodyKept(cfg, s, s', step, step.k);
  }

  lemma OneSetback(cfg: Config, s: Sys, step: Step, o: OrderId)
    requires Enabled(cfg, s, step) && Setback(s, step, o) && AllOnTheWay(s, o, true)
    ensures AllOnTheWay(Apply(cfg, s, step), o, false)
  {
    hide RunTx, PublishBounce, Recorded, EffectTx, PostOf, PostTx, SeedTx,
         AfterRead, AfterSnap, AfterAnswer, AfterFault;
  }

  lemma HandledOnTheWay(cfg: Config, s: Sys, step: Step, o: OrderId, first: bool)
    requires WorkStep(step) && Enabled(cfg, s, step) && AllOnTheWay(s, o, first)
    ensures AllOnTheWay(Apply(cfg, s, step), o, first)
  {
    hide Apply, Enabled, WorkStep;
    if step.BouncePublish? {
      BouncedOnTheWay(cfg, s, step.k, o, first);
    } else {
      HandlerWasBusy(cfg, s, step);
      HandlerMoves(cfg, s, step);
    }
  }

  lemma HandlerWasBusy(cfg: Config, s: Sys, step: Step)
    requires WorkStep(step) && Enabled(cfg, s, step)
    ensures BusyAt(s, step.k)
  {
  }

  lemma BouncedOnTheWay(cfg: Config, s: Sys, k: nat, o: OrderId, first: bool)
    requires Enabled(cfg, s, BouncePublish(k)) && AllOnTheWay(s, o, first)
    ensures AllOnTheWay(Apply(cfg, s, BouncePublish(k)), o, first)
  {
  }

  lemma RunTxOnTheWay(cfg: Config, s: Sys, k: nat, op: Op, cause: Cause, done: Pc, o: OrderId, first: bool)
    requires BusyAt(s, k) && AllOnTheWay(s, o, first)
    ensures AllOnTheWay(RunTx(cfg, s, k, op, cause, done), o, first)
  {
    hide TransitionTx, TxOf;
  }

  lemma TxOnTheWay(cfg: Config, s: Sys, step: Step, o: OrderId, first: bool)
    requires step.Commit? || step.FailOrder? || step.Cancel?
    requires Enabled(cfg, s, step) && AllOnTheWay(s, o, first)
    ensures AllOnTheWay(Apply(cfg, s, step), o, first)
  {
    hide RunTx, AllOnTheWay;
    var env := s.tokens[step.k].env;
    match step
    case Commit(k) => RunTxOnTheWay(cfg, s, k, HappyOp(env), Advanced, Marking, o, first);
    case FailOrder(k) =>
      RunTxOnTheWay(cfg, s, k, Op(env.order, env.data.from, Failed), Refused, Acking, o, first);
    case Cancel(k) =>
      RunTxOnTheWay(cfg, s, k, Op(env.order, env.data.from, Cancelled), CustomerCancelled, Acking, o, first);
  }

  lemma ReadyIsEvent(cfg: Config, s: Sys, step: Step)
    requires Inv(cfg, s) && Enabled(cfg, s, step) && (QueueStep(step) || step.PlacedCommit?)
    ensures step.k in s.tokens && (s.tokens[step.k].PlacedReady? ==> s.tokens[step.k].env.data.PlacedEvent?)
  {
    hide DbInv, CallsInv, PcOk, EnvOk;
  }

  lemma StaysOnTheWay(cfg: Config, s: Sys, step: Step, o: OrderId, first: bool)
    requires Inv(cfg, s) && Enabled(cfg, s, step) && AllOnTheWay(s, o, first) && !Setback(s, step, o)
    ensures AllOnTheWay(Apply(cfg, s, step), o, first)
  {
    hide Inv, Apply, Enabled, Setback;
    if step.Post? {
      PostShape(cfg, s, step);
    } else if step.RedisForget? || CallStep(step) {
      TokensUntouched(cfg, s, step);
    } else if step.Commit? || step.FailOrder? || step.Cancel? {
      TxOnTheWay(cfg, s, step, o, first);
    } else if WorkStep(step) {
      HandledOnTheWay(cfg, s, step, o, first);
    } else {
      ReadyIsEvent(cfg, s, step);
      if CopyStep(step) || step.PlacedCommit? {
        CopiedOnTheWay(cfg, s, step, o, first);
      } else {
        MovedOnTheWay(cfg, s, step, o, first);
      }
    }
  }

  lemma {:induction false} RunOnTheWay(cfg: Config, s: Sys, steps: seq<Step>, o: OrderId, first: bool)
    requires Inv(cfg, s) && ValidRun(cfg, s, steps) && AllOnTheWay(s, o, first)
    ensures Setbacks(cfg, s, steps, o) == 0 ==> AllOnTheWay(Exec(cfg, s, steps), o, first)
    ensures first && Setbacks(cfg, s, steps, o) <= 1 ==> AllOnTheWay(Exec(cfg, s, steps), o, false)
    decreases |steps|
  {
    hide Inv, Apply, Enabled, Setback;
    if |steps| > 0 {
      var s1 := Apply(cfg, s, steps[0]);
      StepInv(cfg, s, steps[0]);
      if !Setback(s, steps[0], o) {
        StaysOnTheWay(cfg, s, steps[0], o, first);
        RunOnTheWay(cfg, s1, steps[1..], o, first);
      } else if first {
        OneSetback(cfg, s, steps[0], o);
        RunOnTheWay(cfg, s1, steps[1..], o, false);
      }
    }
  }

  /** on_placed gives every event a second chance: an order.placed leaves the way to it, for the DLQ and the
      advance path beyond, only after two failures or lost connections on that order's event. */
  lemma ParkingTakesTwoSetbacks(cfg: Config, steps: seq<Step>, k: nat)
    requires ValidRun(cfg, INITIAL, steps) && k in Exec(cfg, INITIAL, steps).tokens
    ensures var t := Exec(cfg, INITIAL, steps).tokens[k];
            !OnTheWay(t) ==> Setbacks(cfg, INITIAL, steps, t.env.order) >= 2
  {
    hide ValidRun, Exec, Setbacks, OnTheWay;
    InitInv(cfg);
    RunOnTheWay(cfg, INITIAL, steps, Exec(cfg, INITIAL, steps).tokens[k].env.order, true);
  }

  // ---- requests per handling --------------------------------------------------------------------

  /** A handler has asked, or is asking, at most as often as the client allows. */
  predicate WithinAttempts(cfg: Config, t: Token) {
    t.Busy? && t.pc.Calling? ==>
      && t.pc.tries <= (if cfg.httpAttempts > 0 then cfg.httpAttempts else 0)
      && (t.pc.call.Some? ==> t.pc.tries < cfg.httpAttempts)
  }

  ghost predicate AllWithinAttempts(cfg: Config, s: Sys) {
    forall k :: k in s.tokens ==> WithinAttempts(cfg, s.tokens[k])
  }

  lemma CopiedWithin(cfg: Config, s: Sys, step: Step)
    requires Enabled(cfg, s, step) && (CopyStep(step) || step.PlacedCommit? || step.BouncePublish?)
    requires AllWithinAttempts(cfg, s)
    ensures AllWithinAttempts(cfg, Apply(cfg, s, step))
  {
    hide RunTx, Recorded, EffectTx, PostOf, PostTx, SeedTx, AfterRead, AfterSnap, AfterAnswer, AfterFault;
  }

  lemma MovedWithin(cfg: Config, s: Sys, step: Step)
    requires Enabled(cfg, s, step) && QueueStep(step) && !CopyStep(step)
    requires AllWithinAttempts(cfg, s)
    ensures AllWithinAttempts(cfg, Apply(cfg, s, step))
  {
    hide RunTx, PublishBounce, Recorded, EffectTx, PostOf, PostTx, SeedTx,
         AfterRead, AfterSnap, AfterAnswer, AfterFault;
    hide PlacedException, Routed;
  }

  lemma WorkWithin(cfg: Config, s: Sys, step: Step)
    requires Enabled(cfg, s, step) && WorkStep(step) && !step.BouncePublish? && step.k in s.tokens
    requires WithinAttempts(cfg, s.tokens[step.k])
    ensures step.k in Apply(cfg, s, step).tokens && WithinAttempts(cfg, Apply(cfg, s, step).tokens[step.k])
  {
    hide RunTx, PlacedException, PublishBounce, Recorded, EffectTx, PostOf, PostTx, SeedTx, Returned, Routed;
  }

  lemma RunTxWithin(cfg: Config, s: Sys, k: nat, op: Op, cause: Cause, done: Pc)
    requires BusyAt(s, k) && !done.Calling? && AllWithinAttempts(cfg, s)
    ensures AllWithinAttempts(cfg, RunTx(cfg, s, k, op, cause, done))
  {
    hide TransitionTx, TxOf;
  }

  lemma TxWithin(cfg: Config, s: Sys, step: Step)
    requires step.Commit? || step.FailOrder? || step.Cancel?
    requires Enabled(cfg, s, step) && AllWithinAttempts(cfg, s)
    ensures AllWithinAttempts(cfg, Apply(cfg, s, step))
  {
    hide RunTx, AllWithinAttempts;
    var env := s.tokens[step.k].env;
    match step
    case Commit(k) => RunTxWithin(cfg, s, k, HappyOp(env), Advanced, Marking);
    case FailOrder(k) => RunTxWithin(cfg, s, k, Op(env.order, env.data.from, Failed), Refused, Acking);
    case Cancel(k) => RunTxWithin(cfg, s, k, Op(env.order, env.data.from, Cancelled), CustomerCancelled, Acking);
  }

  lemma StepWithin(cfg: Config, s: Sys, step: Step)
    requires Enabled(cfg, s, step) && AllWithinAttempts(cfg, s)
    ensures AllWithinAttempts(cfg, Apply(cfg, s, step))
  {
    hide Apply, Enabled, WithinAttempts;
    if step.Post? {
      PostShape(cfg, s, step);
      PostedWithin(cfg, s, step);
    } else if step.RedisForget? || CallStep(step) {
      TokensUntouched(cfg, s, step);
    } else if step.Commit? || step.FailOrder? || step.Cancel? {
      TxWithin(cfg, s, step);
    } else if WorkStep(step) && !step.BouncePublish? {
      HandlerMoves(cfg, s, step);
      WorkWithin(cfg, s, step);
    } else if QueueStep(step) && !CopyStep(step) {
      MovedWithin(cfg, s, step);
    } else {
      CopiedWithin(cfg, s, step);
    }
  }

  lemma PostedWithin(cfg: Config, s: Sys, step: Step)
    requires step.Post? && Enabled(cfg, s, step) && AllWithinAttempts(cfg, s)
    ensures AllWithinAttempts(cfg, Apply(cfg, s, step))
  {
    hide PostOf, PostTx;
  }

  lemma {:induction false} RunWithin(cfg: Config, s: Sys, steps: seq<Step>)
    requires AllWithinAttempts(cfg, s) && ValidRun(cfg, s, steps)
    ensures AllWithinAttempts(cfg, Exec(cfg, s, steps))
    decreases |steps|
  {
    hide Apply, Enabled, AllWithinAttempts;
    if |steps| > 0 {
      StepWithin(cfg, s, steps[0]);
      RunWithin(cfg, Apply(cfg, s, steps[0]), steps[1..]);
    }
  }

  /** After every run, no handler has asked its downstream more than HTTP_MAX_RETRIES + 1 times for the
      command it holds. */
  lemma RequestsCapped(cfg: Config, steps: seq<Step>, k: nat)
    requires ValidRun(cfg, INITIAL, steps) && k in Exec(cfg, INITIAL, steps).tokens
    ensures WithinAttempts(cfg, Exec(cfg, INITIAL, steps).tokens[k])
  {
    hide ValidRun, Exec, WithinAttempts;
    RunWithin(cfg, INITIAL, steps);
  }

  /** A handler leaves its call for the retry path only because the breaker rejects it before its first request,
      because something raises, or because it has asked HTTP_MAX_RETRIES + 1 times in vain. */
  lemma GivesUpOnlyWhenSpent(cfg: Config, steps: seq<Step>, step: Step, k: nat)
    requires ValidRun(cfg, INITIAL, steps) && BusyAt(Exec(cfg, INITIAL, steps), k)
    requires Exec(cfg, INITIAL, steps).tokens[k].pc.Calling? && Enabled(cfg, Exec(cfg, INITIAL, steps), step)
    ensures var s := Exec(cfg, INITIAL, steps);
            var t, s' := s.tokens[k], Apply(cfg, s, step);
            BusyAt(s', k) && s'.tokens[k].pc == Bounce ==>
              || step == Fault(k)
              || (step == BreakerReject(k) && t.pc.tries == 0 && t.pc.call == None)
              || t.pc.tries == (if cfg.httpAttempts > 0 then cfg.httpAttempts else 0)
  {
    hide ValidRun, Exec, Inv;
    Reached(cfg, steps);
    FreshTokens(cfg, Exec(cfg, INITIAL, steps));
    RequestsCapped(cfg, steps, k);
    BounceFromCall(cfg, Exec(cfg, INITIAL, steps), step, k);
  }

  lemma BounceFromCall(cfg: Config, s: Sys, step: Step, k: nat)
    requires BusyAt(s, k) && s.tokens[k].pc.Calling? && Enabled(cfg, s, step) && s.next !in s.tokens
    ensures BusyAt(Apply(cfg, s, step), k) && Apply(cfg, s, step).tokens[k].pc == Bounce ==>
              || step == Fault(k)
              || (step == BreakerReject(k) && s.tokens[k].pc.tries == 0 && s.tokens[k].pc.call == None)
              || (step == GiveUp(k) && s.tokens[k].pc.tries >= cfg.httpAttempts)
  {
    hide Apply, Enabled;
    if OnToken(step) && step.k == k {
      BounceHere(cfg, s, step);
    } else {
      OthersCall(cfg, s, step, k);
    }
  }

  lemma BounceHere(cfg: Config, s: Sys, step: Step)
    requires OnToken(step) && BusyAt(s, step.k) && s.tokens[step.k].pc.Calling? && Enabled(cfg, s, step)
    ensures var k := step.k;
            BusyAt(Apply(cfg, s, step), k) && Apply(cfg, s, step).tokens[k].pc == Bounce ==>
              || step == Fault(k)
              || (step == BreakerReject(k) && s.tokens[k].pc.tries == 0 && s.tokens[k].pc.call == None)
              || (step == GiveUp(k) && s.tokens[k].pc.tries >= cfg.httpAttempts)
  {
    hide RunTx, PlacedException, PublishBounce, Recorded, EffectTx, PostOf, PostTx, SeedTx, Routed,
         AfterRead, AfterSnap;
  }

  /** A step on another token leaves this one as it is. */
  lemma OthersCall(cfg: Config, s: Sys, step: Step, k: nat)
    requires k in s.tokens && Enabled(cfg, s, step) && s.next !in s.tokens && !(OnToken(step) && step.k == k)
    ensures k in Apply(cfg, s, step).tokens && Apply(cfg, s, step).tokens[k] == s.tokens[k]
  {
    hide Apply, Enabled;
    if step.Post? {
      PostShape(cfg, s, step);
    } else if step.RedisForget? || CallStep(step) {
      TokensUntouched(cfg, s, step);
    } else if step.Commit? || step.FailOrder? || step.Cancel? {
      TxElsewhere(cfg, s, step, k);
    } else if WorkStep(step) && !step.BouncePublish? {
      HandlerMoves(cfg, s, step);
    } else if QueueStep(step) && !CopyStep(step) {
      OneTokenMoves(cfg, s, step);
    } else {
      CopiedElsewhere(cfg, s, step, k);
    }
  }

  lemma CopiedElsewhere(cfg: Config, s: Sys, step: Step, k: nat)
    requires CopyStep(step) || step.PlacedCommit? || step.BouncePublish?
    requires Enabled(cfg, s, step) && k in s.tokens && s.next !in s.tokens && step.k != k
    ensures k in Apply(cfg, s, step).tokens && Apply(cfg, s, step).tokens[k] == s.tokens[k]
  {
    hide RunTx, Recorded, EffectTx, PostOf, PostTx, SeedTx, AfterRead, AfterSnap, AfterAnswer, AfterFault, Routed;
  }

  lemma RunTxElsewhere(cfg: Config, s: Sys, j: nat, op: Op, cause: Cause, done: Pc, k: nat)
    requires BusyAt(s, j) && k in s.tokens && s.next !in s.tokens && j != k
    ensures var s' := RunTx(cfg, s, j, op, cause, done); k in s'.tokens && s'.tokens[k] == s.tokens[k]
  {
    hide TransitionTx, TxOf;
  }

  lemma TxElsewhere(cfg: Config, s: Sys, step: Step, k: nat)
    requires step.Commit? || step.FailOrder? || step.Cancel?
    requires Enabled(cfg, s, step) && k in s.tokens && s.next !in s.tokens && step.k != k
    ensures k in Apply(cfg, s, step).tokens && Apply(cfg, s, step).tokens[k] == s.tokens[k]
  {
    hide RunTx;
    var env := s.tokens[step.k].env;
    match step
    case Commit(j) => RunTxElsewhere(cfg, s, j, HappyOp(env), Advanced, Marking, k);
    case FailOrder(j) => RunTxElsewhere(cfg, s, j, Op(env.order, env.data.from, Failed), Refused, Acking, k);
    case Cancel(j) => RunTxElsewhere(cfg, s, j, Op(env.order, env.data.from, Cancelled), CustomerCancelled, Acking, k);
  }
}
