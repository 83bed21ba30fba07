/** Hands-off recovery. Once faults, refusals, timeouts, breaker rejects and crashes stop, the pipeline
    itself finishes every order that entered it, whatever the drain loop replays. A parked order.placed
    that is replayed goes round the advance path and parks again, for ever; the other steps of a run are
    bounded all the same, and where only such detours are left every seeded order is delivered,
    cancelled or failed. */
module PipelineCalm {
  import opened Lifecycle
  import opened Pipeline
  import opened PipelineInvariant
  import opened PipelineNoLoss
  import opened PipelineDrain
  import opened PipelineTheorems

  type Orders = map<OrderId, OrderRow>

  /** The steps of a calm pipeline. Any parked message may be replayed. */
  predicate Calm(step: Step) {
    || step.RelayPublish? || step.RelayStamp? || step.PlacedDeliver? || step.PlacedCommit? || step.PlacedAck?
    || step.Deliver? || step.Read? || step.RollCancel? || step.DedupSkip? || step.Proceed? || step.Send?
    || step.TakeAnswer? || step.GiveUp? || step.Commit? || step.FailOrder? || step.Cancel? || step.MarkDone?
    || step.BouncePublish? || step.Ack? || step.RetryExpire? || step.ReplayPublish? || step.ReplayAck?
    || step.CallLookup? || step.CallClaim?
  }

  /** A parked order.placed, or one that replay put on the advance path, where nothing can seed it. */
  predicate Circling(t: Token) {
    t.env.data.PlacedEvent? && (t.Work? || t.Busy? || t.Retry? || t.Dlq?)
  }

  predicate OnToken(step: Step) {
    !step.Post? && !step.RedisForget? && !CallStep(step)
  }

  /** A step on such a message. */
  predicate Detour(s: Sys, step: Step) {
    OnToken(step) && step.k in s.tokens && Circling(s.tokens[step.k])
  }

  // ---- weights ------------------------------------------------------------------------------

  /** What one lifecycle step of an order is worth: more than anything that can happen within it. */
  function Stage(cfg: Config): nat {
    40 + 4 * Tries(cfg)
  }

  function Level(cfg: Config, n: nat): nat {
    if n == 0 then 0 else Stage(cfg) + Level(cfg, n - 1)
  }

  lemma {:induction false} LevelUp(cfg: Config, m: nat, n: nat)
    requires m < n
    ensures Level(cfg, m) + Stage(cfg) <= Level(cfg, n)
  {
    if m < n - 1 {
      LevelUp(cfg, m, n - 1);
    }
  }

  /** The command is for the state its order is in. */
  predicate Current(orders: Orders, env: Envelope) {
    env.data.AdvanceCommand? && env.order in orders && orders[env.order].state == env.data.from
  }

  /** A request that was refused before the calm set in. */
  predicate TurnedAway(calls: map<nat, Call>, c: nat) {
    c in calls && calls[c].cpc.Answered? && (calls[c].cpc.answer.Busy429? || calls[c].cpc.answer.Unavailable?)
  }

  /** A handler with a current command and no bad answer goes straight to its transaction; any other may
      still go through the retry path once, and then finds out. */
  function LateW(cfg: Config, current: bool, calls: map<nat, Call>, pc: Pc): nat {
    match pc
    case Acking => 2
    case Marking => 3
    case Begin => 8
    case Bounce => 14
    case Snap(_) => if current then 7 else 20 + 2 * Tries(cfg)
    case Calling(_, tries, call) =>
      if current && tries == 0 && (call == None || !TurnedAway(calls, call.value)) then (if call == None then 6 else 5)
      else if call == None then 16 + 2 * TriesLeft(cfg, tries)
      else 15 + 2 * (if TriesLeft(cfg, tries) > 0 then TriesLeft(cfg, tries) else 1)
    case _ => if current then 4 else 15
  }

  function AdvanceW(cfg: Config, current: bool, calls: map<nat, Call>, t: Token): nat {
    match t
    case Outbox(_, published) => if published then 1 else 11
    case Work(_) => 9
    case Retry(_) => 10
    case Dlq(_, replayed) => if replayed then 1 else 11
    case Busy(_, _, _, pc) => LateW(cfg, current, calls, pc)
    case _ => 0
  }

  /** An order.placed. One that was parked before may be on the advance path, where it is only retried. */
  function PlacedW(cfg: Config, t: Token): nat {
    match t
    case Outbox(_, published) => if published then 1 else 7
    case PlacedReady(_, _) => 5
    case PlacedBusy(_, _, ppc) => if ppc == Start then 4 else 2
    case Work(env) => 10 * Left(cfg, env.attempt) + 8
    case Retry(env) => 10 * Left(cfg, env.attempt) + 9
    case Dlq(_, _) => 1
    case Busy(_, att, _, pc) =>
      (match pc
       case Acking => 2
       case Begin => 10 * Left(cfg, att) + 7
       case _ => 10 * Left(cfg, att) + 6)
  }

  predicate Seeding(t: Token) {
    (t.Outbox? && !t.published) || t.PlacedReady? || (t.PlacedBusy? && t.ppc == Start)
  }

  function CalmW(cfg: Config, orders: Orders, calls: map<nat, Call>, t: Token): nat {
    match t.env.data
    case AdvanceCommand(from) =>
      (if Current(orders, t.env) && Cargo(t).Some? then Level(cfg, 8 - Rank(from)) else 0)
      + AdvanceW(cfg, Current(orders, t.env), calls, t)
    case PlacedEvent(_) =>
      (if Seeding(t) && t.env.order !in orders then Level(cfg, 9) else 0) + PlacedW(cfg, t)
  }

  // ---- sums ------------------------------------------------------------------------------------

  /** All weights, or all but those of circling messages. */
  function WeightOf(cfg: Config, orders: Orders, calls: map<nat, Call>, t: Token, all: bool): nat {
    if !all && Circling(t) then 0 else CalmW(cfg, orders, calls, t)
  }

  ghost function CalmWeights(cfg: Config, s: Sys, all: bool): map<nat, nat> {
    map k | k in s.tokens :: WeightOf(cfg, s.db.orders, s.calls, s.tokens[k], all)
  }

  ghost function CalmWeight(cfg: Config, s: Sys, all: bool): nat {
    4 * Sum(CalmWeights(cfg, s, all)) + Sum(CallWeights(s.calls))
  }

  lemma {:induction false} SumLe(m: map<nat, nat>, m': map<nat, nat>)
    requires forall k :: k in m ==> k in m' && m[k] <= m'[k]
    ensures Sum(m) <= Sum(m')
    decreases |m|
  {
    if m == map[] {
    } else {
      var k :| k in m;
      SumRemove(m, k);
      SumRemove(m', k);
      SumLe(m - {k}, m' - {k});
    }
  }

  function Entry(m: map<nat, nat>, k: nat): nat {
    if k in m then m[k] else 0
  }

  lemma SumWithout(m: map<nat, nat>, k: nat)
    ensures Sum(m) == Entry(m, k) + Sum(m - {k})
  {
    if k in m {
      SumRemove(m, k);
    } else {
      assert m - {k} == m;
    }
  }

  /** One entry is replaced by at most two that weigh less together; the others do not grow. */
  lemma SumReplaced(m: map<nat, nat>, m': map<nat, nat>, k: nat, n: nat)
    requires k in m && n !in m && Entry(m', k) + Entry(m', n) < m[k]
    requires forall j :: j in m' && j != k && j != n ==> j in m && m'[j] <= m[j]
    ensures Sum(m') < Sum(m)
  {
    SumWithout(m, k);
    SumWithout(m', k);
    SumWithout(m' - {k}, n);
    SumLe(m' - {k} - {n}, m - {k});
  }

  // ---- what a step leaves as it was ------------------------------------------------------------

  /** Tokens other than k and the new one are untouched. */
  predicate OnlyTouches(s: Sys, s': Sys, k: nat) {
    && k in s.tokens && s.next !in s.tokens
    && forall j :: j in s'.tokens && j != k && j != s.next ==> j in s.tokens && s'.tokens[j] == s.tokens[j]
  }

  /** No request turns out refused that was not. */
  predicate NoRefusals(calls: map<nat, Call>, calls': map<nat, Call>) {
    forall c :: c in calls && TurnedAway(calls', c) ==> TurnedAway(calls, c)
  }

  /** The untouched tokens weigh no more than before. */
  ghost predicate OthersRest(cfg: Config, s: Sys, s': Sys, k: nat) {
    forall j :: j in s.tokens && j != k ==>
      CalmW(cfg, s'.db.orders, s'.calls, s.tokens[j]) <= CalmW(cfg, s.db.orders, s.calls, s.tokens[j])
  }

  function LeftW(cfg: Config, s: Sys, k: nat): nat {
    if k in s.tokens then CalmW(cfg, s.db.orders, s.calls, s.tokens[k]) else 0
  }

  /** The replaced token and the new one circle if and only if the old one did. */
  predicate KindKept(s: Sys, s': Sys, k: nat)
    requires k in s.tokens
  {
    && (k in s'.tokens ==> (Circling(s'.tokens[k]) <==> Circling(s.tokens[k])))
    && (s.next in s'.tokens ==> (Circling(s'.tokens[s.next]) <==> Circling(s.tokens[k])))
  }

  /** Everything together got lighter, and what does not circle did unless a circling message moved. */
  ghost predicate Lighter(cfg: Config, s: Sys, s': Sys, k: nat)
    requires k in s.tokens
  {
    && Sum(CalmWeights(cfg, s', true)) < Sum(CalmWeights(cfg, s, true))
    && Sum(CalmWeights(cfg, s', false)) <= Sum(CalmWeights(cfg, s, false))
    && (!Circling(s.tokens[k]) ==> Sum(CalmWeights(cfg, s', false)) < Sum(CalmWeights(cfg, s, false)))
  }

  lemma StepLighter(cfg: Config, s: Sys, s': Sys, k: nat)
    requires OnlyTouches(s, s', k) && OthersRest(cfg, s, s', k) && KindKept(s, s', k)
    requires LeftW(cfg, s', k) + LeftW(cfg, s', s.next) < LeftW(cfg, s, k)
    ensures Lighter(cfg, s, s', k)
  {
    hide CalmW, Circling;
    SumReplaced(CalmWeights(cfg, s, true), CalmWeights(cfg, s', true), k, s.next);
    if Circling(s.tokens[k]) {
      CirclingRest(cfg, s, s', k);
    } else {
      SumReplaced(CalmWeights(cfg, s, false), CalmWeights(cfg, s', false), k, s.next);
    }
  }

  /** What does not circle does not notice a detour. */
  lemma CirclingRest(cfg: Config, s: Sys, s': Sys, k: nat)
    requires OnlyTouches(s, s', k) && OthersRest(cfg, s, s', k) && KindKept(s, s', k) && Circling(s.tokens[k])
    ensures Sum(CalmWeights(cfg, s', false)) <= Sum(CalmWeights(cfg, s, false))
  {
    hide CalmW, Circling;
    var m, m' := CalmWeights(cfg, s, false), CalmWeights(cfg, s', false);
    SumWithout(m, k);
    SumWithout(m', k);
    SumWithout(m' - {k}, s.next);
    SumLe(m' - {k} - {s.next}, m - {k});
  }

  lemma SameOrdersRest(cfg: Config, s: Sys, s': Sys, k: nat)
    requires s'.db.orders == s.db.orders && NoRefusals(s.calls, s'.calls)
    requires forall j :: j in s.tokens && j != k ==> CallKnown(s.calls, s.tokens[j])
    ensures OthersRest(cfg, s, s', k)
  {
    hide Level;
  }

  /** A handler that waits, waits for a request that was sent. */
  predicate CallKnown(calls: map<nat, Call>, t: Token) {
    t.Busy? && t.pc.Calling? && t.pc.call.Some? ==> t.pc.call.value in calls
  }

  lemma CallsKnown(cfg: Config, s: Sys)
    requires Inv(cfg, s)
    ensures forall j :: j in s.tokens ==> CallKnown(s.calls, s.tokens[j])
  {
    hide DbInv, TokensInv, CallsInv, TokenInv, CallKnown;
    forall j | j in s.tokens ensures CallKnown(s.calls, s.tokens[j]) {
      TokenOf(cfg, s, j);
      WaitsForKnown(cfg, s.db, s.calls, s.tokens[j]);
    }
  }

  lemma WaitsForKnown(cfg: Config, db: Db, calls: map<nat, Call>, t: Token)
    requires TokenInv(cfg, db, calls, t)
    ensures CallKnown(calls, t)
  {
    hide EnvOk;
  }

  // ---- handlers and queues -----------------------------------------------------------------------

  predicate OneTokenStep(step: Step) {
    || step.PlacedDeliver? || step.Deliver? || step.Read? || step.RollCancel? || step.DedupSkip? || step.Proceed?
    || step.TakeAnswer? || step.GiveUp? || step.RetryExpire? || step.MarkDone?
  }

  /** What such a step leaves of token k. */
  function Moved(cfg: Config, s: Sys, step: Step): Token
    requires Enabled(cfg, s, step) && OneTokenStep(step)
  {
    var t := s.tokens[step.k];
    match step
    case PlacedDeliver(_) => PlacedBusy(t.env, t.redelivered, Start)
    case Deliver(_) => Busy(t.env, t.env.attempt, false, Begin)
    case Read(_) => AfterRead(s.db, t)
    case RollCancel(_) => t.(pc := Cancelling)
    case Proceed(_) => AfterSnap(t)
    case TakeAnswer(_) => AfterAnswer(t, s.calls[t.pc.call.value].cpc.answer)
    case GiveUp(_) => t.(pc := Bounce)
    case RetryExpire(_) => Work(t.env)
    case DedupSkip(_) => t.(pc := Acking)
    case MarkDone(_, _) => t.(pc := Acking)
    case _ => t
  }

  lemma MovedIs(cfg: Config, s: Sys, step: Step)
    requires Enabled(cfg, s, step) && OneTokenStep(step)
    ensures step.k in s.tokens && Apply(cfg, s, step).tokens == s.tokens[step.k := Moved(cfg, s, step)]
    ensures Apply(cfg, s, step).calls == s.calls
  {
    hide AfterRead, AfterSnap, AfterAnswer, AfterFault, RunTx, PublishBounce, PlacedException, Recorded, EffectTx,
         PostOf, PostTx, SeedTx, Returned, Routed;
  }

  lemma MovedKind(cfg: Config, s: Sys, step: Step)
    requires Enabled(cfg, s, step) && OneTokenStep(step)
    ensures Circling(Moved(cfg, s, step)) <==> Circling(s.tokens[step.k])
  {
  }

  lemma ReadLighter(cfg: Config, db: Db, calls: map<nat, Call>, t: Token)
    requires TokenInv(cfg, db, calls, t) && t.Busy? && t.pc == Begin
    ensures CalmW(cfg, db.orders, calls, AfterRead(db, t)) < CalmW(cfg, db.orders, calls, t)
  {
    hide Level, Visited, PcOk;
  }

  lemma SnapLighter(cfg: Config, db: Db, calls: map<nat, Call>, t: Token, pc: Pc)
    requires TokenInv(cfg, db, calls, t) && t.Busy? && t.pc.Snap?
    requires pc == Cancelling || pc == Acking || pc == AfterSnap(t).pc
    ensures CalmW(cfg, db.orders, calls, t.(pc := pc)) < CalmW(cfg, db.orders, calls, t)
  {
    hide Level, EnvOk;
  }

  lemma AnswerLighter(cfg: Config, db: Db, calls: map<nat, Call>, t: Token)
    requires TokenInv(cfg, db, calls, t) && t.Busy? && t.pc.Calling? && t.pc.call.Some?
    requires t.pc.call.value in calls && calls[t.pc.call.value].cpc.Answered?
    ensures CalmW(cfg, db.orders, calls, AfterAnswer(t, calls[t.pc.call.value].cpc.answer))
            < CalmW(cfg, db.orders, calls, t)
  {
    hide Level, EnvOk, Justified;
  }

  lemma GiveUpLighter(cfg: Config, db: Db, calls: map<nat, Call>, t: Token)
    requires TokenInv(cfg, db, calls, t) && t.Busy? && t.pc.Calling? && t.pc.call == None
    requires cfg.httpAttempts > 0 && t.pc.tries >= cfg.httpAttempts
    ensures CalmW(cfg, db.orders, calls, t.(pc := Bounce)) < CalmW(cfg, db.orders, calls, t)
  {
    hide Level, EnvOk;
  }

  lemma MovedLighter(cfg: Config, s: Sys, step: Step)
    requires cfg.httpAttempts > 0 && Inv(cfg, s) && Enabled(cfg, s, step) && OneTokenStep(step)
    ensures CalmW(cfg, s.db.orders, s.calls, Moved(cfg, s, step)) < CalmW(cfg, s.db.orders, s.calls, s.tokens[step.k])
  {
    hide DbInv, TokensInv, CallsInv, TokenInv, Level, AfterRead, AfterSnap, AfterAnswer, PcOk, EnvOk;
    var t := s.tokens[step.k];
    TokenOf(cfg, s, step.k);
    match step
    case Read(_) => ReadLighter(cfg, s.db, s.calls, t);
    case RollCancel(_) => SnapLighter(cfg, s.db, s.calls, t, Cancelling);
    case DedupSkip(_) => SnapLighter(cfg, s.db, s.calls, t, Acking);
    case Proceed(_) => ProceedLighter(cfg, s.db, s.calls, t);
    case TakeAnswer(_) => AnswerLighter(cfg, s.db, s.calls, t);
    case GiveUp(_) => GiveUpLighter(cfg, s.db, s.calls, t);
    case _ => ArrivedLighter(cfg, s, step);
  }

  lemma ProceedLighter(cfg: Config, db: Db, calls: map<nat, Call>, t: Token)
    requires TokenInv(cfg, db, calls, t) && t.Busy? && t.pc.Snap?
    ensures CalmW(cfg, db.orders, calls, AfterSnap(t)) < CalmW(cfg, db.orders, calls, t)
  {
    hide TokenInv, CalmW;
    SnapLighter(cfg, db, calls, t, AfterSnap(t).pc);
    assert AfterSnap(t) == t.(pc := AfterSnap(t).pc);
  }

  lemma ArrivedLighter(cfg: Config, s: Sys, step: Step)
    requires Inv(cfg, s) && Enabled(cfg, s, step)
    requires step.PlacedDeliver? || step.Deliver? || step.RetryExpire? || step.MarkDone?
    ensures CalmW(cfg, s.db.orders, s.calls, Moved(cfg, s, step)) < CalmW(cfg, s.db.orders, s.calls, s.tokens[step.k])
  {
    hide DbInv, TokensInv, CallsInv, Level, Visited, Justified, AfterRead, AfterSnap, AfterAnswer;
    TokenOf(cfg, s, step.k);
  }

  lemma OneTokenCalm(cfg: Config, s: Sys, step: Step)
    requires cfg.httpAttempts > 0 && Inv(cfg, s) && Enabled(cfg, s, step) && OneTokenStep(step)
    ensures step.k in s.tokens && Lighter(cfg, s, Apply(cfg, s, step), step.k)
    ensures Apply(cfg, s, step).calls == s.calls
  {
    hide Inv, Apply, Enabled, CalmW, CallKnown, Moved, Circling, Lighter;
    var s' := Apply(cfg, s, step);
    FreshNext(cfg, s);
    CallsKnown(cfg, s);
    MovedIs(cfg, s, step);
    MovedKind(cfg, s, step);
    MovedLighter(cfg, s, step);
    OrdersUntouched(cfg, s, step);
    SameOrdersRest(cfg, s, s', step.k);
    StepLighter(cfg, s, s', step.k);
  }

  lemma DroppedCalm(cfg: Config, s: Sys, step: Step)
    requires Inv(cfg, s) && Enabled(cfg, s, step)
    requires step.RelayStamp? || step.PlacedAck? || step.Ack? || step.ReplayAck?
    ensures step.k in s.tokens && Lighter(cfg, s, Apply(cfg, s, step), step.k)
    ensures Apply(cfg, s, step).calls == s.calls
  {
    hide Inv, CallKnown, CalmW, Circling, Lighter;
    var s' := Apply(cfg, s, step);
    FreshNext(cfg, s);
    CallsKnown(cfg, s);
    HasWeight(cfg, s, step.k);
    SameOrdersRest(cfg, s, s', step.k);
    StepLighter(cfg, s, s', step.k);
  }

  lemma HasWeight(cfg: Config, s: Sys, k: nat)
    requires Inv(cfg, s) && k in s.tokens
    ensures CalmW(cfg, s.db.orders, s.calls, s.tokens[k]) > 0
  {
    hide DbInv, TokensInv, CallsInv, Level, EnvOk, PcOk;
    TokenOf(cfg, s, k);
  }

  // ---- publishes and requests ------------------------------------------------------------------

  predicate PlacedReplay(s: Sys, step: Step) {
    step.ReplayPublish? && step.k in s.tokens && s.tokens[step.k].env.data.PlacedEvent?
  }

  predicate CalmCopy(s: Sys, step: Step) {
    step.RelayPublish? || step.BouncePublish? || (step.ReplayPublish? && !PlacedReplay(s, step))
  }

  /** The original and the copy. */
  function Copied(cfg: Config, t: Token, step: Step): (Token, Token)
    requires step.RelayPublish? ==> t.Outbox?
    requires step.ReplayPublish? ==> t.Dlq?
    requires step.BouncePublish? ==> t.Busy?
  {
    match step
    case RelayPublish(_) => (t.(published := true), Routed(t.env))
    case ReplayPublish(_) => (t.(replayed := true), Work(t.env.(attempt := 1)))
    case BouncePublish(_) =>
      if t.att >= cfg.maxAttempts then (t.(pc := Acking), Dlq(t.env.(attempt := t.att), false))
      else (t.(pc := Acking, att := t.att + 1), Retry(t.env.(attempt := t.att + 1)))
    case _ => (t, t)
  }

  lemma CopiedLighter(cfg: Config, orders: Orders, calls: map<nat, Call>, t: Token, step: Step)
    requires step.RelayPublish? ==> t.Outbox? && !t.published
    requires step.ReplayPublish? ==> t.Dlq? && !t.replayed && t.env.data.AdvanceCommand?
    requires step.BouncePublish? ==> t.Busy? && t.pc == Bounce
    requires step.RelayPublish? || step.ReplayPublish? || step.BouncePublish?
    ensures var (old', copy) := Copied(cfg, t, step);
            CalmW(cfg, orders, calls, old') + CalmW(cfg, orders, calls, copy) < CalmW(cfg, orders, calls, t)
  {
    hide Level;
  }

  lemma CopiedKind(cfg: Config, t: Token, step: Step)
    requires step.RelayPublish? ==> t.Outbox?
    requires step.ReplayPublish? ==> t.Dlq?
    requires step.BouncePublish? ==> t.Busy?
    ensures Circling(Copied(cfg, t, step).0) <==> Circling(t)
    ensures Circling(Copied(cfg, t, step).1) <==> Circling(t)
  {
  }

  lemma CopiedIs(cfg: Config, s: Sys, step: Step)
    requires CalmCopy(s, step) || PlacedReplay(s, step)
    requires Enabled(cfg, s, step) && s.next !in s.tokens
    ensures var s' := Apply(cfg, s, step); var t := s.tokens[step.k];
            && s'.calls == s.calls
            && s'.tokens == s.tokens[step.k := Copied(cfg, t, step).0][s.next := Copied(cfg, t, step).1]
  {
    hide AfterRead, AfterSnap, AfterAnswer, AfterFault, RunTx, PlacedException, Recorded, EffectTx, PostOf, PostTx,
         SeedTx, Returned, Routed;
  }

  lemma CopyCalm(cfg: Config, s: Sys, step: Step)
    requires Inv(cfg, s) && Enabled(cfg, s, step) && CalmCopy(s, step)
    ensures step.k in s.tokens && Lighter(cfg, s, Apply(cfg, s, step), step.k)
    ensures Apply(cfg, s, step).calls == s.calls
  {
    hide Inv, Apply, CalmW, CallKnown, Copied, Circling, Lighter;
    var s' := Apply(cfg, s, step);
    FreshNext(cfg, s);
    CallsKnown(cfg, s);
    CopiedIs(cfg, s, step);
    CopiedKind(cfg, s.tokens[step.k], step);
    CopiedLighter(cfg, s.db.orders, s.calls, s.tokens[step.k], step);
    OrdersUntouched(cfg, s, step);
    SameOrdersRest(cfg, s, s', step.k);
    StepLighter(cfg, s, s', step.k);
  }

  lemma SentLighter(cfg: Config, orders: Orders, calls: map<nat, Call>, t: Token, c: nat, call: Call)
    requires t.Busy? && t.pc.Calling? && t.pc.call == None && t.pc.tries < cfg.httpAttempts
    requires t.env.data.AdvanceCommand? && c !in calls && call.cpc == Arrived
    ensures CalmW(cfg, orders, calls[c := call], t.(pc := Calling(t.pc.total, t.pc.tries, Some(c))))
            < CalmW(cfg, orders, calls, t)
  {
    hide Level;
  }

  lemma SentIs(cfg: Config, s: Sys, k: nat)
    requires Enabled(cfg, s, Send(k)) && s.next !in s.tokens
    ensures var t, s' := s.tokens[k], Apply(cfg, s, Send(k));
            && s'.db == s.db
            && s'.tokens == s.tokens[k := t.(pc := Calling(t.pc.total, t.pc.tries, Some(s.next)))]
            && s'.calls == s.calls[s.next := Call(HappyOp(t.env), t.pc.total, Arrived)]
  {
  }

  lemma RequestAdded(calls: map<nat, Call>, c: nat, call: Call)
    requires c !in calls && call.cpc == Arrived
    ensures Sum(CallWeights(calls[c := call])) == Sum(CallWeights(calls)) + 2
    ensures NoRefusals(calls, calls[c := call])
  {
    SumPut(CallWeights(calls), c, 2);
    assert CallWeights(calls[c := call]) == CallWeights(calls)[c := 2];
  }

  lemma SendCalm(cfg: Config, s: Sys, k: nat)
    requires Inv(cfg, s) && Enabled(cfg, s, Send(k))
    ensures Lighter(cfg, s, Apply(cfg, s, Send(k)), k)
    ensures Sum(CallWeights(Apply(cfg, s, Send(k)).calls)) == Sum(CallWeights(s.calls)) + 2
  {
    hide Inv, CalmW, CallKnown, Apply, NoRefusals, CallW, Lighter;
    var s', t := Apply(cfg, s, Send(k)), s.tokens[k];
    var call := Call(HappyOp(t.env), t.pc.total, Arrived);
    FreshNext(cfg, s);
    SentIs(cfg, s, k);
    RequestAdded(s.calls, s.next, call);
    CallsKnown(cfg, s);
    SentLighter(cfg, s.db.orders, s.calls, t, s.next, call);
    SameOrdersRest(cfg, s, s', k);
    hide Enabled;
    StepLighter(cfg, s, s', k);
  }

  // ---- requests -----------------------------------------------------------------------------------

  /** One request got further, and not to a refusal. */
  predicate Served(s: Sys, s': Sys, c: nat) {
    && s'.tokens == s.tokens && s'.db.orders == s.db.orders
    && c in s.calls && c in s'.calls && s'.calls == s.calls[c := s'.calls[c]]
    && CallW(s'.calls[c]) < CallW(s.calls[c]) && !TurnedAway(s'.calls, c)
  }

  lemma ServedIs(cfg: Config, s: Sys, step: Step)
    requires Inv(cfg, s) && Enabled(cfg, s, step) && (step.CallLookup? || step.CallClaim?)
    ensures Served(s, Apply(cfg, s, step), step.c)
  {
    hide DbInv, TokensInv, TokenInv, CallsInv, EffectTx, Recorded, AnswerOk;
    var call := s.calls[step.c];
    CallOf(cfg, s, step.c);
    AskedStage(s.db, call.op);
    NeverTurnsAway(s.db, call.op);
    if step.CallClaim? {
      var db' := EffectTx(s.db, call, step.declined, step.intent);
      EffectRecorded(s.db, call, step.declined, step.intent);
      EffectOrders(s.db, call, step.declined, step.intent);
      NeverTurnsAway(db', call.op);
    }
  }

  lemma NeverTurnsAway(db: Db, op: Op)
    ensures Recorded(db, op).Some? ==> !Recorded(db, op).value.Busy429? && !Recorded(db, op).value.Unavailable?
  {
  }

  lemma ServedCalm(cfg: Config, s: Sys, step: Step)
    requires Inv(cfg, s) && Enabled(cfg, s, step) && (step.CallLookup? || step.CallClaim?)
    ensures forall all :: CalmWeight(cfg, Apply(cfg, s, step), all) < CalmWeight(cfg, s, all)
  {
    hide Inv, Apply, Enabled, CalmW, CallKnown, CallW, Circling;
    var s' := Apply(cfg, s, step);
    ServedIs(cfg, s, step);
    CallsKnown(cfg, s);
    FreshNext(cfg, s);
    SameOrdersRest(cfg, s, s', s.next);
    SumLe(CalmWeights(cfg, s', true), CalmWeights(cfg, s, true));
    SumLe(CalmWeights(cfg, s', false), CalmWeights(cfg, s, false));
    SumPut(CallWeights(s.calls), step.c, CallW(s'.calls[step.c]));
    assert CallWeights(s'.calls) == CallWeights(s.calls)[step.c := CallW(s'.calls[step.c])];
  }

  // ---- transactions ---------------------------------------------------------------------------

  /** Orders may have moved on or appeared, but no command has become current. */
  predicate Rests(orders: Orders, orders': Orders, t: Token) {
    && (Current(orders', t.env) ==> Current(orders, t.env))
    && (t.env.order in orders ==> t.env.order in orders')
  }

  lemma RestsLighter(cfg: Config, orders: Orders, orders': Orders, calls: map<nat, Call>, t: Token)
    requires Rests(orders, orders', t)
    ensures CalmW(cfg, orders', calls, t) <= CalmW(cfg, orders, calls, t)
  {
    hide Level;
    if t.env.data.AdvanceCommand? {
      LevelUp(cfg, 0, 8 - Rank(t.env.data.from));
    }
  }

  lemma AllRest(cfg: Config, s: Sys, s': Sys, k: nat)
    requires s'.calls == s.calls
    requires forall j :: j in s.tokens && j != k ==> Rests(s.db.orders, s'.db.orders, s.tokens[j])
    ensures OthersRest(cfg, s, s', k)
  {
    hide CalmW, Rests;
    forall j | j in s.tokens && j != k
      ensures CalmW(cfg, s'.db.orders, s'.calls, s.tokens[j]) <= CalmW(cfg, s.db.orders, s.calls, s.tokens[j])
    {
      RestsLighter(cfg, s.db.orders, s'.db.orders, s.calls, s.tokens[j]);
    }
  }

  /** An existing command's order is seeded. */
  lemma SeededRests(cfg: Config, db: Db, calls: map<nat, Call>, t: Token, o: OrderId)
    requires TokenInv(cfg, db, calls, t) && o !in db.orders
    ensures Rests(db.orders, db.orders[o := OrderRow(Placed, 0)], t)
    ensures forall total :: Rests(db.orders, db.orders[o := OrderRow(Placed, total)], t)
  {
    hide PcOk;
  }

  lemma SeededLighter(cfg: Config, orders: Orders, orders': Orders, calls: map<nat, Call>, t: Token)
    requires t.PlacedBusy? && t.ppc == Start && t.env.data.PlacedEvent? && t.env.order in orders'
    ensures t.env.order in orders ==>
              CalmW(cfg, orders', calls, t.(ppc := Committed)) < CalmW(cfg, orders, calls, t)
    ensures t.env.order !in orders && orders'[t.env.order].state == Placed ==>
              CalmW(cfg, orders', calls, t.(ppc := Committed))
              + CalmW(cfg, orders', calls, AdvanceRow(t.env.order, Placed)) < CalmW(cfg, orders, calls, t)
  {
    hide Level;
    LevelUp(cfg, 8, 9);
  }

  /** What on_placed's transaction leaves. */
  lemma SeededIs(cfg: Config, s: Sys, k: nat)
    requires Enabled(cfg, s, PlacedCommit(k)) && s.next !in s.tokens && s.tokens[k].env.data.PlacedEvent?
    ensures var t, s' := s.tokens[k], Apply(cfg, s, PlacedCommit(k));
            && s'.calls == s.calls
            && if t.env.order in s.db.orders
               then s'.db.orders == s.db.orders && s'.tokens == s.tokens[k := t.(ppc := Committed)]
               else s'.db.orders == s.db.orders[t.env.order := OrderRow(Placed, t.env.data.total)]
                    && s'.tokens == s.tokens[k := t.(ppc := Committed)][s.next := AdvanceRow(t.env.order, Placed)]
  {
  }

  lemma SeedCalm(cfg: Config, s: Sys, k: nat)
    requires Inv(cfg, s) && Enabled(cfg, s, PlacedCommit(k))
    ensures Lighter(cfg, s, Apply(cfg, s, PlacedCommit(k)), k)
    ensures Apply(cfg, s, PlacedCommit(k)).calls == s.calls
  {
    hide DbInv, TokensInv, CallsInv, EnvOk, PcOk, CalmW, Apply, Rests, Lighter;
    var s', t := Apply(cfg, s, PlacedCommit(k)), s.tokens[k];
    FreshNext(cfg, s);
    TokenOf(cfg, s, k);
    SeededIs(cfg, s, k);
    forall j | j in s.tokens && j != k ensures Rests(s.db.orders, s'.db.orders, s.tokens[j]) {
      if t.env.order in s.db.orders {
        SameRests(s.db.orders, s.tokens[j]);
      } else {
        TokenOf(cfg, s, j);
        SeededRests(cfg, s.db, s.calls, s.tokens[j], t.env.order);
      }
    }
    hide Inv, TokenInv;
    AllRest(cfg, s, s', k);
    SeededLighter(cfg, s.db.orders, s'.db.orders, s.calls, t);
    StepLighter(cfg, s, s', k);
  }

  lemma SameRests(orders: Orders, t: Token)
    ensures Rests(orders, orders, t)
  {
  }

  /** A command for the state that its order is about to enter does not exist yet. */
  lemma MovedRests(cfg: Config, db: Db, calls: map<nat, Call>, t: Token, op: Op)
    requires DbInv(db) && TokenInv(cfg, db, calls, t)
    requires op.order in db.orders && db.orders[op.order].state == op.from && Rank(op.from) < Rank(op.to)
    ensures Rests(db.orders, db.orders[op.order := db.orders[op.order].(state := op.to)], t)
  {
    hide DbInv, PcOk, Visited, OrderInv;
    if t.env.data.AdvanceCommand? && t.env.order == op.order {
      OrderOf(db, op.order);
      VisitedIsBehind(db, op.order, t.env.data.from);
    }
  }

  /** A handler whose transaction was lost: its command was not current. */
  lemma LostLighter(cfg: Config, orders: Orders, calls: map<nat, Call>, t: Token)
    requires t.Busy? && t.env.data.AdvanceCommand? && !Current(orders, t.env)
    requires t.pc == Cleared || t.pc == Rejected || t.pc == Cancelling
    ensures CalmW(cfg, orders, calls, t.(pc := Acking)) < CalmW(cfg, orders, calls, t)
    ensures CalmW(cfg, orders, calls, AfterFault(cfg, t)) < CalmW(cfg, orders, calls, t)
  {
  }

  lemma AppliedLighter(cfg: Config, orders: Orders, orders': Orders, calls: map<nat, Call>, t: Token, op: Op, done: Pc)
    requires t.Busy? && t.env.data.AdvanceCommand? && Current(orders, t.env)
    requires t.pc == Cleared || t.pc == Rejected || t.pc == Cancelling
    requires op.order == t.env.order && op.from == t.env.data.from && Rank(op.from) < Rank(op.to)
    requires done == Marking || done == Acking
    ensures CalmW(cfg, orders', calls, t.(pc := done)) < CalmW(cfg, orders, calls, t)
    ensures CalmW(cfg, orders', calls, t.(pc := done)) + CalmW(cfg, orders', calls, AdvanceRow(op.order, op.to))
            < CalmW(cfg, orders, calls, t)
  {
    hide Level;
    LevelUp(cfg, 8 - Rank(op.to), 8 - Rank(op.from));
  }

  /** What the transactions leave: of a current command always an applied step. */
  lemma TxIs(cfg: Config, s: Sys, k: nat, op: Op, cause: Cause, done: Pc)
    requires BusyAt(s, k) && s.next !in s.tokens
    ensures var t, s' := s.tokens[k], RunTx(cfg, s, k, op, cause, done);
            && s'.calls == s.calls
            && (TxOf(s.db, op) == Dedup ==> s'.db == s.db && s'.tokens == s.tokens[k := t.(pc := Acking)])
            && (TxOf(s.db, op) == Raced ==> s'.db == s.db && s'.tokens == s.tokens[k := AfterFault(cfg, t)])
            && (TxOf(s.db, op) == Applied ==>
                  && op.order in s.db.orders
                  && s'.db.orders == s.db.orders[op.order := s.db.orders[op.order].(state := op.to)]
                  && (s'.tokens == s.tokens[k := t.(pc := done)]
                      || s'.tokens == s.tokens[k := t.(pc := done)][s.next := AdvanceRow(op.order, op.to)]))
  {
  }

  lemma FaultKind(cfg: Config, t: Token)
    requires t.Busy?
    ensures AfterFault(cfg, t).env == t.env
  {
  }

  lemma RunTxCalm(cfg: Config, s: Sys, k: nat, op: Op, cause: Cause, done: Pc)
    requires Inv(cfg, s) && BusyAt(s, k) && s.tokens[k].env.data.AdvanceCommand?
    requires s.tokens[k].pc == Cleared || s.tokens[k].pc == Rejected || s.tokens[k].pc == Cancelling
    requires op.order == s.tokens[k].env.order && op.from == s.tokens[k].env.data.from && Rank(op.from) < Rank(op.to)
    requires done == Marking || done == Acking
    ensures Lighter(cfg, s, RunTx(cfg, s, k, op, cause, done), k)
    ensures RunTx(cfg, s, k, op, cause, done).calls == s.calls
  {
    hide DbInv, TokensInv, CallsInv, TokenInv, CalmW, RunTx, Rests, AfterFault, Lighter;
    var s', t := RunTx(cfg, s, k, op, cause, done), s.tokens[k];
    FreshNext(cfg, s);
    TxIs(cfg, s, k, op, cause, done);
    if TxOf(s.db, op) == Applied {
      forall j | j in s.tokens && j != k ensures Rests(s.db.orders, s'.db.orders, s.tokens[j]) {
        TokenOf(cfg, s, j);
        MovedRests(cfg, s.db, s.calls, s.tokens[j], op);
      }
      AppliedLighter(cfg, s.db.orders, s'.db.orders, s.calls, t, op, done);
    } else {
      if op in s.db.ops { CurrentNotLeft(s.db, op); }
      forall j | j in s.tokens && j != k ensures Rests(s.db.orders, s'.db.orders, s.tokens[j]) {
        SameRests(s.db.orders, s.tokens[j]);
      }
      LostLighter(cfg, s.db.orders, s.calls, t);
      FaultKind(cfg, t);
    }
    hide Inv;
    AllRest(cfg, s, s', k);
    StepLighter(cfg, s, s', k);
  }

  lemma TxCalm(cfg: Config, s: Sys, step: Step)
    requires step.Commit? || step.FailOrder? || step.Cancel?
    requires Inv(cfg, s) && Enabled(cfg, s, step)
    ensures step.k in s.tokens && Lighter(cfg, s, Apply(cfg, s, step), step.k)
    ensures Apply(cfg, s, step).calls == s.calls
  {
    hide DbInv, TokensInv, CallsInv, TokenInv, Justified, StepOk, RunTx, Apply;
    var t := s.tokens[step.k];
    TokenOf(cfg, s, step.k);
    ReadyToClaim(cfg, s.db, s.calls, t);
    hide Inv;
    ApplyClaims(cfg, s, step);
    var op := Claim(s, step);
    StepChanges(op.from, op.to);
    var cause := if step.Commit? then Advanced else if step.FailOrder? then Refused else CustomerCancelled;
    RunTxCalm(cfg, s, step.k, op, cause, if step.Commit? then Marking else Acking);
  }

  // ---- replays of a parked order.placed -------------------------------------------------------

  /** What one replay of an order.placed adds: its way round, until it is parked again. */
  function Cost(cfg: Config): nat {
    4 * (10 * Left(cfg, 1) + 8)
  }

  lemma ReplayedWeights(cfg: Config, orders: Orders, calls: map<nat, Call>, t: Token)
    requires t.Dlq? && t.env.data.PlacedEvent?
    ensures var old', copy := t.(replayed := true), Work(t.env.(attempt := 1));
            && Circling(t) && Circling(old') && Circling(copy)
            && CalmW(cfg, orders, calls, old') == CalmW(cfg, orders, calls, t)
            && CalmW(cfg, orders, calls, copy) == 10 * Left(cfg, 1) + 8
  {
  }

  lemma AddedWeight(cfg: Config, s: Sys, s': Sys, k: nat, t: Token, copy: Token, all: bool)
    requires k in s.tokens && s.next !in s.tokens && s'.calls == s.calls && s'.db.orders == s.db.orders
    requires s'.tokens == s.tokens[k := t][s.next := copy]
    requires WeightOf(cfg, s.db.orders, s.calls, t, all) == WeightOf(cfg, s.db.orders, s.calls, s.tokens[k], all)
    ensures CalmWeight(cfg, s', all) == CalmWeight(cfg, s, all) + 4 * WeightOf(cfg, s.db.orders, s.calls, copy, all)
  {
    hide WeightOf;
    var w := WeightOf(cfg, s.db.orders, s.calls, copy, all);
    SumPut(CalmWeights(cfg, s, all), s.next, w);
    assert CalmWeights(cfg, s', all) == CalmWeights(cfg, s, all)[s.next := w];
  }

  lemma PlacedReplayCosts(cfg: Config, s: Sys, step: Step)
    requires Inv(cfg, s) && Enabled(cfg, s, step) && PlacedReplay(s, step)
    ensures CalmWeight(cfg, Apply(cfg, s, step), true) <= CalmWeight(cfg, s, true) + Cost(cfg)
    ensures CalmWeight(cfg, Apply(cfg, s, step), false) <= CalmWeight(cfg, s, false)
  {
    hide Inv, Apply, CalmW, Circling, CalmWeight;
    var s', t := Apply(cfg, s, step), s.tokens[step.k];
    var copy := Work(t.env.(attempt := 1));
    FreshNext(cfg, s);
    CopiedIs(cfg, s, step);
    OrdersUntouched(cfg, s, step);
    ReplayedWeights(cfg, s.db.orders, s.calls, t);
    AddedWeight(cfg, s, s', step.k, t.(replayed := true), copy, true);
    AddedWeight(cfg, s, s', step.k, t.(replayed := true), copy, false);
  }

  // ---- calm runs --------------------------------------------------------------------------------

  lemma WeighLighter(cfg: Config, s: Sys, s': Sys, k: nat)
    requires k in s.tokens && Lighter(cfg, s, s', k)
    requires s'.calls == s.calls
             || (!Circling(s.tokens[k]) && Sum(CallWeights(s'.calls)) == Sum(CallWeights(s.calls)) + 2)
    ensures CalmWeight(cfg, s', true) < CalmWeight(cfg, s, true)
    ensures CalmWeight(cfg, s', false) <= CalmWeight(cfg, s, false)
    ensures !Circling(s.tokens[k]) ==> CalmWeight(cfg, s', false) < CalmWeight(cfg, s, false)
  {
    hide CalmWeights, Circling;
  }

  /** Every calm step but the replay of an order.placed brings the end nearer, retries and replays of
      commands included, and every step that is no detour does so whatever circles. */
  lemma StepCalms(cfg: Config, s: Sys, step: Step)
    requires cfg.httpAttempts > 0 && Inv(cfg, s) && Enabled(cfg, s, step) && Calm(step)
    ensures !PlacedReplay(s, step) ==> CalmWeight(cfg, Apply(cfg, s, step), true) < CalmWeight(cfg, s, true)
    ensures PlacedReplay(s, step) ==>
              CalmWeight(cfg, Apply(cfg, s, step), true) <= CalmWeight(cfg, s, true) + Cost(cfg)
    ensures CalmWeight(cfg, Apply(cfg, s, step), false) <= CalmWeight(cfg, s, false)
    ensures !Detour(s, step) ==> CalmWeight(cfg, Apply(cfg, s, step), false) < CalmWeight(cfg, s, false)
  {
    hide Inv, Apply, Enabled, CalmWeight, Lighter, Circling;
    var s' := Apply(cfg, s, step);
    if PlacedReplay(s, step) {
      PlacedReplayCosts(cfg, s, step);
      PlacedReplayCircles(cfg, s, step);
    } else if step.CallLookup? || step.CallClaim? {
      ServedCalm(cfg, s, step);
    } else {
      TokenStepCalms(cfg, s, step);
      WeighLighter(cfg, s, s', step.k);
    }
  }

  lemma PlacedReplayCircles(cfg: Config, s: Sys, step: Step)
    requires Enabled(cfg, s, step) && PlacedReplay(s, step)
    ensures Detour(s, step)
  {
  }

  lemma SenderDoesNotCircle(cfg: Config, s: Sys, k: nat)
    requires Inv(cfg, s) && Enabled(cfg, s, Send(k))
    ensures !Circling(s.tokens[k])
  {
    hide DbInv, TokensInv, CallsInv, EnvOk;
    TokenOf(cfg, s, k);
  }

  lemma HasToken(cfg: Config, s: Sys, step: Step)
    requires Enabled(cfg, s, step) && OnToken(step)
    ensures step.k in s.tokens
  {
  }

  lemma TokenStepCalms(cfg: Config, s: Sys, step: Step)
    requires cfg.httpAttempts > 0 && Inv(cfg, s) && Enabled(cfg, s, step) && Calm(step)
    requires !PlacedReplay(s, step) && !step.CallLookup? && !step.CallClaim?
    ensures step.k in s.tokens && Lighter(cfg, s, Apply(cfg, s, step), step.k)
    ensures var s' := Apply(cfg, s, step);
            s'.calls == s.calls
            || (!Circling(s.tokens[step.k]) && Sum(CallWeights(s'.calls)) == Sum(CallWeights(s.calls)) + 2)
  {
    hide Inv, Apply, Enabled, Lighter, Circling;
    HasToken(cfg, s, step);
    if OneTokenStep(step) {
      OneTokenCalm(cfg, s, step);
    } else if step.RelayStamp? || step.PlacedAck? || step.Ack? || step.ReplayAck? {
      DroppedCalm(cfg, s, step);
    } else if CalmCopy(s, step) {
      CopyCalm(cfg, s, step);
    } else if step.PlacedCommit? {
      SeedCalm(cfg, s, step.k);
    } else if step.Send? {
      SendCalm(cfg, s, step.k);
      SenderDoesNotCircle(cfg, s, step.k);
    } else {
      TxCalm(cfg, s, step);
    }
  }

  predicate CalmRun(steps: seq<Step>) {
    forall i :: 0 <= i < |steps| ==> Calm(steps[i])
  }

  /** How often a parked order.placed is replayed. */
  function PlacedReplays(cfg: Config, s: Sys, steps: seq<Step>): nat
    requires ValidRun(cfg, s, steps)
    decreases |steps|
  {
    if |steps| == 0 then 0
    else (if PlacedReplay(s, steps[0]) then 1 else 0) + PlacedReplays(cfg, Apply(cfg, s, steps[0]), steps[1..])
  }

  /** The steps that are not detours. */
  function Proper(cfg: Config, s: Sys, steps: seq<Step>): nat
    requires ValidRun(cfg, s, steps)
    decreases |steps|
  {
    if |steps| == 0 then 0
    else (if Detour(s, steps[0]) then 0 else 1) + Proper(cfg, Apply(cfg, s, steps[0]), steps[1..])
  }

  lemma OneMoreReplay(cfg: Config, n: nat)
    ensures (Cost(cfg) + 1) * (n + 1) == (Cost(cfg) + 1) * n + Cost(cfg) + 1
  {
  }

  /** A calm run is no longer than the weight of the state it starts in and the cost of its replays of
      order.placed; and however many of those there are, its other steps are bounded by a weight that
      does not know of them. */
  lemma {:induction false} CalmRunsEnd(cfg: Config, s: Sys, steps: seq<Step>)
    requires cfg.httpAttempts > 0 && Inv(cfg, s) && ValidRun(cfg, s, steps) && CalmRun(steps)
    ensures |steps| + CalmWeight(cfg, Exec(cfg, s, steps), true)
            <= CalmWeight(cfg, s, true) + (Cost(cfg) + 1) * PlacedReplays(cfg, s, steps)
    ensures Proper(cfg, s, steps) + CalmWeight(cfg, Exec(cfg, s, steps), false) <= CalmWeight(cfg, s, false)
    decreases |steps|
  {
    hide Inv, Apply, Enabled, Calm, CalmWeight, Cost, PlacedReplay, Detour;
    if |steps| > 0 {
      var s1, rest := Apply(cfg, s, steps[0]), steps[1..];
      StepInv(cfg, s, steps[0]);
      StepCalms(cfg, s, steps[0]);
      CalmRunsEnd(cfg, s1, rest);
      OneMoreReplay(cfg, PlacedReplays(cfg, s1, rest));
    }
  }

  // ---- and every seeded order is finished ----------------------------------------------------

  /** Only detours are left to take. */
  ghost predicate Settled(cfg: Config, s: Sys) {
    forall step: Step :: Enabled(cfg, s, step) && Calm(step) ==> Detour(s, step)
  }

  /** A calm step for a token that carries a command. */
  function CalmNext(cfg: Config, s: Sys, k: nat): Step
    requires k in s.tokens
  {
    var t := s.tokens[k];
    match t
    case Outbox(_, published) => if published then RelayStamp(k) else RelayPublish(k)
    case PlacedReady(_, _) => PlacedDeliver(k)
    case PlacedBusy(_, _, ppc) => if ppc == Start then PlacedCommit(k) else PlacedAck(k)
    case Work(_) => Deliver(k)
    case Retry(_) => RetryExpire(k)
    case Dlq(_, replayed) => if replayed then ReplayAck(k) else ReplayPublish(k)
    case Busy(env, _, _, pc) =>
      match pc
      case Begin => Read(k)
      case Snap(_) => Proceed(k)
      case Calling(_, tries, call) =>
        (match call
         case None => if tries < cfg.httpAttempts then Send(k) else GiveUp(k)
         case Some(c) =>
           if c !in s.calls || s.calls[c].cpc.Answered? then TakeAnswer(k)
           else if s.calls[c].cpc == Arrived then CallLookup(c)
           else CallClaim(c, false, ""))
      case Cleared => Commit(k)
      case Rejected => FailOrder(k)
      case Cancelling => Cancel(k)
      case Bounce => BouncePublish(k)
      case Marking => MarkDone(k, false)
      case Acking => Ack(k)
  }

  lemma CommandGoesOn(cfg: Config, s: Sys, k: nat)
    requires Inv(cfg, s) && k in s.tokens && s.tokens[k].env.data.AdvanceCommand?
    ensures var step := CalmNext(cfg, s, k); Enabled(cfg, s, step) && Calm(step) && !Detour(s, step)
  {
    hide DbInv, TokensInv, CallsInv, EnvOk, Justified;
    TokenOf(cfg, s, k);
  }

  /** Where only detours are left, no command is. */
  lemma SettledHasNoCommands(cfg: Config, s: Sys)
    requires Inv(cfg, s) && Settled(cfg, s)
    ensures forall k :: k in s.tokens ==> s.tokens[k].env.data.PlacedEvent?
  {
    hide Inv, Enabled, Calm, Detour;
    forall k | k in s.tokens ensures s.tokens[k].env.data.PlacedEvent? {
      if s.tokens[k].env.data.AdvanceCommand? {
        CommandGoesOn(cfg, s, k);
      }
    }
  }

  lemma SettledIsFinished(cfg: Config, s: Sys, o: OrderId)
    requires Inv(cfg, s) && NoneLost(s)
    ensures Settled(cfg, s) && o in s.db.orders ==> IsTerminal(s.db.orders[o].state)
  {
    hide DbInv, TokensInv, CallsInv, NoneLost, Settled;
    IngestedFirst(s.db, o);
    LiveAll(s);
    assert Live(s, o);
    if Settled(cfg, s) {
      SettledHasNoCommands(cfg, s);
    }
  }

  /** Recovery is hands-off: after any past without a last-resort nack and in any calm run, whatever it
      replays and how often, the steps that are no detours are bounded by the weight at its start; its
      length is bounded by a weight and a fixed cost for every replay of an order.placed; and where only
      detours are left, every order that entered the pipeline is delivered, cancelled or failed. */
  lemma HandsOffRecovery(cfg: Config, past: seq<Step>, steps: seq<Step>, o: OrderId)
    requires cfg.httpAttempts > 0 && ValidRun(cfg, INITIAL, past) && NeverDiscards(past)
    requires ValidRun(cfg, Exec(cfg, INITIAL, past), steps) && CalmRun(steps)
    ensures var s := Exec(cfg, INITIAL, past); var s' := Exec(cfg, s, steps);
            && Proper(cfg, s, steps) <= CalmWeight(cfg, s, false)
            && |steps| <= CalmWeight(cfg, s, true) + (Cost(cfg) + 1) * PlacedReplays(cfg, s, steps)
            && (Settled(cfg, s') && o in s'.db.orders ==> IsTerminal(s'.db.orders[o].state))
  {
    hide Inv, NoneLost, Settled, CalmWeight, Proper, PlacedReplays, Cost;
    InitInv(cfg);
    InitLive();
    Reached(cfg, past);
    RunLive(cfg, INITIAL, past);
    hide ValidRun, Exec;
    var s := Exec(cfg, INITIAL, past);
    CalmRunsEnd(cfg, s, steps);
    RunInv(cfg, s, steps);
    RunLive(cfg, s, steps);
    SettledIsFinished(cfg, Exec(cfg, s, steps), o);
  }

  // ---- replaying from the head of the DLQ ---------------------------------------------------

  predicate Waiting(t: Token) {
    t.Dlq? && !t.replayed
  }

  /** replay_dlq takes the message parked first; messages are numbered as they are parked. */
  predicate HeadFirst(s: Sys, step: Step) {
    step.ReplayPublish? ==> forall j :: j in s.tokens && Waiting(s.tokens[j]) ==> step.k <= j
  }

  predicate InOrder(cfg: Config, s: Sys, steps: seq<Step>)
    requires ValidRun(cfg, s, steps)
    decreases |steps|
  {
    |steps| > 0 ==> HeadFirst(s, steps[0]) && InOrder(cfg, Apply(cfg, s, steps[0]), steps[1..])
  }

  ghost function Parking(s: Sys): set<nat> {
    set k | k in s.tokens && Waiting(s.tokens[k])
  }

  lemma Head(s: Sys) returns (k: nat)
    requires Parking(s) != {}
    ensures k in s.tokens && Waiting(s.tokens[k]) && HeadFirst(s, ReplayPublish(k))
  {
    k :| k in Parking(s);
    var left := Parking(s) - {k};
    while left != {}
      invariant left <= Parking(s) && k in Parking(s)
      invariant forall j :: j in Parking(s) && j !in left ==> k <= j
      decreases |left|
    {
      var j :| j in left;
      if j < k { k := j; }
      left := left - {j};
    }
    assert forall j :: j in s.tokens && Waiting(s.tokens[j]) ==> j in Parking(s);
  }

  lemma ReplayTakesOne(cfg: Config, s: Sys, k: nat)
    requires Inv(cfg, s) && Enabled(cfg, s, ReplayPublish(k))
    ensures |Parking(Apply(cfg, s, ReplayPublish(k)))| < |Parking(s)|
  {
    hide Inv;
    FreshNext(cfg, s);
    assert Parking(Apply(cfg, s, ReplayPublish(k))) == Parking(s) - {k};
  }

  /** Unless it is settled, the pipeline has a calm step that takes the DLQ in order, and brings the end
      nearer or at least the next parked message. */
  lemma NextInOrder(cfg: Config, s: Sys) returns (step: Step)
    requires cfg.httpAttempts > 0 && Inv(cfg, s) && !Settled(cfg, s)
    ensures Enabled(cfg, s, step) && Calm(step) && HeadFirst(s, step)
    ensures var s' := Apply(cfg, s, step);
            CalmWeight(cfg, s', false) < CalmWeight(cfg, s, false)
            || (CalmWeight(cfg, s', false) == CalmWeight(cfg, s, false) && |Parking(s')| < |Parking(s)|)
  {
    hide Inv, CalmWeight, Detour, Parking, Apply;
    step :| Enabled(cfg, s, step) && Calm(step) && !Detour(s, step);
    if step.ReplayPublish? {
      IsParked(s, step.k);
      var k := Head(s);
      step := ReplayPublish(k);
      ReplayTakesOne(cfg, s, k);
    }
    hide Enabled, Calm, Settled, HeadFirst;
    StepCalms(cfg, s, step);
  }

  lemma IsParked(s: Sys, k: nat)
    requires k in s.tokens && Waiting(s.tokens[k])
    ensures Parking(s) != {}
  {
    assert k in Parking(s);
  }

  /** From every reachable state there is a calm run, replaying the DLQ from its head, that leaves only
      detours. */
  lemma {:induction false} CanSettle(cfg: Config, s: Sys) returns (steps: seq<Step>)
    requires cfg.httpAttempts > 0 && Inv(cfg, s)
    ensures ValidRun(cfg, s, steps) && CalmRun(steps) && InOrder(cfg, s, steps)
    ensures Settled(cfg, Exec(cfg, s, steps))
    decreases CalmWeight(cfg, s, false), |Parking(s)|
  {
    hide Inv, Apply, Enabled, CalmWeight, Parking, Calm, HeadFirst, Settled;
    if Settled(cfg, s) {
      steps := [];
    } else {
      var step := NextInOrder(cfg, s);
      StepInv(cfg, s, step);
      var rest := CanSettle(cfg, Apply(cfg, s, step));
      steps := [step] + rest;
      assert steps[1..] == rest;
    }
  }
}
