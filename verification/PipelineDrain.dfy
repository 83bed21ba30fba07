/** The pipeline drains. Every durable message, row, handler and request has a weight: the work it
    can still cause if nothing is disturbed. Every step that is not a disturbance (a new POST, a
    crash, an aborted relay batch, a replay, a forgotten Redis mark) strictly lowers the total. */
module PipelineDrain {
  import opened Lifecycle
  import opened Pipeline
  import opened PipelineInvariant

  // ---- weights ----------------------------------------------------------------

  /** Broker retries a command has left. */
  function Left(cfg: Config, att: int): nat {
    if cfg.maxAttempts > att then cfg.maxAttempts - att else 0
  }

  function Tries(cfg: Config): nat {
    if cfg.httpAttempts > 0 then cfg.httpAttempts else 0
  }

  function TriesLeft(cfg: Config, tries: nat): nat {
    if Tries(cfg) > tries then Tries(cfg) - tries else 0
  }

  function Depth(d: Payload): nat {
    match d
    case PlacedEvent(_) => 0
    case AdvanceCommand(from) => 8 - Rank(from)
  }

  /** The command that the step asked for by d puts into the outbox. */
  function NextData(d: Payload): Option<Payload> {
    match d
    case PlacedEvent(_) => None
    case AdvanceCommand(from) =>
      match NextHappy(from)
      case None => None
      case Some(target) => if IsTerminal(target) then None else Some(AdvanceCommand(target))
  }

  /** In q.order.advance, with r retries left. */
  function WorkW(cfg: Config, d: Payload, r: nat): nat
    decreases Depth(d), r, 4
  {
    CallBaseW(cfg, d, r) + 6 * Tries(cfg) + 3
  }

  /** In _fault: one more publish, then the ack. */
  function FaultW(cfg: Config, d: Payload, r: nat): nat
    decreases Depth(d), r, 0
  {
    if r == 0 then 2 else WorkW(cfg, d, r - 1) + 3
  }

  /** About to ack; the ack may still fail into _fault. */
  function AckW(cfg: Config, d: Payload, r: nat): nat
    decreases Depth(d), r, 1
  {
    FaultW(cfg, d, r) + 1
  }

  function BounceW(cfg: Config, d: Payload, r: nat): nat
    decreases Depth(d), r, 2
  {
    if r == 0 then AckW(cfg, d, 0) + 1 else WorkW(cfg, d, r - 1) + AckW(cfg, d, r - 1) + 2
  }

  function NextW(cfg: Config, d: Payload): nat
    decreases Depth(d), 0, 0
  {
    match NextData(d)
    case None => 0
    case Some(d') => WorkW(cfg, d', Left(cfg, 1)) + 2
  }

  function ClearedW(cfg: Config, d: Payload, r: nat): nat
    decreases Depth(d), r, 2
  {
    AckW(cfg, d, r) + NextW(cfg, d) + 2
  }

  function CallBaseW(cfg: Config, d: Payload, r: nat): nat
    decreases Depth(d), r, 3
  {
    BounceW(cfg, d, r) + ClearedW(cfg, d, r) + 1
  }

  function BusyW(cfg: Config, d: Payload, r: nat, faulted: bool, pc: Pc): nat {
    match pc
    case Begin => CallBaseW(cfg, d, r) + 6 * Tries(cfg) + 2
    case Snap(_) => CallBaseW(cfg, d, r) + 6 * Tries(cfg) + 1
    case Calling(_, tries, call) =>
      CallBaseW(cfg, d, r) + if call == None then 6 * TriesLeft(cfg, tries) else 6 * TriesLeft(cfg, tries + 1) + 3
    case Cleared => ClearedW(cfg, d, r)
    case Rejected => AckW(cfg, d, r) + 1
    case Cancelling => AckW(cfg, d, r) + 1
    case Bounce => if faulted then FaultW(cfg, d, r) else BounceW(cfg, d, r)
    case Marking => AckW(cfg, d, r) + 1
    case Acking => if faulted then 1 else AckW(cfg, d, r)
  }

  /** The seed command's outbox row. */
  function SeedW(cfg: Config): nat {
    WorkW(cfg, AdvanceCommand(Placed), Left(cfg, 1)) + 2
  }

  function PlacedReadyW(cfg: Config, redelivered: bool): nat {
    if redelivered then SeedW(cfg) + 5 else 2 * SeedW(cfg) + 8
  }

  function TokenW(cfg: Config, t: Token): nat {
    match t
    case Outbox(env, published) =>
      if published then 1
      else if env.data.PlacedEvent? then PlacedReadyW(cfg, false) + 2
      else WorkW(cfg, env.data, Left(cfg, env.attempt)) + 2
    case PlacedReady(_, redelivered) => PlacedReadyW(cfg, redelivered)
    case PlacedBusy(_, redelivered, ppc) =>
      (match ppc
       case Start => if redelivered then SeedW(cfg) + 4 else 2 * SeedW(cfg) + 7
       case Committed => if redelivered then 3 else SeedW(cfg) + 6
       case Parked => 1)
    case Work(env) => WorkW(cfg, env.data, Left(cfg, env.attempt))
    case Busy(env, att, faulted, pc) => BusyW(cfg, env.data, Left(cfg, att), faulted, pc)
    case Retry(env) => WorkW(cfg, env.data, Left(cfg, env.attempt)) + 1
    case Dlq(_, replayed) => if replayed then 1 else 0
  }

  function CallW(call: Call): nat {
    match call.cpc
    case Arrived => 2
    case Missed => 1
    case Answered(_) => 0
  }

  // ---- sums over maps ---------------------------------------------------------

  ghost function Sum(m: map<nat, nat>): nat
    decreases |m|
  {
    if m == map[] then 0
    else
      var k :| k in m;
      m[k] + Sum(m - {k})
  }

  /** The sum does not depend on the order in which the keys are taken. */
  lemma {:induction false} SumRemove(m: map<nat, nat>, k: nat)
    requires k in m
    ensures Sum(m) == m[k] + Sum(m - {k})
    decreases |m|
  {
    var j :| j in m && Sum(m) == m[j] + Sum(m - {j});
    if j != k {
      SumRemove(m - {j}, k);
      SumRemove(m - {k}, j);
      assert m - {j} - {k} == m - {k} - {j};
    }
  }

  lemma SumPut(m: map<nat, nat>, k: nat, v: nat)
    ensures Sum(m[k := v]) + (if k in m then m[k] else 0) == Sum(m) + v
  {
    SumRemove(m[k := v], k);
    assert m[k := v] - {k} == m - {k};
    if k in m {
      SumRemove(m, k);
    } else {
      assert m - {k} == m;
    }
  }

  ghost function TokenWeights(cfg: Config, tokens: map<nat, Token>): map<nat, nat> {
    map k | k in tokens :: TokenW(cfg, tokens[k])
  }

  ghost function CallWeights(calls: map<nat, Call>): map<nat, nat> {
    map c | c in calls :: CallW(calls[c])
  }

  ghost function Weight(cfg: Config, s: Sys): nat {
    Sum(TokenWeights(cfg, s.tokens)) + Sum(CallWeights(s.calls))
  }

  lemma MoveW(cfg: Config, s: Sys, k: nat, t: Token)
    requires k in s.tokens
    ensures Weight(cfg, Move(s, k, t)) + TokenW(cfg, s.tokens[k]) == Weight(cfg, s) + TokenW(cfg, t)
  {
    SumPut(TokenWeights(cfg, s.tokens), k, TokenW(cfg, t));
    assert TokenWeights(cfg, s.tokens[k := t]) == TokenWeights(cfg, s.tokens)[k := TokenW(cfg, t)];
  }

  lemma SpawnW(cfg: Config, s: Sys, t: Token)
    requires s.next !in s.tokens
    ensures Weight(cfg, Spawn(s, t)) == Weight(cfg, s) + TokenW(cfg, t)
  {
    SumPut(TokenWeights(cfg, s.tokens), s.next, TokenW(cfg, t));
    assert TokenWeights(cfg, s.tokens[s.next := t]) == TokenWeights(cfg, s.tokens)[s.next := TokenW(cfg, t)];
  }

  lemma DropW(cfg: Config, s: Sys, k: nat)
    requires k in s.tokens
    ensures Weight(cfg, Drop(s, k)) + TokenW(cfg, s.tokens[k]) == Weight(cfg, s)
  {
    SumRemove(TokenWeights(cfg, s.tokens), k);
    assert TokenWeights(cfg, s.tokens - {k}) == TokenWeights(cfg, s.tokens) - {k};
  }

  lemma CallsW(cfg: Config, s: Sys, c: nat, call: Call)
    ensures Weight(cfg, s.(calls := s.calls[c := call])) + (if c in s.calls then CallW(s.calls[c]) else 0)
            == Weight(cfg, s) + CallW(call)
  {
    SumPut(CallWeights(s.calls), c, CallW(call));
    assert CallWeights(s.calls[c := call]) == CallWeights(s.calls)[c := CallW(call)];
  }

  // ---- every undisturbed step lowers the weight --------------------------------

  predicate Disturbance(step: Step) {
    step.Post? || step.Redeliver? || step.RelayAbort? || step.ReplayPublish? || step.RedisForget? || step.Discard?
  }

  predicate MovesOne(step: Step) {
    || step.PlacedDeliver? || step.Deliver? || step.Read? || step.RollCancel? || step.DedupSkip? || step.Proceed?
    || step.BreakerReject? || step.TakeAnswer? || step.TimeOut? || step.GiveUp? || step.Fault? || step.RetryExpire?
    || step.MarkDone?
  }

  lemma MovesOneIs(cfg: Config, s: Sys, step: Step)
    requires Enabled(cfg, s, step) && MovesOne(step)
    ensures var s' := Apply(cfg, s, step);
            && step.k in s.tokens && step.k in s'.tokens && s'.calls == s.calls
            && s'.tokens == s.tokens[step.k := s'.tokens[step.k]]
  {
  }

  lemma SameWeight(cfg: Config, s: Sys, s': Sys)
    requires s'.tokens == s.tokens && s'.calls == s.calls
    ensures Weight(cfg, s') == Weight(cfg, s)
  {
  }

  /** How the weights of one command are stacked. */
  lemma Ladder(cfg: Config, d: Payload, r: nat)
    ensures AckW(cfg, d, r) == FaultW(cfg, d, r) + 1
    ensures ClearedW(cfg, d, r) == AckW(cfg, d, r) + NextW(cfg, d) + 2
    ensures CallBaseW(cfg, d, r) == BounceW(cfg, d, r) + ClearedW(cfg, d, r) + 1
    ensures WorkW(cfg, d, r) == CallBaseW(cfg, d, r) + 6 * Tries(cfg) + 3
    ensures r > 0 ==> BounceW(cfg, d, r) == WorkW(cfg, d, r - 1) + AckW(cfg, d, r - 1) + 2
    ensures r == 0 ==> BounceW(cfg, d, r) == AckW(cfg, d, 0) + 1
    ensures FaultW(cfg, d, r) >= 2
    ensures match NextData(d) case None => NextW(cfg, d) == 0
                              case Some(d') => NextW(cfg, d) == WorkW(cfg, d', Left(cfg, 1)) + 2
  {
  }

  lemma EarlyLighter(cfg: Config, s: Sys, step: Step)
    requires Enabled(cfg, s, step)
    requires step.PlacedDeliver? || step.Deliver? || step.RetryExpire? || step.MarkDone?
    ensures TokenW(cfg, Apply(cfg, s, step).tokens[step.k]) < TokenW(cfg, s.tokens[step.k])
  {
    hide WorkW, NextW, AckW, ClearedW, CallBaseW, BounceW, FaultW;
    var t := s.tokens[step.k];
    Ladder(cfg, t.env.data, Left(cfg, if t.Busy? then t.att else t.env.attempt));
  }

  lemma SnapLighter(cfg: Config, s: Sys, step: Step)
    requires step.Read? || step.RollCancel? || step.DedupSkip? || step.Proceed?
    requires Enabled(cfg, s, step) && !s.tokens[step.k].faulted
    ensures TokenW(cfg, Apply(cfg, s, step).tokens[step.k]) < TokenW(cfg, s.tokens[step.k])
  {
    hide WorkW, NextW, AckW, ClearedW, CallBaseW, BounceW, FaultW;
    var t := s.tokens[step.k];
    Ladder(cfg, t.env.data, Left(cfg, t.att));
  }

  lemma CallingLighter(cfg: Config, s: Sys, step: Step)
    requires step.BreakerReject? || step.TakeAnswer? || step.TimeOut? || step.GiveUp?
    requires Enabled(cfg, s, step) && !s.tokens[step.k].faulted
    ensures TokenW(cfg, Apply(cfg, s, step).tokens[step.k]) < TokenW(cfg, s.tokens[step.k])
  {
    hide WorkW, NextW, AckW, ClearedW, CallBaseW, BounceW, FaultW;
    var t := s.tokens[step.k];
    Ladder(cfg, t.env.data, Left(cfg, t.att));
  }

  lemma FaultLighter(cfg: Config, t: Token)
    requires t.Busy? && !t.faulted
    ensures TokenW(cfg, AfterFault(cfg, t)) < TokenW(cfg, t)
  {
    hide WorkW, NextW, AckW, ClearedW, CallBaseW, BounceW, FaultW;
    var d, r := t.env.data, Left(cfg, t.att);
    Ladder(cfg, d, r);
    if r > 0 {
      Ladder(cfg, d, r - 1);
      assert Left(cfg, t.att + 1) == r - 1;
    }
  }

  lemma FaultIs(cfg: Config, s: Sys, k: nat)
    requires Enabled(cfg, s, Fault(k))
    ensures k in s.tokens && Apply(cfg, s, Fault(k)).tokens[k] == AfterFault(cfg, s.tokens[k])
  {
  }

  /** The token left behind weighs less. */
  lemma MovesOneToken(cfg: Config, s: Sys, step: Step)
    requires Inv(cfg, s) && Enabled(cfg, s, step) && MovesOne(step)
    ensures step.k in s.tokens && step.k in Apply(cfg, s, step).tokens
    ensures TokenW(cfg, Apply(cfg, s, step).tokens[step.k]) < TokenW(cfg, s.tokens[step.k])
  {
    hide DbInv, TokensInv, CallsInv, TokenInv, TokenW, Apply;
    MovesOneIs(cfg, s, step);
    TokenOf(cfg, s, step.k);
    if s.tokens[step.k].Busy? {
      PcTargets(cfg, s.db, s.calls, s.tokens[step.k]);
    }
    hide Inv;
    if step.PlacedDeliver? || step.Deliver? || step.RetryExpire? || step.MarkDone? {
      EarlyLighter(cfg, s, step);
    } else if step.Fault? {
      FaultIs(cfg, s, step.k);
      FaultLighter(cfg, s.tokens[step.k]);
    } else if step.Read? || step.RollCancel? || step.DedupSkip? || step.Proceed? {
      SnapLighter(cfg, s, step);
    } else {
      CallingLighter(cfg, s, step);
    }
  }

  lemma MovesOneDrains(cfg: Config, s: Sys, step: Step)
    requires Inv(cfg, s) && Enabled(cfg, s, step) && MovesOne(step)
    ensures Weight(cfg, Apply(cfg, s, step)) < Weight(cfg, s)
  {
    hide Inv, Apply, Enabled, TokenW;
    MovesOneIs(cfg, s, step);
    MovesOneToken(cfg, s, step);
    var s' := Apply(cfg, s, step);
    MoveW(cfg, s, step.k, s'.tokens[step.k]);
    SameWeight(cfg, Move(s, step.k, s'.tokens[step.k]), s');
  }

  lemma DropDrains(cfg: Config, s: Sys, step: Step)
    requires Enabled(cfg, s, step)
    requires step.RelayStamp? || step.PlacedAck? || step.Ack? || step.ReplayAck?
    ensures Weight(cfg, Apply(cfg, s, step)) < Weight(cfg, s)
  {
    hide Weight;
    DropW(cfg, s, step.k);
  }

  /** Move and Spawn together. */
  lemma MoveSpawnW(cfg: Config, s: Sys, k: nat, t: Token, t': Token)
    requires k in s.tokens && s.next !in s.tokens
    ensures Weight(cfg, Spawn(Move(s, k, t), t')) + TokenW(cfg, s.tokens[k])
            == Weight(cfg, s) + TokenW(cfg, t) + TokenW(cfg, t')
  {
    hide Weight, TokenW;
    MoveW(cfg, s, k, t);
    assert s.next !in Move(s, k, t).tokens;
    SpawnW(cfg, Move(s, k, t), t');
  }

  lemma FreshNext(cfg: Config, s: Sys)
    requires Inv(cfg, s)
    ensures s.next !in s.tokens && s.next !in s.calls
  {
  }

  lemma RelayPublishDrains(cfg: Config, s: Sys, k: nat)
    requires Inv(cfg, s) && Enabled(cfg, s, RelayPublish(k))
    ensures Weight(cfg, Apply(cfg, s, RelayPublish(k))) < Weight(cfg, s)
  {
    hide Inv, Weight, WorkW;
    FreshNext(cfg, s);
    MoveSpawnW(cfg, s, k, s.tokens[k].(published := true), Routed(s.tokens[k].env));
  }

  lemma BounceDrains(cfg: Config, s: Sys, k: nat)
    requires Inv(cfg, s) && Enabled(cfg, s, BouncePublish(k))
    ensures Weight(cfg, Apply(cfg, s, BouncePublish(k))) < Weight(cfg, s)
  {
    hide Inv, Weight, WorkW, NextW;
    FreshNext(cfg, s);
    var t := s.tokens[k];
    if t.att >= cfg.maxAttempts {
      MoveSpawnW(cfg, s, k, t.(pc := Acking), Dlq(t.env.(attempt := t.att), false));
    } else {
      MoveSpawnW(cfg, s, k, t.(pc := Acking, att := t.att + 1), Retry(t.env.(attempt := t.att + 1)));
      assert Left(cfg, t.att + 1) == Left(cfg, t.att) - 1;
    }
  }

  lemma PlacedCommitDrains(cfg: Config, s: Sys, k: nat)
    requires Inv(cfg, s) && Enabled(cfg, s, PlacedCommit(k))
    ensures Weight(cfg, Apply(cfg, s, PlacedCommit(k))) < Weight(cfg, s)
  {
    hide Inv, Weight, WorkW;
    FreshNext(cfg, s);
    var t := s.tokens[k];
    var o := t.env.order;
    var s0 := s.(db := Apply(cfg, s, PlacedCommit(k)).db);
    SameWeight(cfg, s, s0);
    if o in s.db.orders {
      MoveW(cfg, s0, k, t.(ppc := Committed));
    } else {
      MoveSpawnW(cfg, s0, k, t.(ppc := Committed), AdvanceRow(o, Placed));
    }
  }

  lemma PlacedFaultDrains(cfg: Config, s: Sys, k: nat)
    requires Inv(cfg, s) && Enabled(cfg, s, PlacedFault(k))
    ensures Weight(cfg, Apply(cfg, s, PlacedFault(k))) < Weight(cfg, s)
  {
    hide Inv, Weight, WorkW;
    FreshNext(cfg, s);
    var t := s.tokens[k];
    if t.redelivered {
      MoveSpawnW(cfg, s, k, t.(ppc := Parked), Dlq(t.env, false));
    } else {
      MoveW(cfg, s, k, PlacedReady(t.env, true));
    }
  }

  lemma SendDrains(cfg: Config, s: Sys, k: nat)
    requires Inv(cfg, s) && Enabled(cfg, s, Send(k))
    ensures Weight(cfg, Apply(cfg, s, Send(k))) < Weight(cfg, s)
  {
    hide Inv, Weight, CallBaseW;
    FreshNext(cfg, s);
    var t := s.tokens[k];
    var s1 := Move(s, k, t.(pc := Calling(t.pc.total, t.pc.tries, Some(s.next))));
    var call := Call(HappyOp(t.env), t.pc.total, Arrived);
    MoveW(cfg, s, k, s1.tokens[k]);
    CallsW(cfg, s1, s.next, call);
    SameWeight(cfg, s1.(calls := s1.calls[s.next := call]), Apply(cfg, s, Send(k)));
  }

  lemma TxDrains(cfg: Config, s: Sys, k: nat, op: Op, cause: Cause, done: Pc)
    requires BusyAt(s, k) && s.next !in s.tokens && !s.tokens[k].faulted
    requires cause == Advanced ==>
               (s.tokens[k].pc == Cleared && done == Marking
                && TargetOf(s.tokens[k].env).Some? && op == HappyOp(s.tokens[k].env))
    requires cause != Advanced ==> ((s.tokens[k].pc == Rejected || s.tokens[k].pc == Cancelling) && done == Acking)
    ensures Weight(cfg, RunTx(cfg, s, k, op, cause, done)) < Weight(cfg, s)
  {
    hide Weight, WorkW, NextW, AckW, ClearedW, CallBaseW, BounceW, FaultW;
    var t := s.tokens[k];
    Ladder(cfg, t.env.data, Left(cfg, t.att));
    match TxOf(s.db, op)
    case Dedup => MoveW(cfg, s, k, t.(pc := Acking));
    case Raced => MoveW(cfg, s, k, AfterFault(cfg, t));
    case Applied =>
      var s0 := s.(db := TransitionTx(s.db, op, cause, t.att));
      SameWeight(cfg, s, s0);
      MoveW(cfg, s0, k, t.(pc := done));
      if cause == Advanced && !IsTerminal(op.to) {
        assert NextData(t.env.data) == Some(AdvanceCommand(op.to));
        MoveSpawnW(cfg, s0, k, t.(pc := done), AdvanceRow(op.order, op.to));
      }
  }

  /** What a handler's program counter says about its command. */
  lemma PcTargets(cfg: Config, db: Db, calls: map<nat, Call>, t: Token)
    requires TokenInv(cfg, db, calls, t) && t.Busy?
    ensures t.pc == Cleared || t.pc == Marking || t.pc.Calling? ==> TargetOf(t.env).Some?
    ensures t.pc == Rejected || t.pc == Cancelling ==> t.env.data.AdvanceCommand?
    ensures t.faulted ==> t.pc == Bounce || t.pc == Acking
  {
  }

  lemma TxStepDrains(cfg: Config, s: Sys, step: Step)
    requires Inv(cfg, s) && Enabled(cfg, s, step)
    requires step.Commit? || step.FailOrder? || step.Cancel?
    ensures Weight(cfg, Apply(cfg, s, step)) < Weight(cfg, s)
  {
    hide Inv, Weight, RunTx, TokenInv;
    FreshNext(cfg, s);
    TokenOf(cfg, s, step.k);
    var t := s.tokens[step.k];
    PcTargets(cfg, s.db, s.calls, t);
    match step
    case Commit(k) => TxDrains(cfg, s, k, HappyOp(t.env), Advanced, Marking);
    case FailOrder(k) => TxDrains(cfg, s, k, Op(t.env.order, t.env.data.from, Failed), Refused, Acking);
    case Cancel(k) => TxDrains(cfg, s, k, Op(t.env.order, t.env.data.from, Cancelled), CustomerCancelled, Acking);
  }

  lemma CallDrains(cfg: Config, s: Sys, step: Step)
    requires Enabled(cfg, s, step)
    requires step.CallRefuse? || step.CallLookup? || step.CallFlake? || step.CallClaim?
    ensures Weight(cfg, Apply(cfg, s, step)) < Weight(cfg, s)
  {
    hide Weight, EffectTx, Recorded;
    var s' := Apply(cfg, s, step);
    CallsW(cfg, s, step.c, s'.calls[step.c]);
    SameWeight(cfg, s.(calls := s.calls[step.c := s'.calls[step.c]]), s');
  }

  /** The measure behind "the pipeline drains". */
  lemma StepDrains(cfg: Config, s: Sys, step: Step)
    requires Inv(cfg, s) && Enabled(cfg, s, step) && !Disturbance(step)
    ensures Weight(cfg, Apply(cfg, s, step)) < Weight(cfg, s)
  {
    hide Inv, Apply, Enabled, Weight;
    match step
    case RelayPublish(k) => RelayPublishDrains(cfg, s, k);
    case RelayStamp(_) => DropDrains(cfg, s, step);
    case PlacedAck(_) => DropDrains(cfg, s, step);
    case Ack(_) => DropDrains(cfg, s, step);
    case ReplayAck(_) => DropDrains(cfg, s, step);
    case PlacedCommit(k) => PlacedCommitDrains(cfg, s, k);
    case PlacedFault(k) => PlacedFaultDrains(cfg, s, k);
    case Send(k) => SendDrains(cfg, s, k);
    case BouncePublish(k) => BounceDrains(cfg, s, k);
    case Commit(_) => TxStepDrains(cfg, s, step);
    case FailOrder(_) => TxStepDrains(cfg, s, step);
    case Cancel(_) => TxStepDrains(cfg, s, step);
    case CallRefuse(_) => CallDrains(cfg, s, step);
    case CallLookup(_) => CallDrains(cfg, s, step);
    case CallFlake(_, _) => CallDrains(cfg, s, step);
    case CallClaim(_, _, _) => CallDrains(cfg, s, step);
    case _ => MovesOneDrains(cfg, s, step);
  }

  // ---- quiescence ---------------------------------------------------------------

  /** Nothing can happen unless something from outside disturbs the pipeline. */
  ghost predicate Quiescent(cfg: Config, s: Sys) {
    forall step: Step :: Enabled(cfg, s, step) ==> Disturbance(step)
  }

  /** A step that can be taken for token t. */
  function Pending(cfg: Config, k: nat, t: Token): Step {
    match t
    case Outbox(_, published) => if published then RelayStamp(k) else RelayPublish(k)
    case PlacedReady(_, _) => PlacedDeliver(k)
    case PlacedBusy(_, _, ppc) => if ppc == Start then PlacedCommit(k) else PlacedAck(k)
    case Work(_) => Deliver(k)
    case Retry(_) => RetryExpire(k)
    case Dlq(_, _) => ReplayAck(k)
    case Busy(env, _, _, pc) =>
      match pc
      case Begin => Read(k)
      case Snap(_) => Proceed(k)
      case Calling(_, tries, call) =>
        if call.Some? then TimeOut(k) else if tries < cfg.httpAttempts then Send(k) else GiveUp(k)
      case Cleared => Commit(k)
      case Rejected => FailOrder(k)
      case Cancelling => Cancel(k)
      case Bounce => BouncePublish(k)
      case Marking => MarkDone(k, false)
      case Acking => Ack(k)
  }

  lemma PendingEnabled(cfg: Config, s: Sys, k: nat)
    requires Inv(cfg, s) && k in s.tokens && !(s.tokens[k].Dlq? && !s.tokens[k].replayed)
    ensures Enabled(cfg, s, Pending(cfg, k, s.tokens[k])) && !Disturbance(Pending(cfg, k, s.tokens[k]))
  {
    hide Inv, TokenInv;
    TokenOf(cfg, s, k);
    if s.tokens[k].Busy? {
      PcTargets(cfg, s.db, s.calls, s.tokens[k]);
    }
  }

  lemma ParkedAtCap(cfg: Config, s: Sys, k: nat)
    requires Inv(cfg, s) && k in s.tokens && s.tokens[k].Dlq? && s.tokens[k].env.data.AdvanceCommand?
    ensures s.tokens[k].env.attempt == MaxAttempt(cfg)
  {
    hide Inv;
    TokenOf(cfg, s, k);
  }

  /** When the pipeline is quiet, the only messages left anywhere are parked in the DLQ, every command
      among them after its last attempt, and every request has been answered. */
  lemma QuietMeansParked(cfg: Config, s: Sys)
    requires Inv(cfg, s) && Quiescent(cfg, s)
    ensures forall k :: k in s.tokens ==> s.tokens[k].Dlq? && !s.tokens[k].replayed
    ensures forall k :: k in s.tokens && s.tokens[k].env.data.AdvanceCommand? ==>
              s.tokens[k].env.attempt == MaxAttempt(cfg)
    ensures forall c :: c in s.calls ==> s.calls[c].cpc.Answered?
  {
    hide Inv;
    forall k | k in s.tokens ensures s.tokens[k].Dlq? && !s.tokens[k].replayed {
      var step := Pending(cfg, k, s.tokens[k]);
      assert Enabled(cfg, s, step) ==> Disturbance(step);
      hide Pending, Enabled, Disturbance;
      if !(s.tokens[k].Dlq? && !s.tokens[k].replayed) {
        PendingEnabled(cfg, s, k);
      }
    }
    forall k | k in s.tokens && s.tokens[k].env.data.AdvanceCommand?
      ensures s.tokens[k].env.attempt == MaxAttempt(cfg)
    {
      ParkedAtCap(cfg, s, k);
    }
    forall c | c in s.calls ensures s.calls[c].cpc.Answered? {
      assert Enabled(cfg, s, CallRefuse(c)) ==> Disturbance(CallRefuse(c));
      assert Enabled(cfg, s, CallFlake(c, true)) ==> Disturbance(CallFlake(c, true));
    }
  }
}
