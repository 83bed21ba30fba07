/** Which orders can still be finished, exactly, in every reachable state of the pipeline, discards
    included; and so which orders the last-resort nack loses. */
module PipelineFate {
  import opened Lifecycle
  import opened Pipeline
  import opened PipelineInvariant
  import opened PipelineNoLoss
  import opened PipelineTheorems
  import opened PipelineLimits
  import opened PipelineRecovery

  predicate Finished(db: Db, o: OrderId) {
    o in db.orders && IsTerminal(db.orders[o].state)
  }

  /** Some continuation, whatever its steps, ends with the order delivered, cancelled or failed. */
  ghost predicate CanFinish(cfg: Config, s: Sys, o: OrderId) {
    exists steps :: ValidRun(cfg, s, steps) && Finished(Exec(cfg, s, steps).db, o)
  }

  // ---- an order whose command nothing carries is stuck ----------------------------------

  /** Every token that is new or changed has the order and the data of token k. */
  predicate EnvFrom(s: Sys, s': Sys, k: nat) {
    k in s.tokens && forall j :: j in s'.tokens ==>
      || (j in s.tokens && s'.tokens[j] == s.tokens[j])
      || (s'.tokens[j].env.order == s.tokens[k].env.order && s'.tokens[j].env.data == s.tokens[k].env.data)
  }

  predicate QueueStep(step: Step) {
    || step.RelayPublish? || step.RelayStamp? || step.RelayAbort? || step.PlacedDeliver? || step.PlacedFault?
    || step.PlacedAck? || step.Deliver? || step.RetryExpire? || step.ReplayPublish? || step.ReplayAck?
    || step.Redeliver? || step.Discard? || step.Ack?
  }

  predicate WorkStep(step: Step) {
    || step.Read? || step.RollCancel? || step.DedupSkip? || step.Proceed? || step.BreakerReject? || step.Send?
    || step.TakeAnswer? || step.TimeOut? || step.GiveUp? || step.MarkDone? || step.BouncePublish? || step.Fault?
  }

  predicate CopyStep(step: Step) {
    step.RelayPublish? || step.ReplayPublish? || step.PlacedFault?
  }

  lemma QueueEnvs(cfg: Config, s: Sys, step: Step)
    requires Enabled(cfg, s, step) && QueueStep(step)
    ensures EnvFrom(s, Apply(cfg, s, step), step.k)
  {
    hide EnvFrom;
    if CopyStep(step) {
      CopyEnvs(cfg, s, step);
    } else {
      MoveEnvs(cfg, s, step);
    }
  }

  lemma CopyEnvs(cfg: Config, s: Sys, step: Step)
    requires Enabled(cfg, s, step) && CopyStep(step)
    ensures EnvFrom(s, Apply(cfg, s, step), step.k)
  {
    hide RunTx, PublishBounce, Recorded, EffectTx, PostOf, PostTx, SeedTx,
         AfterRead, AfterSnap, AfterAnswer, AfterFault;
  }

  lemma MoveEnvs(cfg: Config, s: Sys, step: Step)
    requires Enabled(cfg, s, step) && QueueStep(step) && !CopyStep(step)
    ensures EnvFrom(s, Apply(cfg, s, step), step.k)
  {
    hide RunTx, PublishBounce, Recorded, EffectTx, PostOf, PostTx, SeedTx,
         AfterRead, AfterSnap, AfterAnswer, AfterFault;
    hide PlacedException, Routed;
  }

  lemma WorkEnvs(cfg: Config, s: Sys, step: Step)
    requires Enabled(cfg, s, step) && WorkStep(step)
    ensures EnvFrom(s, Apply(cfg, s, step), step.k)
  {
    if step.BouncePublish? {
      BounceEnvs(cfg, s, step.k);
    } else {
      HandlerEnvs(cfg, s, step);
    }
  }

  lemma BounceEnvs(cfg: Config, s: Sys, k: nat)
    requires Enabled(cfg, s, BouncePublish(k))
    ensures EnvFrom(s, Apply(cfg, s, BouncePublish(k)), k)
  {
  }

  lemma AfterEnvs(cfg: Config, db: Db, t: Token, answer: Answer)
    requires t.Busy?
    ensures AfterRead(db, t).Busy? && AfterRead(db, t).env == t.env
    ensures AfterFault(cfg, t).Busy? && AfterFault(cfg, t).env == t.env
    ensures t.pc.Snap? ==> AfterSnap(t).Busy? && AfterSnap(t).env == t.env
    ensures t.pc.Calling? ==> AfterAnswer(t, answer).Busy? && AfterAnswer(t, answer).env == t.env
  {
  }

  /** What is left in token k after the handler's next step. */
  lemma HandlerMoves(cfg: Config, s: Sys, step: Step)
    requires Enabled(cfg, s, step) && WorkStep(step) && !step.BouncePublish?
    ensures var s' := Apply(cfg, s, step);
            step.k in s.tokens && step.k in s'.tokens && s'.tokens == s.tokens[step.k := s'.tokens[step.k]]
    ensures var t := Apply(cfg, s, step).tokens[step.k]; t.Busy? && t.env == s.tokens[step.k].env
  {
    hide RunTx, PlacedException, PublishBounce, Recorded, EffectTx, PostOf, PostTx, SeedTx, Returned, Routed;
    hide AfterRead, AfterSnap, AfterAnswer, AfterFault;
    var t := s.tokens[step.k];
    AfterEnvs(cfg, s.db, t, if step.TakeAnswer? then s.calls[t.pc.call.value].cpc.answer else Unavailable);
  }

  lemma HandlerEnvs(cfg: Config, s: Sys, step: Step)
    requires WorkStep(step) && !step.BouncePublish? && Enabled(cfg, s, step)
    ensures EnvFrom(s, Apply(cfg, s, step), step.k)
  {
    hide Apply, Enabled, WorkStep;
    HandlerMoves(cfg, s, step);
  }

  /** The command of order o from state st does not appear out of nothing. */
  lemma EnvFromNot(s: Sys, s': Sys, k: nat, o: OrderId, st: State)
    requires EnvFrom(s, s', k) && !Carries(s, o, st)
    ensures !Carries(s', o, st)
  {
  }

  /** A lost transaction changes its own handler only. */
  lemma LostTxEnvs(cfg: Config, s: Sys, k: nat, op: Op, cause: Cause, done: Pc)
    requires BusyAt(s, k) && TxOf(s.db, op) != Applied
    ensures var s' := RunTx(cfg, s, k, op, cause, done); s'.db == s.db && EnvFrom(s, s', k)
  {
  }

  /** An applied one moves its own order and may add that order's next command. */
  lemma AppliedTxEnvs(cfg: Config, s: Sys, k: nat, op: Op, cause: Cause, done: Pc)
    requires BusyAt(s, k) && TxOf(s.db, op) == Applied
    ensures var s' := RunTx(cfg, s, k, op, cause, done);
            && (forall o :: o in s.db.orders && o != op.order ==>
                  o in s'.db.orders && s'.db.orders[o] == s.db.orders[o])
            && (forall j :: j in s'.tokens ==>
                  (j in s.tokens && s'.tokens[j].env == s.tokens[j].env) || s'.tokens[j].env.order == op.order)
  {
  }

  /** The transaction of another order, or from another state, changes nothing for o. */
  lemma OtherTx(cfg: Config, s: Sys, k: nat, op: Op, cause: Cause, done: Pc, o: OrderId)
    requires BusyAt(s, k) && o in s.db.orders && !Carries(s, o, s.db.orders[o].state)
    requires op.order == s.tokens[k].env.order && s.tokens[k].env.data == AdvanceCommand(op.from)
    ensures var s' := RunTx(cfg, s, k, op, cause, done);
            && o in s'.db.orders && s'.db.orders[o].state == s.db.orders[o].state
            && !Carries(s', o, s.db.orders[o].state)
  {
    assert !CarriesCommand(s.tokens[k], o, s.db.orders[o].state);
    if TxOf(s.db, op) == Applied {
      AppliedTxEnvs(cfg, s, k, op, cause, done);
    } else {
      LostTxEnvs(cfg, s, k, op, cause, done);
      EnvFromNot(s, RunTx(cfg, s, k, op, cause, done), k, o, s.db.orders[o].state);
    }
    hide RunTx;
  }

  lemma StuckTx(cfg: Config, s: Sys, step: Step, o: OrderId)
    requires step.Commit? || step.FailOrder? || step.Cancel?
    requires Inv(cfg, s) && Enabled(cfg, s, step)
    requires o in s.db.orders && !Carries(s, o, s.db.orders[o].state)
    ensures var s' := Apply(cfg, s, step);
            && o in s'.db.orders && s'.db.orders[o].state == s.db.orders[o].state
            && !Carries(s', o, s.db.orders[o].state)
  {
    hide DbInv, TokensInv, CallsInv, TokenInv, Justified, RunTx, Apply, StepOk, Carries;
    TokenOf(cfg, s, step.k);
    ReadyToClaim(cfg, s.db, s.calls, s.tokens[step.k]);
    ApplyClaims(cfg, s, step);
    var cause := if step.Commit? then Advanced else if step.FailOrder? then Refused else CustomerCancelled;
    OtherTx(cfg, s, step.k, Claim(s, step), cause, if step.Commit? then Marking else Acking, o);
  }

  lemma StuckSeeding(cfg: Config, s: Sys, k: nat, o: OrderId)
    requires Enabled(cfg, s, PlacedCommit(k)) && o in s.db.orders && !Carries(s, o, s.db.orders[o].state)
    ensures var s' := Apply(cfg, s, PlacedCommit(k));
            && o in s'.db.orders && s'.db.orders[o].state == s.db.orders[o].state
            && !Carries(s', o, s.db.orders[o].state)
  {
    assert !CarriesCommand(s.tokens[k], o, s.db.orders[o].state);
  }

  lemma StuckElsewhere(cfg: Config, s: Sys, step: Step, o: OrderId, st: State)
    requires Enabled(cfg, s, step) && (step.Post? || step.RedisForget? || CallStep(step))
    requires !Carries(s, o, st)
    ensures !Carries(Apply(cfg, s, step), o, st)
  {
    hide Apply, Enabled, PostOf;
    if step.Post? {
      PostShape(cfg, s, step);
    } else {
      TokensUntouched(cfg, s, step);
    }
  }

  /** Nothing that can happen brings the command back. */
  lemma StuckStep(cfg: Config, s: Sys, step: Step, o: OrderId)
    requires Inv(cfg, s) && Enabled(cfg, s, step)
    requires o in s.db.orders && !Carries(s, o, s.db.orders[o].state)
    ensures var s' := Apply(cfg, s, step);
            && o in s'.db.orders && s'.db.orders[o].state == s.db.orders[o].state
            && !Carries(s', o, s.db.orders[o].state)
  {
    hide Inv, Apply, Enabled, Carries, EnvFrom;
    if step.Commit? || step.FailOrder? || step.Cancel? {
      StuckTx(cfg, s, step, o);
    } else if step.PlacedCommit? {
      StuckSeeding(cfg, s, step.k, o);
    } else {
      OrdersUntouched(cfg, s, step);
      if QueueStep(step) {
        QueueEnvs(cfg, s, step);
        EnvFromNot(s, Apply(cfg, s, step), step.k, o, s.db.orders[o].state);
      } else if WorkStep(step) {
        WorkEnvs(cfg, s, step);
        EnvFromNot(s, Apply(cfg, s, step), step.k, o, s.db.orders[o].state);
      } else {
        StuckElsewhere(cfg, s, step, o, s.db.orders[o].state);
      }
    }
  }

  lemma {:induction false} StuckForever(cfg: Config, s: Sys, steps: seq<Step>, o: OrderId)
    requires Inv(cfg, s) && ValidRun(cfg, s, steps)
    requires o in s.db.orders && !Carries(s, o, s.db.orders[o].state)
    ensures var db' := Exec(cfg, s, steps).db; o in db'.orders && db'.orders[o].state == s.db.orders[o].state
    decreases |steps|
  {
    hide Inv, Apply, Enabled, Carries;
    if |steps| > 0 {
      StepInv(cfg, s, steps[0]);
      StuckStep(cfg, s, steps[0], o);
      StuckForever(cfg, Apply(cfg, s, steps[0]), steps[1..], o);
    }
  }

  // ---- a configuration that can end no order -----------------------------------------------

  /** Orders end by being driven on, which takes HTTP attempts, or by a simulated cancellation. */
  predicate CanEnd(cfg: Config) {
    cfg.httpAttempts > 0 || cfg.cancels
  }

  predicate NoneCancelling(s: Sys) {
    && (forall k :: k in s.tokens && s.tokens[k].Busy? ==> s.tokens[k].pc != Cancelling)
    && (forall o :: o in s.db.orders ==> s.db.orders[o].state != Cancelled)
  }

  predicate NotCancelling(s: Sys, s': Sys) {
    forall k :: k in s'.tokens && s'.tokens[k].Busy? && !(k in s.tokens && s.tokens[k] == s'.tokens[k]) ==>
      s'.tokens[k].pc != Cancelling
  }

  lemma QueueNotCancelling(cfg: Config, s: Sys, step: Step)
    requires Enabled(cfg, s, step) && (QueueStep(step) || step.Post? || step.PlacedCommit?)
    ensures NotCancelling(s, Apply(cfg, s, step))
  {
    hide NotCancelling;
    if step.Post? {
      PostNotCancelling(cfg, s, step);
    } else if CopyStep(step) || step.PlacedCommit? {
      CopyNotCancelling(cfg, s, step);
    } else {
      MoveNotCancelling(cfg, s, step);
    }
  }

  lemma PostNotCancelling(cfg: Config, s: Sys, step: Step)
    requires Enabled(cfg, s, step) && step.Post?
    ensures NotCancelling(s, Apply(cfg, s, step))
  {
    hide Apply, Enabled, PostOf;
    PostShape(cfg, s, step);
  }

  lemma CopyNotCancelling(cfg: Config, s: Sys, step: Step)
    requires Enabled(cfg, s, step) && (CopyStep(step) || step.PlacedCommit?)
    ensures NotCancelling(s, Apply(cfg, s, step))
  {
    hide RunTx, PublishBounce, Recorded, EffectTx, PostOf, PostTx, SeedTx,
         AfterRead, AfterSnap, AfterAnswer, AfterFault;
  }

  lemma MoveNotCancelling(cfg: Config, s: Sys, step: Step)
    requires Enabled(cfg, s, step) && QueueStep(step) && !CopyStep(step)
    ensures NotCancelling(s, Apply(cfg, s, step))
  {
    hide RunTx, PublishBounce, Recorded, EffectTx, PostOf, PostTx, SeedTx,
         AfterRead, AfterSnap, AfterAnswer, AfterFault;
    hide PlacedException, Routed;
  }

  lemma WorkNotCancelling(cfg: Config, s: Sys, step: Step)
    requires Enabled(cfg, s, step) && WorkStep(step) && !step.BouncePublish? && !cfg.cancels
    ensures Apply(cfg, s, step).tokens[step.k].Busy? && Apply(cfg, s, step).tokens[step.k].pc != Cancelling
  {
    hide RunTx, PlacedException, PublishBounce, Recorded, EffectTx, PostOf, PostTx, SeedTx, Returned, Routed;
  }

  lemma BounceNotCancelling(cfg: Config, s: Sys, k: nat)
    requires Enabled(cfg, s, BouncePublish(k))
    ensures NotCancelling(s, Apply(cfg, s, BouncePublish(k)))
  {
  }

  lemma TxNotCancelling(cfg: Config, s: Sys, k: nat, op: Op, cause: Cause, done: Pc)
    requires BusyAt(s, k) && done != Cancelling && op.to != Cancelled && NoneCancelling(s)
    ensures NoneCancelling(RunTx(cfg, s, k, op, cause, done))
  {
  }

  lemma NoneCancellingStep(cfg: Config, s: Sys, step: Step)
    requires !cfg.cancels && Enabled(cfg, s, step) && NoneCancelling(s)
    ensures NoneCancelling(Apply(cfg, s, step))
  {
    if step.Commit? || step.FailOrder? || step.Cancel? {
      hide RunTx, NoneCancelling;
      NoneCancellingTx(cfg, s, step);
    } else {
      NotCancellingStep(cfg, s, step);
      NotCancelledStep(cfg, s, step);
      hide Apply, Enabled;
    }
  }

  lemma NoneCancellingTx(cfg: Config, s: Sys, step: Step)
    requires step.Commit? || step.FailOrder? || step.Cancel?
    requires Enabled(cfg, s, step) && NoneCancelling(s)
    ensures NoneCancelling(Apply(cfg, s, step))
  {
    hide RunTx;
    var env := s.tokens[step.k].env;
    match step
    case Commit(k) => TxNotCancelling(cfg, s, k, HappyOp(env), Advanced, Marking);
    case FailOrder(k) => TxNotCancelling(cfg, s, k, Op(env.order, env.data.from, Failed), Refused, Acking);
    case Cancel(k) =>
  }

  lemma NotCancellingStep(cfg: Config, s: Sys, step: Step)
    requires !cfg.cancels && Enabled(cfg, s, step)
    requires !step.Commit? && !step.FailOrder? && !step.Cancel?
    ensures NotCancelling(s, Apply(cfg, s, step))
  {
    hide Apply, Enabled;
    if QueueStep(step) || step.Post? || step.PlacedCommit? {
      QueueNotCancelling(cfg, s, step);
    } else if step.BouncePublish? {
      BounceNotCancelling(cfg, s, step.k);
    } else if WorkStep(step) {
      HandlerMoves(cfg, s, step);
      WorkNotCancelling(cfg, s, step);
    } else {
      TokensUntouched(cfg, s, step);
    }
  }

  lemma NotCancelledStep(cfg: Config, s: Sys, step: Step)
    requires Enabled(cfg, s, step) && !step.Commit? && !step.FailOrder? && !step.Cancel?
    ensures var orders := Apply(cfg, s, step).db.orders;
            forall o :: o in orders && !(o in s.db.orders && s.db.orders[o] == orders[o]) ==> orders[o].state == Placed
  {
    if step.PlacedCommit? {
    } else {
      hide Apply, Enabled;
      OrdersUntouched(cfg, s, step);
    }
  }

  /** Without HTTP attempts and without cancellations every order stays in placed. */
  lemma {:induction false} NothingEnds(cfg: Config, s: Sys, steps: seq<Step>, o: OrderId)
    requires !CanEnd(cfg) && Inv(cfg, s) && NobodyPaid(s) && NoneCancelling(s) && ValidRun(cfg, s, steps)
    ensures !Finished(Exec(cfg, s, steps).db, o)
    decreases |steps|
  {
    hide Inv, Apply, Enabled, NobodyPaid, NoneCancelling;
    if |steps| > 0 {
      StepInv(cfg, s, steps[0]);
      NoAttemptsNoCalls(cfg, s, steps[0]);
      NoneCancellingStep(cfg, s, steps[0]);
      NothingEnds(cfg, Apply(cfg, s, steps[0]), steps[1..], o);
    } else if o in s.db.orders {
      UnpaidStays(cfg, s, o);
      NotCancelled(s, o);
    }
  }

  lemma NotCancelled(s: Sys, o: OrderId)
    requires NoneCancelling(s) && o in s.db.orders
    ensures s.db.orders[o].state != Cancelled
  {
  }

  // ---- cancelling out --------------------------------------------------------------------

  lemma RollOut(cfg: Config, s: Sys, k: nat, o: OrderId, st: State)
    requires cfg.cancels && PipelineRecovery.Ready(s, k, o, st) && Standing(s.db, o, st) && Cancellable(st)
    ensures var steps := [Deliver(k), Read(k), RollCancel(k)];
            && ValidRun(cfg, s, steps)
            && var s' := Exec(cfg, s, steps);
               s'.db == s.db && BusyAt(s', k) && s'.tokens[k].env == s.tokens[k].env && s'.tokens[k].pc == Cancelling
  {
    hide ValidRun, Exec;
    RunThree(cfg, s, Deliver(k), Read(k), RollCancel(k));
  }

  /** An order in an early stage can be cancelled from wherever its command is. */
  lemma CanCancel(cfg: Config, s: Sys, o: OrderId)
    requires cfg.cancels && Inv(cfg, s) && o in s.db.orders && Cancellable(s.db.orders[o].state)
    requires Carries(s, o, s.db.orders[o].state)
    ensures CanFinish(cfg, s, o)
  {
    hide DbInv, TokensInv, CallsInv, ValidRun, Exec, Standing, MovedOn;
    var st := s.db.orders[o].state;
    StandingNow(s.db, o);
    var k :| k in s.tokens && CarriesCommand(s.tokens[k], o, st);
    var fetch, j := ToWork(cfg, s, k, o, st);
    var s1 := Exec(cfg, s, fetch);
    RollOut(cfg, s1, j, o, st);
    var roll := [Deliver(j), Read(j), RollCancel(j)];
    RunAppend(cfg, s, fetch, roll);
    var s2 := Exec(cfg, s1, roll);
    hide Inv, Apply, Enabled;
    assert s2.tokens[j].env == Envelope(o, s2.tokens[j].env.attempt, AdvanceCommand(st));
    CancelWins(cfg, s2, j, o, st);
    RunOne(cfg, s2, Cancel(j));
    RunAppend(cfg, s, fetch + roll, [Cancel(j)]);
    assert Finished(Exec(cfg, s, fetch + roll + [Cancel(j)]).db, o);
  }

  lemma CancelWins(cfg: Config, s: Sys, k: nat, o: OrderId, st: State)
    requires BusyAt(s, k) && s.tokens[k].pc == Cancelling
    requires s.tokens[k].env.order == o && s.tokens[k].env.data == AdvanceCommand(st) && Standing(s.db, o, st)
    ensures Enabled(cfg, s, Cancel(k)) && Finished(Apply(cfg, s, Cancel(k)).db, o)
  {
    hide RunTx;
    ApplyClaims(cfg, s, Cancel(k));
    RunTxDb(cfg, s, k, Claim(s, Cancel(k)), CustomerCancelled, Acking);
  }

  // ---- exactly ------------------------------------------------------------------------------

  /** Something that could still reach the right handler carries what the order waits for. */
  predicate Recoverable(s: Sys, o: OrderId) {
    if o in s.db.orders then Carries(s, o, s.db.orders[o].state) else Seedable(s, o)
  }

  lemma CarriedFinishesNow(cfg: Config, s: Sys, o: OrderId)
    requires CanEnd(cfg) && Inv(cfg, s) && o in s.db.orders && !IsTerminal(s.db.orders[o].state)
    requires Carries(s, o, s.db.orders[o].state)
    requires cfg.httpAttempts <= 0 ==> Cancellable(s.db.orders[o].state)
    ensures CanFinish(cfg, s, o)
  {
    hide Inv, Carries, ValidRun, Exec;
    if cfg.httpAttempts > 0 {
      var steps := EveryOrderCanFinish(cfg, s, o);
      assert Finished(Exec(cfg, s, steps).db, o);
    } else {
      CanCancel(cfg, s, o);
    }
  }

  lemma EarlyWithoutAttempts(cfg: Config, past: seq<Step>, o: OrderId)
    requires ValidRun(cfg, INITIAL, past) && cfg.httpAttempts <= 0
    requires o in Exec(cfg, INITIAL, past).db.orders
    ensures Finished(Exec(cfg, INITIAL, past).db, o) || Exec(cfg, INITIAL, past).db.orders[o].state == Placed
  {
    hide ValidRun, Exec;
    InitInv(cfg);
    NothingConfirmedWithoutAttempts(cfg, INITIAL, past);
  }

  lemma CarriedFinishes(cfg: Config, past: seq<Step>, o: OrderId)
    requires ValidRun(cfg, INITIAL, past) && CanEnd(cfg)
    requires var s := Exec(cfg, INITIAL, past);
             o in s.db.orders && !IsTerminal(s.db.orders[o].state) && Carries(s, o, s.db.orders[o].state)
    ensures CanFinish(cfg, Exec(cfg, INITIAL, past), o)
  {
    hide ValidRun, Exec, Inv, Carries, CanFinish, CanEnd;
    Reached(cfg, past);
    if cfg.httpAttempts <= 0 {
      EarlyWithoutAttempts(cfg, past, o);
    }
    CarriedFinishesNow(cfg, Exec(cfg, INITIAL, past), o);
  }

  lemma SeedableFinishes(cfg: Config, past: seq<Step>, o: OrderId)
    requires ValidRun(cfg, INITIAL, past) && CanEnd(cfg)
    requires var s := Exec(cfg, INITIAL, past); o !in s.db.orders && Seedable(s, o)
    ensures CanFinish(cfg, Exec(cfg, INITIAL, past), o)
  {
    Reached(cfg, past);
    hide Inv, Seeds, CanFinish, JustSeeded, ValidRun, Exec;
    var s := Exec(cfg, INITIAL, past);
    var k :| k in s.tokens && Seeds(s.tokens[k], o);
    var seed := SeedFrom(cfg, s, k, o);
    RunAppend(cfg, INITIAL, past, seed);
    SeededIsCarried(Exec(cfg, s, seed), o);
    CarriedFinishes(cfg, past + seed, o);
    FinishAfter(cfg, s, seed, o);
  }

  lemma SeededIsCarried(s: Sys, o: OrderId)
    requires JustSeeded(s, o)
    ensures o in s.db.orders && !IsTerminal(s.db.orders[o].state) && Carries(s, o, s.db.orders[o].state)
  {
  }

  lemma FinishAfter(cfg: Config, s: Sys, first: seq<Step>, o: OrderId)
    requires ValidRun(cfg, s, first) && CanFinish(cfg, Exec(cfg, s, first), o)
    ensures CanFinish(cfg, s, o)
  {
    hide ValidRun, Exec, Finished;
    var s' := Exec(cfg, s, first);
    var rest :| ValidRun(cfg, s', rest) && Finished(Exec(cfg, s', rest).db, o);
    RunAppend(cfg, s, first, rest);
    assert Finished(Exec(cfg, s, first + rest).db, o);
  }

  lemma NothingFinishes(cfg: Config, past: seq<Step>, o: OrderId)
    requires ValidRun(cfg, INITIAL, past) && !CanEnd(cfg)
    ensures !CanFinish(cfg, Exec(cfg, INITIAL, past), o)
  {
    hide ValidRun, Exec, Finished;
    InitInv(cfg);
    var s := Exec(cfg, INITIAL, past);
    forall steps | ValidRun(cfg, s, steps) ensures !Finished(Exec(cfg, s, steps).db, o) {
      RunAppend(cfg, INITIAL, past, steps);
      NothingEnds(cfg, INITIAL, past + steps, o);
    }
  }

  lemma StuckDoesNotFinish(cfg: Config, s: Sys, o: OrderId)
    requires Inv(cfg, s) && o in s.db.ingest && !Finished(s.db, o) && !Recoverable(s, o)
    ensures !CanFinish(cfg, s, o)
  {
    hide Inv, ValidRun, Exec, Carries, Seedable;
    forall steps | ValidRun(cfg, s, steps) ensures !Finished(Exec(cfg, s, steps).db, o) {
      if o in s.db.orders {
        StuckForever(cfg, s, steps, o);
      } else {
        StrandedForever(cfg, s, steps, o);
      }
    }
  }

  /** In every state of every run, discards included, an accepted order can still be finished if and
      only if it is finished, or orders can end at all and some token carries what it waits for: a
      copy of its order.placed that can reach on_placed while it is not seeded, its current command
      after. */
  lemma CanStillFinish(cfg: Config, past: seq<Step>, o: OrderId)
    requires ValidRun(cfg, INITIAL, past) && o in Exec(cfg, INITIAL, past).db.ingest
    ensures var s := Exec(cfg, INITIAL, past);
            CanFinish(cfg, s, o) <==> Finished(s.db, o) || (CanEnd(cfg) && Recoverable(s, o))
  {
    Reached(cfg, past);
    hide Inv, ValidRun, Exec, CanFinish, Carries, Seedable, CanEnd;
    var s := Exec(cfg, INITIAL, past);
    if Finished(s.db, o) {
      NoSteps(cfg, s);
      FinishedCanFinish(cfg, s, o);
    } else if !CanEnd(cfg) {
      NothingFinishes(cfg, past, o);
    } else if !Recoverable(s, o) {
      StuckDoesNotFinish(cfg, s, o);
    } else if o in s.db.orders {
      CarriedFinishes(cfg, past, o);
    } else {
      SeedableFinishes(cfg, past, o);
    }
  }

  lemma FinishedCanFinish(cfg: Config, s: Sys, o: OrderId)
    requires Finished(s.db, o)
    ensures CanFinish(cfg, s, o)
  {
    hide ValidRun, Exec, Finished;
    NoSteps(cfg, s);
    assert Finished(Exec(cfg, s, []).db, o);
  }

  // ---- the last-resort nack -------------------------------------------------------------------

  /** The handler in token k holds the command that order o is waiting for. */
  predicate HoldsNeeded(s: Sys, k: nat, o: OrderId)
    requires k in s.tokens
  {
    o in s.db.orders && !IsTerminal(s.db.orders[o].state) && CarriesCommand(s.tokens[k], o, s.db.orders[o].state)
  }

  /** No other message, row or handler does. */
  predicate OnlyCarrier(s: Sys, k: nat, o: OrderId)
    requires o in s.db.orders
  {
    forall j :: j in s.tokens && j != k ==> !CarriesCommand(s.tokens[j], o, s.db.orders[o].state)
  }

  lemma DiscardDrops(cfg: Config, s: Sys, k: nat, o: OrderId)
    requires Enabled(cfg, s, Discard(k))
    ensures k in s.tokens && Apply(cfg, s, Discard(k)) == Drop(s, k)
    ensures o !in s.db.orders ==> (Recoverable(Drop(s, k), o) <==> Recoverable(s, o))
    ensures o in s.db.orders ==> (Recoverable(Drop(s, k), o) <==> !OnlyCarrier(s, k, o))
  {
    var s' := Drop(s, k);
    assert s.tokens[k].Busy? && forall j :: j in s.tokens && j != k ==> j in s'.tokens && s'.tokens[j] == s.tokens[j];
    if o !in s.db.orders && Seedable(s, o) {
      var j :| j in s.tokens && Seeds(s.tokens[j], o);
      assert Seeds(s'.tokens[j], o);
    }
    if o in s.db.orders && !OnlyCarrier(s, k, o) {
      var j :| j in s.tokens && j != k && CarriesCommand(s.tokens[j], o, s.db.orders[o].state);
      assert CarriesCommand(s'.tokens[j], o, s.db.orders[o].state);
    }
  }

  /** Exactly when the nack at the end of _fault loses an order that could still be finished: the
      discarded command is the one the order is waiting for, and nothing else carries it: no queued
      or parked copy, no row that is not stamped yet, no unacked copy. */
  lemma DiscardLosesExactly(cfg: Config, past: seq<Step>, k: nat, o: OrderId)
    requires ValidRun(cfg, INITIAL, past) && o in Exec(cfg, INITIAL, past).db.ingest
    requires Enabled(cfg, Exec(cfg, INITIAL, past), Discard(k))
    ensures var s := Exec(cfg, INITIAL, past);
            (CanFinish(cfg, s, o) && !CanFinish(cfg, Apply(cfg, s, Discard(k)), o))
            <==> (CanEnd(cfg) && HoldsNeeded(s, k, o) && OnlyCarrier(s, k, o))
  {
    hide ValidRun, Exec, Enabled, Apply, CanFinish, CanEnd, Carries, Seedable, OnlyCarrier, CarriesCommand, Recoverable;
    var s := Exec(cfg, INITIAL, past);
    RunOne(cfg, s, Discard(k));
    RunAppend(cfg, INITIAL, past, [Discard(k)]);
    DiscardDrops(cfg, s, k, o);
    CanStillFinish(cfg, past, o);
    CanStillFinish(cfg, past + [Discard(k)], o);
    CarrierCarries(s, k, o);
  }

  lemma CarrierCarries(s: Sys, k: nat, o: OrderId)
    requires k in s.tokens
    ensures HoldsNeeded(s, k, o) ==> Recoverable(s, o)
    ensures o in s.db.orders && OnlyCarrier(s, k, o) && Recoverable(s, o) && !Finished(s.db, o) ==> HoldsNeeded(s, k, o)
  {
  }

  /** The nack can lose an order for good: after this run the accepted order has a row, no envelope
      anywhere, and no continuation that finishes it. */
  lemma LostForGood(cfg: Config, o: OrderId, key: string, total: int) returns (past: seq<Step>)
    requires total <= INT4_MAX
    ensures ValidRun(cfg, INITIAL, past)
    ensures var s := Exec(cfg, INITIAL, past);
            Unfinished(s.db, o) && s.tokens == map[] && !CanFinish(cfg, s, o)
  {
    past := DiscardLosesAnOrder(cfg, o, key, total);
    hide ValidRun, Exec, CanFinish;
    CanStillFinish(cfg, past, o);
  }

  // ---- charged and cancelled ---------------------------------------------------------------

  /** The order was cancelled although its payment succeeded. */
  predicate CancelledPaid(db: Db, o: OrderId) {
    && o in db.orders && db.orders[o].state == Cancelled
    && exists op :: op in db.charges && db.charges[op].order == o && db.charges[op].status == Succeeded
  }

  lemma {:induction false} NoneCancelled(cfg: Config, s: Sys, steps: seq<Step>)
    requires !cfg.cancels && NoneCancelling(s) && ValidRun(cfg, s, steps)
    ensures NoneCancelling(Exec(cfg, s, steps))
    decreases |steps|
  {
    hide Apply, Enabled, NoneCancelling;
    if |steps| > 0 {
      NoneCancellingStep(cfg, s, steps[0]);
      NoneCancelled(cfg, Apply(cfg, s, steps[0]), steps[1..]);
    }
  }

  lemma {:induction false} NoneCharged(cfg: Config, s: Sys, steps: seq<Step>)
    requires cfg.httpAttempts <= 0 && NobodyPaid(s) && ValidRun(cfg, s, steps)
    ensures NobodyPaid(Exec(cfg, s, steps))
    decreases |steps|
  {
    hide Apply, Enabled, NobodyPaid;
    if |steps| > 0 {
      NoAttemptsNoCalls(cfg, s, steps[0]);
      NoneCharged(cfg, Apply(cfg, s, steps[0]), steps[1..]);
    }
  }

  lemma BackToWork(cfg: Config, o: OrderId, key: string, total: int)
    ensures var s := Charging(o, key, total);
            var s1 := s.(tokens := map[3 := Work(Envelope(o, 1, AdvanceCommand(Placed)))]);
            && Enabled(cfg, s, Redeliver(3)) && Apply(cfg, s, Redeliver(3)) == s1
            && Enabled(cfg, s1, Deliver(3)) && Apply(cfg, s1, Deliver(3)) == Handling(o, s.db, s.calls, 5, Begin)
  {
  }

  lemma RollOne(cfg: Config, o: OrderId, db: Db, calls: map<nat, Call>, next: nat, total: int)
    requires cfg.cancels && o in db.orders && db.orders[o] == OrderRow(Placed, total)
    ensures var s, steps := Handling(o, db, calls, next, Begin), [Step.Read(3), RollCancel(3)];
            ValidRun(cfg, s, steps) && Exec(cfg, s, steps) == Handling(o, db, calls, next, Cancelling)
  {
    hide ValidRun, Exec;
    ReadOne(cfg, o, db, calls, next, total);
    RunTwo(cfg, Handling(o, db, calls, next, Begin), Step.Read(3), RollCancel(3));
  }

  lemma CancelOne(cfg: Config, o: OrderId, key: string, total: int)
    ensures var c := Charging(o, key, total);
            var s := Handling(o, c.db, c.calls, 5, Cancelling);
            Enabled(cfg, s, Cancel(3)) && CancelledPaid(Apply(cfg, s, Cancel(3)).db, o)
  {
    hide RunTx;
    var c := Charging(o, key, total);
    var s, op := Handling(o, c.db, c.calls, 5, Cancelling), Op(o, Placed, Cancelled);
    RunTxDb(cfg, s, 3, op, CustomerCancelled, Acking);
    assert Op(o, Placed, Confirmed) in c.db.charges;
  }

  /** The connection is lost while the answer of the payment service is on its way; the redelivered
      command rolls a cancellation. */
  lemma CancelledAfterCharge(cfg: Config, o: OrderId, key: string, total: int) returns (steps: seq<Step>)
    requires cfg.cancels && cfg.httpAttempts > 0 && total <= INT4_MAX
    ensures ValidRun(cfg, INITIAL, steps) && CancelledPaid(Exec(cfg, INITIAL, steps).db, o)
  {
    hide ValidRun, Exec, CancelledPaid;
    var charge := ChargeOne(cfg, o, key, total);
    var s := Charging(o, key, total);
    var back, roll := [Redeliver(3), Deliver(3)], [Step.Read(3), RollCancel(3)];
    BackToWork(cfg, o, key, total);
    RollOne(cfg, o, s.db, s.calls, 5, total);
    CancelOne(cfg, o, key, total);
    hide Apply, Enabled, Charging, Handling;
    RunTwo(cfg, s, Redeliver(3), Deliver(3));
    RunOne(cfg, Handling(o, s.db, s.calls, 5, Cancelling), Cancel(3));
    RunAppend(cfg, INITIAL, charge, back);
    RunAppend(cfg, INITIAL, charge + back, roll);
    RunAppend(cfg, INITIAL, charge + back + roll, [Cancel(3)]);
    steps := charge + back + roll + [Cancel(3)];
  }

  /** A cancelled order has not been charged, over all runs, exactly if no cancellation is ever rolled or
      no payment is ever requested. */
  lemma CancelledUnpaidIff(cfg: Config)
    ensures (forall run, o :: ValidRun(cfg, INITIAL, run) ==> !CancelledPaid(Exec(cfg, INITIAL, run).db, o))
            <==> !cfg.cancels || cfg.httpAttempts <= 0
  {
    hide ValidRun, Exec;
    if cfg.cancels && cfg.httpAttempts > 0 {
      var run := CancelledAfterCharge(cfg, "", "", 0);
    } else {
      forall run, o | ValidRun(cfg, INITIAL, run) ensures !CancelledPaid(Exec(cfg, INITIAL, run).db, o) {
        if !cfg.cancels {
          NoneCancelled(cfg, INITIAL, run);
        } else {
          NoneCharged(cfg, INITIAL, run);
        }
      }
    }
  }
}
