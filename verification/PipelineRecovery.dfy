/** The pipeline recovers: whatever happened so far, every seeded order can still be brought to a
    terminal state, starting from the one envelope that NoOrderLost says is there. */
module PipelineRecovery {
  import opened Lifecycle
  import opened Pipeline
  import opened PipelineInvariant
  import opened PipelineNoLoss
  import opened PipelineTheorems
  import opened PipelineLimits

  /** Order o is in state st, and no handler has yet applied a step from it. */
  predicate Standing(db: Db, o: OrderId, st: State) {
    && o in db.orders && db.orders[o].state == st && !IsTerminal(st)
    && forall op :: op in db.ops && op.order == o ==> op.from != st
  }

  lemma StandingNow(db: Db, o: OrderId)
    requires DbInv(db) && o in db.orders && !IsTerminal(db.orders[o].state)
    ensures Standing(db, o, db.orders[o].state)
  {
    hide DbInv;
    forall op | op in db.ops && op.order == o ensures op.from != db.orders[o].state {
      CurrentNotLeft(db, op);
    }
  }

  predicate Ready(s: Sys, k: nat, o: OrderId, st: State) {
    k in s.tokens && s.tokens[k].Work? && s.tokens[k].env.order == o && s.tokens[k].env.data == AdvanceCommand(st)
  }

  /** A published row that is not stamped yet, and a parking whose copy was replayed, can be sent again. */
  lemma SentAgain(cfg: Config, s: Sys, k: nat, o: OrderId, st: State) returns (steps: seq<Step>)
    requires k in s.tokens && CarriesCommand(s.tokens[k], o, st) && s.next !in s.tokens
    requires (s.tokens[k].Outbox? && s.tokens[k].published) || (s.tokens[k].Dlq? && s.tokens[k].replayed)
    ensures ValidRun(cfg, s, steps) && NeverDiscards(steps)
    ensures var s' := Exec(cfg, s, steps); s'.db == s.db && Ready(s', s.next, o, st)
  {
    hide ValidRun, Exec;
    if s.tokens[k].Outbox? {
      steps := [RelayAbort(k), RelayPublish(k)];
      RunTwo(cfg, s, RelayAbort(k), RelayPublish(k));
    } else {
      steps := [Redeliver(k), ReplayPublish(k)];
      RunTwo(cfg, s, Redeliver(k), ReplayPublish(k));
    }
  }

  /** Wherever the command is, at most two steps bring a copy of it to the work queue. */
  lemma ToWork(cfg: Config, s: Sys, k: nat, o: OrderId, st: State) returns (steps: seq<Step>, j: nat)
    requires Inv(cfg, s) && k in s.tokens && CarriesCommand(s.tokens[k], o, st)
    ensures ValidRun(cfg, s, steps) && NeverDiscards(steps)
    ensures var s' := Exec(cfg, s, steps); s'.db == s.db && Ready(s', j, o, st)
  {
    hide DbInv, TokensInv, CallsInv, EnvOk, PcOk, ValidRun, Exec;
    var t := s.tokens[k];
    TokenOf(cfg, s, k);
    FreshTokens(cfg, s);
    hide Inv;
    j := if t.Outbox? || t.Dlq? then s.next else k;
    if t.Work? {
      steps := [];
      NoSteps(cfg, s);
    } else if (t.Outbox? && t.published) || (t.Dlq? && t.replayed) {
      steps := SentAgain(cfg, s, k, o, st);
    } else {
      var step :=
        match t
        case Outbox(_, _) => RelayPublish(k)
        case Dlq(_, _) => ReplayPublish(k)
        case Retry(_) => RetryExpire(k)
        case _ => Redeliver(k);
      steps := [step];
      RunOne(cfg, s, step);
    }
  }

  lemma NoSteps(cfg: Config, s: Sys)
    ensures ValidRun(cfg, s, []) && Exec(cfg, s, []) == s
  {
  }

  /** Deliver, read and decide: the command is current, so the handler calls out or is cleared. */
  lemma ToDecision(cfg: Config, s: Sys, k: nat, o: OrderId, st: State)
    requires Ready(s, k, o, st) && Standing(s.db, o, st)
    ensures var steps := [Deliver(k), Read(k), Proceed(k)];
            && ValidRun(cfg, s, steps)
            && var s' := Exec(cfg, s, steps);
               && s'.db == s.db && s'.calls == s.calls && s'.next == s.next
               && k in s'.tokens && s'.tokens[k].Busy? && s'.tokens[k].env == s.tokens[k].env
               && TargetOf(s.tokens[k].env).Some?
               && s'.tokens[k].pc == (if StageDownstream(TargetOf(s.tokens[k].env).value).Some?
                                      then Calling(s.db.orders[o].total, 0, None) else Cleared)
  {
    hide ValidRun, Exec;
    RunThree(cfg, s, Deliver(k), Read(k), Proceed(k));
  }

  /** The handler has been told yes or no; the orders are as they were. */
  predicate Told(s: Sys, s': Sys, k: nat) {
    && s'.db.orders == s.db.orders && s'.db.ops == s.db.ops
    && k in s.tokens && k in s'.tokens && s'.tokens[k].Busy? && s'.tokens[k].env == s.tokens[k].env
    && (s'.tokens[k].pc == Cleared || s'.tokens[k].pc == Rejected)
  }

  /** One request, answered from the table or by claiming the effect. */
  lemma ToAnswer(cfg: Config, s: Sys, k: nat) returns (steps: seq<Step>)
    requires cfg.httpAttempts > 0 && s.next !in s.tokens
    requires BusyAt(s, k) && s.tokens[k].pc.Calling? && s.tokens[k].pc.tries == 0 && s.tokens[k].pc.call == None
    requires TargetOf(s.tokens[k].env).Some? && StageDownstream(TargetOf(s.tokens[k].env).value).Some?
    ensures ValidRun(cfg, s, steps) && NeverDiscards(steps) && Told(s, Exec(cfg, s, steps), k)
  {
    var c, op := s.next, HappyOp(s.tokens[k].env);
    if Recorded(s.db, op).Some? {
      steps := [Send(k), CallLookup(c), TakeAnswer(k)];
      RecordedAnswer(cfg, s, k);
    } else {
      steps := [Send(k), CallLookup(c)] + [CallClaim(c, false, ""), TakeAnswer(k)];
      ClaimedAnswer(cfg, s, k);
    }
  }

  lemma RecordedAnswer(cfg: Config, s: Sys, k: nat)
    requires cfg.httpAttempts > 0 && s.next !in s.tokens
    requires BusyAt(s, k) && s.tokens[k].pc.Calling? && s.tokens[k].pc.tries == 0 && s.tokens[k].pc.call == None
    requires TargetOf(s.tokens[k].env).Some? && Recorded(s.db, HappyOp(s.tokens[k].env)).Some?
    ensures var steps := [Send(k), CallLookup(s.next), TakeAnswer(k)];
            ValidRun(cfg, s, steps) && Told(s, Exec(cfg, s, steps), k)
  {
    hide ValidRun, Exec;
    var a := Recorded(s.db, HappyOp(s.tokens[k].env)).value;
    RecordedIsDefinitive(s.db, HappyOp(s.tokens[k].env));
    hide Recorded;
    AskAndHear(cfg, s, k, a);
    RunThree(cfg, s, Send(k), CallLookup(s.next), TakeAnswer(k));
  }

  /** The request finds the recorded answer. */
  lemma AskAndHear(cfg: Config, s: Sys, k: nat, a: Answer)
    requires cfg.httpAttempts > 0 && s.next !in s.tokens
    requires BusyAt(s, k) && s.tokens[k].pc.Calling? && s.tokens[k].pc.tries == 0 && s.tokens[k].pc.call == None
    requires TargetOf(s.tokens[k].env).Some? && Recorded(s.db, HappyOp(s.tokens[k].env)) == Some(a)
    ensures Enabled(cfg, s, Send(k)) && Enabled(cfg, Apply(cfg, s, Send(k)), CallLookup(s.next))
    ensures var s' := Apply(cfg, Apply(cfg, s, Send(k)), CallLookup(s.next));
            && s'.db == s.db && k in s'.tokens
            && s'.tokens[k] == s.tokens[k].(pc := Calling(s.tokens[k].pc.total, 0, Some(s.next)))
            && s.next in s'.calls && s'.calls[s.next].cpc == Answered(a)
  {
  }

  lemma RecordedIsDefinitive(db: Db, op: Op)
    requires Recorded(db, op).Some?
    ensures var a := Recorded(db, op).value; a.Approved? || a.CardDeclined? || a.Fulfilled?
  {
  }

  lemma EffectIsRecorded(db: Db, call: Call, declined: bool, intent: string)
    requires StageDownstream(call.op.to).Some?
    ensures Recorded(EffectTx(db, call, declined, intent), call.op).Some?
  {
  }

  /** The request is at the service and found nothing recorded. */
  lemma SendAndMiss(cfg: Config, s: Sys, k: nat)
    requires cfg.httpAttempts > 0 && s.next !in s.tokens
    requires BusyAt(s, k) && s.tokens[k].pc.Calling? && s.tokens[k].pc.tries == 0 && s.tokens[k].pc.call == None
    requires TargetOf(s.tokens[k].env).Some? && Recorded(s.db, HappyOp(s.tokens[k].env)) == None
    ensures var steps := [Send(k), CallLookup(s.next)];
            && ValidRun(cfg, s, steps)
            && var s' := Exec(cfg, s, steps);
               && s'.db == s.db && k in s'.tokens && s'.tokens[k].Busy? && s'.tokens[k].env == s.tokens[k].env
               && s'.tokens[k].pc.Calling? && s'.tokens[k].pc.call == Some(s.next)
               && s.next in s'.calls && s'.calls[s.next] == Call(HappyOp(s.tokens[k].env), s.tokens[k].pc.total, Missed)
  {
    hide ValidRun, Exec, Recorded;
    RunTwo(cfg, s, Send(k), CallLookup(s.next));
  }

  /** The service claims the effect and answers. */
  lemma ClaimAndAnswer(cfg: Config, s: Sys, k: nat, c: nat)
    requires BusyAt(s, k) && s.tokens[k].pc.Calling? && s.tokens[k].pc.call == Some(c)
    requires c in s.calls && s.calls[c].cpc == Missed && StageDownstream(s.calls[c].op.to).Some?
    ensures var steps := [CallClaim(c, false, ""), TakeAnswer(k)];
            ValidRun(cfg, s, steps) && Told(s, Exec(cfg, s, steps), k)
  {
    hide ValidRun, Exec;
    var db' := EffectTx(s.db, s.calls[c], false, "");
    EffectIsRecorded(s.db, s.calls[c], false, "");
    EffectOrders(s.db, s.calls[c], false, "");
    RecordedIsDefinitive(db', s.calls[c].op);
    var a := Recorded(db', s.calls[c].op).value;
    hide Recorded, EffectTx;
    var s1 := Apply(cfg, s, CallClaim(c, false, ""));
    assert s1 == SetCall(s.(db := db'), c, Answered(a));
    RunTwo(cfg, s, CallClaim(c, false, ""), TakeAnswer(k));
  }

  lemma ClaimedAnswer(cfg: Config, s: Sys, k: nat)
    requires cfg.httpAttempts > 0 && s.next !in s.tokens
    requires BusyAt(s, k) && s.tokens[k].pc.Calling? && s.tokens[k].pc.tries == 0 && s.tokens[k].pc.call == None
    requires TargetOf(s.tokens[k].env).Some? && StageDownstream(TargetOf(s.tokens[k].env).value).Some?
    requires Recorded(s.db, HappyOp(s.tokens[k].env)) == None
    ensures var steps := [Send(k), CallLookup(s.next)] + [CallClaim(s.next, false, ""), TakeAnswer(k)];
            ValidRun(cfg, s, steps) && Told(s, Exec(cfg, s, steps), k)
  {
    hide ValidRun, Exec, Recorded, Apply, Enabled;
    var ask, answer := [Send(k), CallLookup(s.next)], [CallClaim(s.next, false, ""), TakeAnswer(k)];
    SendAndMiss(cfg, s, k);
    ClaimAndAnswer(cfg, Exec(cfg, s, ask), k, s.next);
    RunAppend(cfg, s, ask, answer);
  }

  /** Order o is past state st, and unless it is finished its next command is in the outbox. */
  predicate MovedOn(s: Sys, o: OrderId, st: State) {
    && o in s.db.orders && Rank(s.db.orders[o].state) > Rank(st)
    && (IsTerminal(s.db.orders[o].state) || InOutbox(s, o, s.db.orders[o].state))
  }

  /** The command that moves order o on from state st is an outbox row that no relay has published. */
  predicate InOutbox(s: Sys, o: OrderId, st: State) {
    exists k :: k in s.tokens && s.tokens[k] == AdvanceRow(o, st)
  }

  lemma MovedIsCarried(s: Sys, o: OrderId, st: State)
    requires MovedOn(s, o, st)
    ensures IsTerminal(s.db.orders[o].state) || Carries(s, o, s.db.orders[o].state)
  {
    if !IsTerminal(s.db.orders[o].state) {
      var k :| k in s.tokens && s.tokens[k] == AdvanceRow(o, s.db.orders[o].state);
      assert CarriesCommand(s.tokens[k], o, s.db.orders[o].state);
    }
  }

  lemma AppliedMovesOn(cfg: Config, s: Sys, k: nat, op: Op, cause: Cause, done: Pc)
    requires BusyAt(s, k) && TxOf(s.db, op) == Applied && Rank(op.to) > Rank(op.from)
    requires cause == Advanced || IsTerminal(op.to)
    ensures MovedOn(RunTx(cfg, s, k, op, cause, done), op.order, op.from)
  {
    var s' := RunTx(cfg, s, k, op, cause, done);
    if !IsTerminal(op.to) {
      assert s'.tokens[s.next] == AdvanceRow(op.order, op.to);
    }
  }

  /** The transaction of a handler that was told, or rolled a cancellation, wins, because nobody has
      left the state yet. */
  lemma ToNextState(cfg: Config, s: Sys, k: nat, o: OrderId, st: State) returns (step: Step)
    requires BusyAt(s, k) && s.tokens[k].env.order == o && s.tokens[k].env.data == AdvanceCommand(st)
    requires s.tokens[k].pc == Cleared || s.tokens[k].pc == Rejected || s.tokens[k].pc == Cancelling
    requires Standing(s.db, o, st)
    ensures Enabled(cfg, s, step) && !step.Discard? && MovedOn(Apply(cfg, s, step), o, st)
  {
    hide RunTx, MovedOn;
    step := if s.tokens[k].pc == Cleared then Commit(k)
            else if s.tokens[k].pc == Rejected then FailOrder(k) else Cancel(k);
    var op := Claim(s, step);
    assert TxOf(s.db, op) == Applied && Rank(op.to) > Rank(op.from);
    var cause := if step.Commit? then Advanced else if step.FailOrder? then Refused else CustomerCancelled;
    ApplyClaims(cfg, s, step);
    AppliedMovesOn(cfg, s, k, op, cause, if step.Commit? then Marking else Acking);
  }

  /** One lifecycle step from wherever the order's command is. */
  lemma AdvanceOnce(cfg: Config, s: Sys, o: OrderId) returns (steps: seq<Step>)
    requires cfg.httpAttempts > 0 && Inv(cfg, s)
    requires o in s.db.orders && !IsTerminal(s.db.orders[o].state) && Carries(s, o, s.db.orders[o].state)
    ensures ValidRun(cfg, s, steps) && NeverDiscards(steps)
    ensures MovedOn(Exec(cfg, s, steps), o, s.db.orders[o].state)
  {
    hide DbInv, TokensInv, CallsInv, ValidRun, Exec, Standing, MovedOn;
    var st := s.db.orders[o].state;
    StandingNow(s.db, o);
    FreshTokens(cfg, s);
    var k :| k in s.tokens && CarriesCommand(s.tokens[k], o, st);
    var fetch, j := ToWork(cfg, s, k, o, st);
    var s1 := Exec(cfg, s, fetch);
    RunInv(cfg, s, fetch);
    FreshTokens(cfg, s1);
    ToDecision(cfg, s1, j, o, st);
    var decide := [Deliver(j), Read(j), Proceed(j)];
    var s2 := Exec(cfg, s1, decide);
    RunAppend(cfg, s, fetch, decide);
    RunInv(cfg, s1, decide);
    FreshTokens(cfg, s2);
    var ask := [];
    hide Inv, Ready, Apply, Enabled;
    if s2.tokens[j].pc.Calling? {
      ask := ToAnswer(cfg, s2, j);
    } else {
      NoSteps(cfg, s2);
    }
    var s3 := Exec(cfg, s2, ask);
    assert Told(s2, s3, j);
    RunAppend(cfg, s, fetch + decide, ask);
    StandingSame(s2.db, s3.db, o, st);
    var step := ToNextState(cfg, s3, j, o, st);
    RunOne(cfg, s3, step);
    RunAppend(cfg, s, fetch + decide + ask, [step]);
    steps := fetch + decide + ask + [step];
  }

  lemma StandingSame(db: Db, db': Db, o: OrderId, st: State)
    requires Standing(db, o, st) && db'.orders == db.orders && db'.ops == db.ops
    ensures Standing(db', o, st)
  {
  }

  /** From every reachable state, an order that some token carries the current command of can still
      be finished, if the HTTP client makes at least one attempt per call. */
  lemma {:induction false} EveryOrderCanFinish(cfg: Config, s: Sys, o: OrderId) returns (steps: seq<Step>)
    requires cfg.httpAttempts > 0 && Inv(cfg, s) && o in s.db.orders
    requires IsTerminal(s.db.orders[o].state) || Carries(s, o, s.db.orders[o].state)
    ensures ValidRun(cfg, s, steps) && NeverDiscards(steps)
    ensures var db' := Exec(cfg, s, steps).db; o in db'.orders && IsTerminal(db'.orders[o].state)
    decreases 8 - Rank(s.db.orders[o].state)
  {
    hide Inv, ValidRun, Exec;
    if IsTerminal(s.db.orders[o].state) {
      steps := [];
      NoSteps(cfg, s);
    } else {
      var first := AdvanceOnce(cfg, s, o);
      RunInv(cfg, s, first);
      MovedIsCarried(Exec(cfg, s, first), o, s.db.orders[o].state);
      var rest := EveryOrderCanFinish(cfg, Exec(cfg, s, first), o);
      RunAppend(cfg, s, first, rest);
      steps := first + rest;
    }
  }

  /** While nothing was discarded, every unfinished seeded order is carried. */
  lemma LiveIsCarried(cfg: Config, s: Sys, o: OrderId)
    requires Inv(cfg, s) && NoneLost(s) && o in s.db.orders && !IsTerminal(s.db.orders[o].state)
    ensures Carries(s, o, s.db.orders[o].state)
  {
    hide DbInv, TokensInv, CallsInv, NoneLost;
    IngestedFirst(s.db, o);
    LiveAll(s);
    assert Live(s, o);
    var k :| k in s.tokens && Serves(s.db, s.tokens[k], o);
    assert CarriesCommand(s.tokens[k], o, s.db.orders[o].state);
  }

  /** After any run, an order that entered the pipeline can still be finished, without another nack, if
      no last-resort nack happened in it, or if the order is finished or its command is carried. */
  lemma RecoversAfterAnyRun(cfg: Config, past: seq<Step>, o: OrderId) returns (steps: seq<Step>)
    requires cfg.httpAttempts > 0 && ValidRun(cfg, INITIAL, past)
    requires o in Exec(cfg, INITIAL, past).db.orders
    requires var s := Exec(cfg, INITIAL, past);
             NeverDiscards(past) || IsTerminal(s.db.orders[o].state) || Carries(s, o, s.db.orders[o].state)
    ensures ValidRun(cfg, INITIAL, past + steps) && NeverDiscards(steps)
    ensures var db := Exec(cfg, INITIAL, past + steps).db; o in db.orders && IsTerminal(db.orders[o].state)
  {
    hide Inv, NoneLost, Carries;
    hide ValidRun, Exec, NeverDiscards;
    InitInv(cfg);
    InitLive();
    Reached(cfg, past);
    var s := Exec(cfg, INITIAL, past);
    if NeverDiscards(past) && !IsTerminal(s.db.orders[o].state) {
      RunLive(cfg, INITIAL, past);
      LiveIsCarried(cfg, s, o);
    }
    steps := EveryOrderCanFinish(cfg, s, o);
    RunAppend(cfg, INITIAL, past, steps);
  }

  // ---- the other half: without an HTTP attempt nothing is ever confirmed ------------

  /** No handler holds or can get a yes from the payment service. */
  predicate NobodyPaid(s: Sys) {
    && s.calls == map[] && s.db.charges == map[]
  }

  /** With HTTP_MAX_RETRIES below zero the retry loop never sends, so no order is ever paid for and
      none leaves placed except by cancellation. */
  lemma NoAttemptsNoCalls(cfg: Config, s: Sys, step: Step)
    requires cfg.httpAttempts <= 0 && NobodyPaid(s) && Enabled(cfg, s, step)
    ensures NobodyPaid(Apply(cfg, s, step))
  {
    if step.Commit? || step.FailOrder? || step.Cancel? {
      TxSendsNothing(cfg, s, step);
    } else {
      hide Recorded, EffectTx, PostOf, AfterRead, AfterSnap, AfterAnswer, AfterFault, Returned, Routed, RunTx;
    }
  }

  lemma RunTxSendsNothing(cfg: Config, s: Sys, k: nat, op: Op, cause: Cause, done: Pc)
    requires BusyAt(s, k)
    ensures var s' := RunTx(cfg, s, k, op, cause, done); s'.calls == s.calls && s'.db.charges == s.db.charges
  {
  }

  lemma TxSendsNothing(cfg: Config, s: Sys, step: Step)
    requires step.Commit? || step.FailOrder? || step.Cancel?
    requires Enabled(cfg, s, step)
    ensures Apply(cfg, s, step).calls == s.calls && Apply(cfg, s, step).db.charges == s.db.charges
  {
    hide RunTx;
    var env := s.tokens[step.k].env;
    match step
    case Commit(k) => RunTxSendsNothing(cfg, s, k, HappyOp(env), Advanced, Marking);
    case FailOrder(k) => RunTxSendsNothing(cfg, s, k, Op(env.order, env.data.from, Failed), Refused, Acking);
    case Cancel(k) =>
      RunTxSendsNothing(cfg, s, k, Op(env.order, env.data.from, Cancelled), CustomerCancelled, Acking);
  }

  predicate NoneConfirmed(db: Db) {
    forall o :: o in db.orders ==> db.orders[o].state == Placed || db.orders[o].state == Cancelled
  }

  lemma {:induction false} NothingConfirmedWithoutAttempts(cfg: Config, s: Sys, steps: seq<Step>)
    requires cfg.httpAttempts <= 0 && Inv(cfg, s) && NobodyPaid(s) && ValidRun(cfg, s, steps)
    ensures NoneConfirmed(Exec(cfg, s, steps).db)
    decreases |steps|
  {
    hide Inv, Apply, Enabled, NobodyPaid;
    if |steps| > 0 {
      NoAttemptsNoCalls(cfg, s, steps[0]);
      StepInv(cfg, s, steps[0]);
      NothingConfirmedWithoutAttempts(cfg, Apply(cfg, s, steps[0]), steps[1..]);
    } else {
      forall o | o in s.db.orders ensures s.db.orders[o].state == Placed || s.db.orders[o].state == Cancelled {
        UnpaidStays(cfg, s, o);
      }
    }
  }

  lemma SecondRow(log: seq<Trans>, state: State)
    requires Chain(log, state) && |log| > 1
    ensures StepOk(log[0].to, log[1].to)
  {
  }

  lemma UnpaidStays(cfg: Config, s: Sys, o: OrderId)
    requires Inv(cfg, s) && NobodyPaid(s) && o in s.db.orders
    ensures s.db.orders[o].state == Placed || s.db.orders[o].state == Cancelled
  {
    hide DbInv, TokensInv, CallsInv;
    OrderOf(s.db, o);
    var log := s.db.log[o];
    if |log| > 1 { SecondRow(log, s.db.orders[o].state); }
    if |log| > 0 {
      assert StepOk(log[0].from, log[0].to);
      assert Justified(s.db, Op(o, log[0].from, log[0].to));
    }
  }
}
