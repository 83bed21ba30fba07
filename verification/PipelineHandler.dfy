/** The handlers of the pipeline are those of the classes: one uninterrupted delivery handled by
    OrchestratorDb.Advance, and one call made by HttpClient.PostJson, are runs of the pipeline with the
    same outcome. */
module PipelineHandler {
  import opened Lifecycle
  import opened Pipeline
  import opened PipelineTheorems
  import opened PipelineLimits
  import opened PipelineMessages
  import O = OrchestratorDb
  import H = HttpClient
  import B = CircuitBreaker
  import PipelineRecovery

  // ---- single steps of one handler --------------------------------------------------------

  /** Token k is a fresh delivery of an order.advance, not read yet. */
  predicate JustDelivered(s: Sys, k: nat) {
    && BusyAt(s, k) && s.tokens[k].pc == Begin && !s.tokens[k].faulted
    && s.tokens[k].att == s.tokens[k].env.attempt && s.tokens[k].env.data.AdvanceCommand?
  }

  lemma MoveMove(s: Sys, k: nat, a: Token, b: Token)
    requires k in s.tokens
    ensures Move(Move(s, k, a), k, b) == Move(s, k, b) && Drop(Move(s, k, a), k) == Drop(s, k)
  {
    assert s.tokens[k := a] - {k} == s.tokens - {k};
  }

  /** The handler stands at pc, and nothing else has changed since s. */
  function AtPc(s: Sys, k: nat, pc: Pc): Sys
    requires BusyAt(s, k)
  {
    Move(s, k, s.tokens[k].(pc := pc))
  }

  lemma ReadIs(cfg: Config, s: Sys, k: nat)
    requires JustDelivered(s, k)
    ensures Enabled(cfg, s, Step.Read(k))
    ensures var env := s.tokens[k].env;
            if env.order !in s.db.orders then Apply(cfg, s, Step.Read(k)) == AtPc(s, k, Bounce)
            else if s.db.orders[env.order].state != env.data.from || IsTerminal(env.data.from)
              then Apply(cfg, s, Step.Read(k)) == AtPc(s, k, Acking)
            else Apply(cfg, s, Step.Read(k)) == AtPc(s, k, Snap(s.db.orders[env.order].total))
  {
  }

  lemma AckIs(cfg: Config, s: Sys, k: nat)
    requires BusyAt(s, k)
    ensures var s1 := AtPc(s, k, Acking); Enabled(cfg, s1, Ack(k)) && Apply(cfg, s1, Ack(k)) == Drop(s, k)
  {
    MoveMove(s, k, s.tokens[k].(pc := Acking), s.tokens[k]);
  }

  lemma RollIs(cfg: Config, s: Sys, k: nat, total: int)
    requires BusyAt(s, k) && s.tokens[k].env.data.AdvanceCommand?
    requires cfg.cancels && Cancellable(s.tokens[k].env.data.from)
    ensures var s1 := AtPc(s, k, Snap(total));
            Enabled(cfg, s1, RollCancel(k)) && Apply(cfg, s1, RollCancel(k)) == AtPc(s, k, Cancelling)
  {
    MoveMove(s, k, s.tokens[k].(pc := Snap(total)), s.tokens[k].(pc := Cancelling));
  }

  lemma SkipIs(cfg: Config, s: Sys, k: nat, total: int)
    requires BusyAt(s, k) && TargetOf(s.tokens[k].env).Some?
    requires HappyOp(s.tokens[k].env) in s.db.redis && HappyOp(s.tokens[k].env) in s.db.ops
    ensures var s1 := AtPc(s, k, Snap(total));
            Enabled(cfg, s1, DedupSkip(k)) && Apply(cfg, s1, DedupSkip(k)) == AtPc(s, k, Acking)
  {
    MoveMove(s, k, s.tokens[k].(pc := Snap(total)), s.tokens[k].(pc := Acking));
  }

  lemma ProceedIs(cfg: Config, s: Sys, k: nat, total: int)
    requires BusyAt(s, k) && TargetOf(s.tokens[k].env).Some?
    ensures var s1 := AtPc(s, k, Snap(total));
            && Enabled(cfg, s1, Proceed(k))
            && Apply(cfg, s1, Proceed(k))
               == AtPc(s, k, if StageDownstream(TargetOf(s.tokens[k].env).value).Some? then Calling(total, 0, None)
                             else Cleared)
  {
    MoveMove(s, k, s.tokens[k].(pc := Snap(total)),
             s.tokens[k].(pc := if StageDownstream(TargetOf(s.tokens[k].env).value).Some? then Calling(total, 0, None)
                                else Cleared));
  }

  lemma RejectIs(cfg: Config, s: Sys, k: nat, total: int)
    requires BusyAt(s, k)
    ensures var s1 := AtPc(s, k, Calling(total, 0, None));
            Enabled(cfg, s1, BreakerReject(k)) && Apply(cfg, s1, BreakerReject(k)) == AtPc(s, k, Bounce)
  {
    MoveMove(s, k, s.tokens[k].(pc := Calling(total, 0, None)), s.tokens[k].(pc := Bounce));
  }

  /** Bounce, then ack: what is left is the copy. */
  lemma BounceIs(cfg: Config, s: Sys, k: nat) returns (steps: seq<Step>)
    requires BusyAt(s, k) && s.next !in s.tokens
    ensures steps == [BouncePublish(k), Ack(k)] && ValidRun(cfg, AtPc(s, k, Bounce), steps)
    ensures Exec(cfg, AtPc(s, k, Bounce), steps)
            == Spawn(Drop(s, k), Bounced(cfg, s.tokens[k].env.(attempt := s.tokens[k].att)))
  {
    hide ValidRun, Exec;
    steps := [BouncePublish(k), Ack(k)];
    var s1 := AtPc(s, k, Bounce);
    RunTwo(cfg, s1, BouncePublish(k), Ack(k));
    var copy := Bounced(cfg, s.tokens[k].env.(attempt := s.tokens[k].att));
    var s2 := Apply(cfg, s1, BouncePublish(k));
    assert s2.tokens - {k} == (s.tokens - {k})[s.next := copy];
  }

  // ---- the request to a downstream ----------------------------------------------------------

  /** The service's tables after a request: as they are if the effect is recorded, with it if not. */
  function Effected(db: Db, call: Call, declined: bool): Db {
    if Recorded(db, call.op).Some? then db else EffectTx(db, call, declined, "")
  }

  predicate Answers(db: Db, op: Op, declined: bool) {
    && StageDownstream(op.to).Some? && (declined ==> op.to == Confirmed)
    && (Recorded(db, op).Some? ==> (declined <==> Recorded(db, op).value.CardDeclined?))
  }

  lemma ClaimAnswers(db: Db, call: Call, declined: bool)
    requires Answers(db, call.op, declined) && Recorded(db, call.op) == None
    ensures var a := Recorded(EffectTx(db, call, declined, ""), call.op);
            && a.Some? && (declined <==> a.value.CardDeclined?)
            && (a.value.Approved? || a.value.CardDeclined? || a.value.Fulfilled?)
  {
  }

  lemma EffectAnswers(db: Db, call: Call, declined: bool)
    requires Answers(db, call.op, declined)
    ensures var a := Recorded(Effected(db, call, declined), call.op);
            && a.Some? && (declined <==> a.value.CardDeclined?)
            && (a.value.Approved? || a.value.CardDeclined? || a.value.Fulfilled?)
  {
    hide EffectTx, Recorded;
    if Recorded(db, call.op).Some? {
      PipelineRecovery.RecordedIsDefinitive(db, call.op);
    } else {
      ClaimAnswers(db, call, declined);
    }
  }

  lemma EffectKeepsOrders(db: Db, call: Call, declined: bool)
    ensures MainTablesSame(db, Effected(db, call, declined)) && Effected(db, call, declined).redis == db.redis
  {
    hide Recorded, EffectTx;
    EffectOrders(db, call, declined, "");
    EffectKeepsMarks(db, call, declined);
  }

  lemma EffectKeepsMarks(db: Db, call: Call, declined: bool)
    ensures EffectTx(db, call, declined, "").redis == db.redis
  {
    hide InsertIfAbsent;
    match StageDownstream(call.op.to)
    case Some(Payment) =>
    case Some(Restaurant) =>
    case Some(Courier) =>
    case None =>
  }

  /** Everything but the handler after its request was answered. */
  function AfterAsk(s: Sys, call: Call, declined: bool): Sys
    requires Answers(s.db, call.op, declined)
  {
    EffectAnswers(s.db, call, declined);
    var db := Effected(s.db, call, declined);
    s.(db := db, calls := s.calls[s.next := call.(cpc := Answered(Recorded(db, call.op).value))], next := s.next + 1)
  }

  /** The handler's request is out and has this answer, or none yet. */
  function Waiting(s: Sys, k: nat, total: int, call: Call): Sys
    requires BusyAt(s, k)
  {
    AtPc(s.(calls := s.calls[s.next := call], next := s.next + 1), k, Calling(total, 0, Some(s.next)))
  }

  lemma SendIs(cfg: Config, s: Sys, k: nat, total: int)
    requires cfg.httpAttempts > 0 && BusyAt(s, k) && TargetOf(s.tokens[k].env).Some?
    ensures var s1 := AtPc(s, k, Calling(total, 0, None));
            && Enabled(cfg, s1, Send(k))
            && Apply(cfg, s1, Send(k)) == Waiting(s, k, total, Call(HappyOp(s.tokens[k].env), total, Arrived))
  {
    MoveMove(s, k, s.tokens[k].(pc := Calling(total, 0, None)), s.tokens[k].(pc := Calling(total, 0, Some(s.next))));
  }

  lemma LookupIs(cfg: Config, s: Sys, k: nat, total: int, op: Op)
    requires BusyAt(s, k)
    ensures var s1 := Waiting(s, k, total, Call(op, total, Arrived));
            && Enabled(cfg, s1, CallLookup(s.next))
            && Apply(cfg, s1, CallLookup(s.next))
               == Waiting(s, k, total, Call(op, total, match Recorded(s.db, op)
                                                       case Some(a) => Answered(a)
                                                       case None => Missed))
  {
    hide Recorded;
  }

  lemma ClaimIs(cfg: Config, s: Sys, k: nat, total: int, op: Op, declined: bool)
    requires BusyAt(s, k) && Recorded(s.db, op) == None && Answers(s.db, op, declined)
    ensures var call := Call(op, total, Missed);
            var s1, db := Waiting(s, k, total, call), Effected(s.db, call, declined);
            && Recorded(db, op).Some?
            && Enabled(cfg, s1, CallClaim(s.next, declined, ""))
            && Apply(cfg, s1, CallClaim(s.next, declined, ""))
               == Waiting(s.(db := db), k, total, Call(op, total, Answered(Recorded(db, op).value)))
  {
    EffectAnswers(s.db, Call(op, total, Missed), declined);
    hide Recorded, EffectTx;
  }

  lemma TakeIs(cfg: Config, s: Sys, k: nat, total: int, call: Call)
    requires BusyAt(s, k) && call.cpc.Answered?
    requires call.cpc.answer.Approved? || call.cpc.answer.CardDeclined? || call.cpc.answer.Fulfilled?
    ensures var s1 := Waiting(s, k, total, call);
            && Enabled(cfg, s1, TakeAnswer(k))
            && Apply(cfg, s1, TakeAnswer(k))
               == AtPc(s.(calls := s.calls[s.next := call], next := s.next + 1), k,
                       if call.cpc.answer.CardDeclined? then Rejected else Cleared)
  {
    var s0 := s.(calls := s.calls[s.next := call], next := s.next + 1);
    MoveMove(s0, k, s.tokens[k].(pc := Calling(total, 0, Some(s.next))),
             s.tokens[k].(pc := if call.cpc.answer.CardDeclined? then Rejected else Cleared));
  }

  /** One request, answered from the table or by claiming the effect. */
  lemma AskIs(cfg: Config, s: Sys, k: nat, total: int, declined: bool) returns (steps: seq<Step>)
    requires cfg.httpAttempts > 0 && BusyAt(s, k) && TargetOf(s.tokens[k].env).Some?
    requires Answers(s.db, HappyOp(s.tokens[k].env), declined)
    ensures ValidRun(cfg, AtPc(s, k, Calling(total, 0, None)), steps)
    ensures Exec(cfg, AtPc(s, k, Calling(total, 0, None)), steps)
            == AtPc(AfterAsk(s, Call(HappyOp(s.tokens[k].env), total, Missed), declined), k,
                    if declined then Rejected else Cleared)
  {
    hide ValidRun, Exec, Apply, Enabled, Recorded, EffectTx, StageDownstream, HappyOp, Waiting, AtPc;
    var op, s0, c := HappyOp(s.tokens[k].env), AtPc(s, k, Calling(total, 0, None)), s.next;
    var call := Call(op, total, Missed);
    EffectAnswers(s.db, call, declined);
    var db := Effected(s.db, call, declined);
    var last := call.(cpc := Answered(Recorded(db, op).value));
    SendIs(cfg, s, k, total);
    LookupIs(cfg, s, k, total, op);
    TakeIs(cfg, s.(db := db), k, total, last);
    if Recorded(s.db, op).Some? {
      steps := [Send(k), CallLookup(c), TakeAnswer(k)];
      RunThree(cfg, s0, Send(k), CallLookup(c), TakeAnswer(k));
    } else {
      ClaimIs(cfg, s, k, total, op, declined);
      steps := [Send(k), CallLookup(c)] + [CallClaim(c, declined, ""), TakeAnswer(k)];
      RunTwo(cfg, s0, Send(k), CallLookup(c));
      RunTwo(cfg, Waiting(s, k, total, call), CallClaim(c, declined, ""), TakeAnswer(k));
      RunAppend(cfg, s0, [Send(k), CallLookup(c)], [CallClaim(c, declined, ""), TakeAnswer(k)]);
    }
  }

  // ---- the transaction ------------------------------------------------------------------------

  /** What the transaction and the rest of the handler leave: the delivery is gone, and if the step was
      not recorded yet, its tables, its mark in Redis and the next command are there. */
  function AfterTx(s: Sys, k: nat, op: Op, cause: Cause): Sys
    requires BusyAt(s, k)
  {
    if op in s.db.ops then Drop(s, k)
    else
      var db := TransitionTx(s.db, op, cause, s.tokens[k].att);
      var done := Drop(s.(db := if cause == Advanced then db.(redis := db.redis + {op}) else db), k);
      if cause == Advanced && !IsTerminal(op.to) then Spawn(done, AdvanceRow(op.order, op.to)) else done
  }

  lemma CloseEnd(cfg: Config, s: Sys, k: nat, pc: Pc) returns (steps: seq<Step>)
    requires BusyAt(s, k) && s.tokens[k].env.data.AdvanceCommand? && (pc == Cancelling || pc == Rejected)
    requires s.tokens[k].env.order in s.db.orders
    requires s.db.orders[s.tokens[k].env.order].state == s.tokens[k].env.data.from
    ensures ValidRun(cfg, AtPc(s, k, pc), steps)
    ensures var env, to := s.tokens[k].env, if pc == Cancelling then Cancelled else Failed;
            Exec(cfg, AtPc(s, k, pc), steps)
            == AfterTx(s, k, Op(env.order, env.data.from, to), if pc == Cancelling then CustomerCancelled else Refused)
  {
    hide ValidRun, Exec;
    var env, to, s0 := s.tokens[k].env, if pc == Cancelling then Cancelled else Failed, AtPc(s, k, pc);
    var step := if pc == Cancelling then Cancel(k) else FailOrder(k);
    var op := Op(env.order, env.data.from, to);
    var db := TransitionTx(s.db, op, if pc == Cancelling then CustomerCancelled else Refused, s.tokens[k].att);
    MoveMove(s, k, s.tokens[k].(pc := pc), s.tokens[k].(pc := Acking));
    assert Apply(cfg, s0, step) == AtPc(s.(db := db), k, Acking);
    AckIs(cfg, s.(db := db), k);
    steps := [step, Ack(k)];
    hide TransitionTx, RunTx;
    RunTwo(cfg, s0, step, Ack(k));
  }

  lemma CommitIs(cfg: Config, s: Sys, k: nat)
    requires BusyAt(s, k) && TargetOf(s.tokens[k].env).Some? && s.next !in s.tokens
    requires s.tokens[k].env.order in s.db.orders
    requires s.db.orders[s.tokens[k].env.order].state == s.tokens[k].env.data.from
    ensures var op, s0 := HappyOp(s.tokens[k].env), AtPc(s, k, Cleared);
            && Enabled(cfg, s0, Commit(k))
            && Apply(cfg, s0, Commit(k))
               == if op in s.db.ops then AtPc(s, k, Acking)
                  else
                    var s1 := AtPc(s.(db := TransitionTx(s.db, op, Advanced, s.tokens[k].att)), k, Marking);
                    if IsTerminal(op.to) then s1 else Spawn(s1, AdvanceRow(op.order, op.to))
  {
    hide TransitionTx;
    var s1 := s.(db := TransitionTx(s.db, HappyOp(s.tokens[k].env), Advanced, s.tokens[k].att));
    MoveMove(s, k, s.tokens[k].(pc := Cleared), s.tokens[k].(pc := Acking));
    MoveMove(s1, k, s.tokens[k].(pc := Cleared), s.tokens[k].(pc := Marking));
  }

  /** With or without the new row, a handler that marks and acks is gone. */
  lemma MarkIs(cfg: Config, s: Sys, k: nat)
    requires BusyAt(s, k) && TargetOf(s.tokens[k].env).Some? && s.tokens[k].pc == Marking
    ensures var steps := [MarkDone(k, true), Ack(k)];
            && ValidRun(cfg, s, steps)
            && Exec(cfg, s, steps) == Drop(s.(db := s.db.(redis := s.db.redis + {HappyOp(s.tokens[k].env)})), k)
  {
    hide ValidRun, Exec;
    var s1 := s.(db := s.db.(redis := s.db.redis + {HappyOp(s.tokens[k].env)}));
    MoveMove(s1, k, s.tokens[k].(pc := Acking), s.tokens[k]);
    assert Apply(cfg, s, MarkDone(k, true)) == AtPc(s1, k, Acking);
    RunTwo(cfg, s, MarkDone(k, true), Ack(k));
  }

  lemma CommitEnd(cfg: Config, s: Sys, k: nat) returns (steps: seq<Step>)
    requires BusyAt(s, k) && TargetOf(s.tokens[k].env).Some? && s.next !in s.tokens
    requires s.tokens[k].env.order in s.db.orders
    requires s.db.orders[s.tokens[k].env.order].state == s.tokens[k].env.data.from
    ensures ValidRun(cfg, AtPc(s, k, Cleared), steps)
    ensures Exec(cfg, AtPc(s, k, Cleared), steps) == AfterTx(s, k, HappyOp(s.tokens[k].env), Advanced)
  {
    hide ValidRun, Exec, Apply, Enabled, TransitionTx;
    var op, s0 := HappyOp(s.tokens[k].env), AtPc(s, k, Cleared);
    CommitIs(cfg, s, k);
    var s1 := Apply(cfg, s0, Commit(k));
    if op in s.db.ops {
      steps := [Commit(k), Ack(k)];
      AckIs(cfg, s, k);
      RunTwo(cfg, s0, Commit(k), Ack(k));
    } else {
      steps := [Commit(k)] + [MarkDone(k, true), Ack(k)];
      RunOne(cfg, s0, Commit(k));
      MarkIs(cfg, s1, k);
      RunAppend(cfg, s0, [Commit(k)], [MarkDone(k, true), Ack(k)]);
      var s2 := Drop(s1.(db := s1.db.(redis := s1.db.redis + {op})), k);
      assert s2.tokens == AfterTx(s, k, op, Advanced).tokens;
    }
  }

  // ---- a whole delivery ----------------------------------------------------------------------

  /** What a handled delivery leaves: the delivery itself is gone; a bounced one left its copy; an applied
      step is in the orchestrator's tables, an advanced one marked in Redis and, unless it finished the
      order, followed by its next command; and nothing else of these changed. */
  predicate Handled(cfg: Config, s: Sys, s': Sys, k: nat, how: O.Disposition, applied: bool, to: State, cause: Cause)
    requires JustDelivered(s, k)
  {
    var env := s.tokens[k].env;
    var op := Op(env.order, env.data.from, to);
    && MainTablesSame(if applied then TransitionTx(s.db, op, cause, env.attempt) else s.db, s'.db)
    && s'.db.redis == (if applied && cause == Advanced then s.db.redis + {op} else s.db.redis)
    && (how == O.Bounced ==> Left(s, s', k, [Bounced(cfg, env)]))
    && (how == O.Acked ==>
          Left(s, s', k, if applied && cause == Advanced && !IsTerminal(to) then [AdvanceRow(env.order, to)] else []))
  }

  /** Token k is gone, and at most one new one is there. */
  predicate Left(s: Sys, s': Sys, k: nat, added: seq<Token>) {
    if |added| == 0 then s'.tokens == s.tokens - {k}
    else s'.next > 0 && s'.next - 1 !in s.tokens && s'.tokens == (s.tokens - {k})[s'.next - 1 := added[0]]
  }

  /** The downstream can have answered that way. */
  predicate Possible(cfg: Config, db: Db, env: Envelope, reply: O.CallResult)
    requires TargetOf(env).Some?
  {
    match reply
    case CallTransient => true
    case CallOk => cfg.httpAttempts > 0 && Answers(db, HappyOp(env), false)
    case CallPermanent => cfg.httpAttempts > 0 && Answers(db, HappyOp(env), true)
  }

  lemma SameTransition(db: Db, db1: Db, op: Op, cause: Cause, attempt: int)
    requires MainTablesSame(db, db1)
    ensures MainTablesSame(TransitionTx(db, op, cause, attempt), TransitionTx(db1, op, cause, attempt))
    ensures TransitionTx(db1, op, cause, attempt).redis == db1.redis
  {
    hide TxOf, RowsOf;
    SameOutcome(db, db1, op);
  }

  lemma SameOutcome(db: Db, db1: Db, op: Op)
    requires MainTablesSame(db, db1)
    ensures TxOf(db1, op) == TxOf(db, op) && RowsOf(db1, op.order) == RowsOf(db, op.order)
    ensures TxOf(db, op) == Applied ==> op.order in db.orders
  {
  }

  lemma AppliedLeaves(cfg: Config, s: Sys, s1: Sys, k: nat, to: State, cause: Cause)
    requires JustDelivered(s, k) && s1.tokens == s.tokens && s1.next !in s.tokens
    requires MainTablesSame(s.db, s1.db) && s1.db.redis == s.db.redis
    requires Op(s.tokens[k].env.order, s.tokens[k].env.data.from, to) !in s.db.ops
    requires cause == Advanced || IsTerminal(to)
    ensures var op := Op(s.tokens[k].env.order, s.tokens[k].env.data.from, to);
            Handled(cfg, s, AfterTx(s1, k, op, cause), k, O.Acked, true, to, cause)
  {
    hide TransitionTx;
    SameTransition(s.db, s1.db, Op(s.tokens[k].env.order, s.tokens[k].env.data.from, to), cause, s.tokens[k].att);
  }

  /** Another database with the same orders gives the same result. */
  lemma AfterTxLeaves(cfg: Config, s: Sys, s1: Sys, k: nat, to: State, cause: Cause, applied: bool)
    requires JustDelivered(s, k) && s1.tokens == s.tokens && s1.next !in s.tokens
    requires MainTablesSame(s.db, s1.db) && s1.db.redis == s.db.redis
    requires applied <==> Op(s.tokens[k].env.order, s.tokens[k].env.data.from, to) !in s.db.ops
    requires cause == Advanced || IsTerminal(to)
    ensures var op := Op(s.tokens[k].env.order, s.tokens[k].env.data.from, to);
            Handled(cfg, s, AfterTx(s1, k, op, cause), k, O.Acked, applied, to, cause)
  {
    if applied {
      AppliedLeaves(cfg, s, s1, k, to, cause);
    }
    hide TransitionTx;
  }

  lemma BouncedLeaves(cfg: Config, s: Sys, k: nat, to: State, cause: Cause)
    requires JustDelivered(s, k) && s.next !in s.tokens
    ensures var copy := Bounced(cfg, s.tokens[k].env.(attempt := s.tokens[k].att));
            Handled(cfg, s, Spawn(Drop(s, k), copy), k, O.Bounced, false, to, cause)
  {
    assert s.tokens[k].env.(attempt := s.tokens[k].att) == s.tokens[k].env;
  }

  lemma DroppedLeaves(cfg: Config, s: Sys, k: nat, to: State, cause: Cause)
    requires JustDelivered(s, k)
    ensures Handled(cfg, s, Drop(s, k), k, O.Acked, false, to, cause)
  {
  }

  /** The command is stale, or its order is missing. */
  lemma EarlyEnd(cfg: Config, s: Sys, k: nat, to: State, cause: Cause) returns (steps: seq<Step>)
    requires JustDelivered(s, k) && s.next !in s.tokens
    requires var env := s.tokens[k].env;
             env.order in s.db.orders ==> s.db.orders[env.order].state != env.data.from || IsTerminal(env.data.from)
    ensures ValidRun(cfg, s, steps)
    ensures var how := if s.tokens[k].env.order in s.db.orders then O.Acked else O.Bounced;
            Handled(cfg, s, Exec(cfg, s, steps), k, how, false, to, cause)
  {
    hide ValidRun, Exec, Apply, Enabled, Handled;
    ReadIs(cfg, s, k);
    RunOne(cfg, s, Step.Read(k));
    if s.tokens[k].env.order in s.db.orders {
      steps := [Step.Read(k), Ack(k)];
      AckIs(cfg, s, k);
      RunTwo(cfg, s, Step.Read(k), Ack(k));
      DroppedLeaves(cfg, s, k, to, cause);
    } else {
      var rest := BounceIs(cfg, s, k);
      steps := [Step.Read(k)] + rest;
      RunAppend(cfg, s, [Step.Read(k)], rest);
      BouncedLeaves(cfg, s, k, to, cause);
    }
  }

  /** A current command whose order is cancelled by the roll. */
  lemma RolledEnd(cfg: Config, s: Sys, k: nat, applied: bool) returns (steps: seq<Step>)
    requires JustDelivered(s, k) && s.next !in s.tokens && CurrentNow(s, k)
    requires cfg.cancels && Cancellable(s.tokens[k].env.data.from)
    requires applied <==> Op(s.tokens[k].env.order, s.tokens[k].env.data.from, Cancelled) !in s.db.ops
    ensures ValidRun(cfg, s, steps)
    ensures Handled(cfg, s, Exec(cfg, s, steps), k, O.Acked, applied, Cancelled, CustomerCancelled)
  {
    hide ValidRun, Exec, Apply, Enabled, Handled, AfterTx;
    var total := s.db.orders[s.tokens[k].env.order].total;
    ReadIs(cfg, s, k);
    RollIs(cfg, s, k, total);
    var head := [Step.Read(k), RollCancel(k)];
    RunTwo(cfg, s, Step.Read(k), RollCancel(k));
    var rest := CloseEnd(cfg, s, k, Cancelling);
    RunAppend(cfg, s, head, rest);
    steps := head + rest;
    AfterTxLeaves(cfg, s, s, k, Cancelled, CustomerCancelled, applied);
  }

  /** The order is where the command says. */
  predicate CurrentNow(s: Sys, k: nat)
    requires JustDelivered(s, k)
  {
    var env := s.tokens[k].env;
    env.order in s.db.orders && s.db.orders[env.order].state == env.data.from && TargetOf(env).Some?
  }

  lemma SkippedEnd(cfg: Config, s: Sys, k: nat, to: State, cause: Cause) returns (steps: seq<Step>)
    requires JustDelivered(s, k) && CurrentNow(s, k)
    requires HappyOp(s.tokens[k].env) in s.db.redis && HappyOp(s.tokens[k].env) in s.db.ops
    ensures ValidRun(cfg, s, steps) && Handled(cfg, s, Exec(cfg, s, steps), k, O.Acked, false, to, cause)
  {
    hide ValidRun, Exec, Apply, Enabled, Handled;
    steps := [Step.Read(k), DedupSkip(k), Ack(k)];
    ReadIs(cfg, s, k);
    SkipIs(cfg, s, k, s.db.orders[s.tokens[k].env.order].total);
    AckIs(cfg, s, k);
    RunThree(cfg, s, Step.Read(k), DedupSkip(k), Ack(k));
    DroppedLeaves(cfg, s, k, to, cause);
  }

  lemma TransientEnd(cfg: Config, s: Sys, k: nat, to: State, cause: Cause) returns (steps: seq<Step>)
    requires JustDelivered(s, k) && s.next !in s.tokens && CurrentNow(s, k)
    requires StageDownstream(TargetOf(s.tokens[k].env).value).Some?
    ensures ValidRun(cfg, s, steps) && Handled(cfg, s, Exec(cfg, s, steps), k, O.Bounced, false, to, cause)
  {
    hide ValidRun, Exec, Apply, Enabled, Handled;
    var total := s.db.orders[s.tokens[k].env.order].total;
    ReadIs(cfg, s, k);
    ProceedIs(cfg, s, k, total);
    RejectIs(cfg, s, k, total);
    var head := [Step.Read(k), Proceed(k), BreakerReject(k)];
    RunThree(cfg, s, Step.Read(k), Proceed(k), BreakerReject(k));
    var rest := BounceIs(cfg, s, k);
    RunAppend(cfg, s, head, rest);
    steps := head + rest;
    BouncedLeaves(cfg, s, k, to, cause);
  }

  /** No call is needed, or the downstream says yes or no. */
  lemma DecidedEnd(cfg: Config, s: Sys, k: nat, refused: bool, applied: bool) returns (steps: seq<Step>)
    requires JustDelivered(s, k) && s.next !in s.tokens && s.next + 1 !in s.tokens && CurrentNow(s, k)
    requires var env := s.tokens[k].env;
             && (refused ==> StageDownstream(TargetOf(env).value).Some?)
             && (StageDownstream(TargetOf(env).value).Some? ==>
                   cfg.httpAttempts > 0 && Answers(s.db, HappyOp(env), refused))
             && (applied <==>
                   Op(env.order, env.data.from, if refused then Failed else TargetOf(env).value) !in s.db.ops)
    ensures ValidRun(cfg, s, steps)
    ensures var to := if refused then Failed else TargetOf(s.tokens[k].env).value;
            Handled(cfg, s, Exec(cfg, s, steps), k, O.Acked, applied, to, if refused then Refused else Advanced)
  {
    hide ValidRun, Exec, Apply, Enabled, Handled, AfterTx, Answers, Recorded, EffectTx;
    var env := s.tokens[k].env;
    var total := s.db.orders[env.order].total;
    ReadIs(cfg, s, k);
    ProceedIs(cfg, s, k, total);
    var head := [Step.Read(k), Proceed(k)];
    RunTwo(cfg, s, Step.Read(k), Proceed(k));
    var base := s;
    if StageDownstream(TargetOf(env).value).Some? {
      var ask := AskIs(cfg, s, k, total, refused);
      RunAppend(cfg, s, head, ask);
      head := head + ask;
      base := AfterAsk(s, Call(HappyOp(env), total, Missed), refused);
      EffectKeepsOrders(s.db, Call(HappyOp(env), total, Missed), refused);
    }
    var rest := [];
    if refused {
      rest := CloseEnd(cfg, base, k, Rejected);
      AfterTxLeaves(cfg, s, base, k, Failed, Refused, applied);
    } else {
      rest := CommitEnd(cfg, base, k);
      AfterTxLeaves(cfg, s, base, k, TargetOf(env).value, Advanced, applied);
    }
    RunAppend(cfg, s, head, rest);
    steps := head + rest;
  }

  /** One uninterrupted delivery of the pipeline is one run of OrchestratorDb.Advance: whatever the roll,
      Redis and the downstream say, there is a run of its handler's steps that ends as AdvanceEnds says,
      leaves the tables as Advance does, and leaves the bounced copy or the next command. */
  lemma DeliveryIsAdvance(cfg: Config, s: Sys, k: nat, rolled: bool, marked: bool, reply: O.CallResult,
                          how: O.Disposition, applied: bool, to: State, cause: Cause) returns (steps: seq<Step>)
    requires JustDelivered(s, k) && forall j :: j in s.tokens ==> j < s.next
    requires var env := s.tokens[k].env;
             && O.AdvanceEnds(cfg, s.db, env, env.data.from, rolled, marked, reply, how, applied)
             && (TargetOf(env).Some? ==>
                   && (marked ==> HappyOp(env) in s.db.redis)
                   && (O.CallsOut(env.data.from) ==> Possible(cfg, s.db, env, reply))
                   && (to, cause) == O.Destination(cfg, env.data.from, rolled, reply))
    ensures ValidRun(cfg, s, steps)
    ensures Handled(cfg, s, Exec(cfg, s, steps), k, how, applied, to, cause)
  {
    hide ValidRun, Exec, Apply, Enabled, Handled, Answers;
    var env := s.tokens[k].env;
    if env.order !in s.db.orders || s.db.orders[env.order].state != env.data.from || IsTerminal(env.data.from) {
      steps := EarlyEnd(cfg, s, k, to, cause);
    } else if O.RolledOut(cfg, env.data.from, rolled) {
      steps := RolledEnd(cfg, s, k, applied);
    } else if O.KnownDone(s.db, env.order, env.data.from, marked) {
      steps := SkippedEnd(cfg, s, k, to, cause);
    } else if O.CallsOut(env.data.from) && reply == O.CallTransient {
      steps := TransientEnd(cfg, s, k, to, cause);
    } else {
      steps := DecidedEnd(cfg, s, k, O.CallsOut(env.data.from) && reply == O.CallPermanent, applied);
    }
  }

  // ---- a whole call -----------------------------------------------------------------------------

  /** What the downstreams' answers are on the wire; Unavailable also stands for a timeout or a transport
      error. */
  predicate OnTheWire(a: Answer, r: H.Response) {
    match a
    case Approved(_, _) => r == H.Status(200)
    case Fulfilled => r == H.Status(200)
    case CardDeclined(_, _) => r == H.Status(402)
    case Busy429 => r == H.Status(429)
    case Unavailable => r.TransportError? || r.code >= 500
  }

  /** Where a handler stands after these answers to its requests. */
  function AfterAnswers(t: Token, answers: seq<Answer>): (t': Token)
    requires t.Busy?
    ensures t'.Busy? && t'.env == t.env
    decreases |answers|
  {
    if |answers| == 0 || !t.pc.Calling? then t else AfterAnswers(AfterAnswer(t, answers[0]), answers[1..])
  }

  lemma AnswerIs(t: Token, a: Answer, r: H.Response)
    requires t.Busy? && t.pc.Calling? && OnTheWire(a, r)
    ensures H.Passing(r) ==> AfterAnswer(t, a) == t.(pc := Calling(t.pc.total, t.pc.tries + 1, None))
    ensures !H.Passing(r) ==> AfterAnswer(t, a) == t.(pc := if r == H.Status(200) then Cleared else Rejected)
    ensures !H.Passing(r) ==> r == H.Status(200) || r == H.Status(402)
  {
  }

  lemma {:induction false} AllAnswers(t: Token, answers: seq<Answer>, reply: nat -> H.Response, n: nat)
    requires t.Busy? && t.pc.Calling? && |answers| > 0
    requires forall i :: 0 <= i < |answers| ==> OnTheWire(answers[i], reply(n + i))
    requires forall i :: n <= i < n + |answers| - 1 ==> H.Passing(reply(i))
    ensures var last := reply(n + |answers| - 1);
            AfterAnswers(t, answers).pc
            == if H.Passing(last) then Calling(t.pc.total, t.pc.tries + |answers|, None)
               else if last == H.Status(200) then Cleared else Rejected
    decreases |answers|
  {
    hide AfterAnswer, H.Passing, OnTheWire;
    AnswerIs(t, answers[0], reply(n));
    if |answers| > 1 {
      AllAnswers(AfterAnswer(t, answers[0]), answers[1..], reply, n + 1);
    }
  }

  /** A handler's requests are one call of PostJson: with HTTP_MAX_RETRIES + 1 attempts and the same
      answers it is cleared exactly when the call succeeds, rejected exactly when the call raises
      PermanentError, and otherwise has used up its attempts and gives up. */
  lemma RequestsArePostJson(cfg: Config, breaker: B.Settings, b: B.Breaker, stats: H.Stats, now: real,
                            reply: nat -> H.Response, finished: real, result: H.Result, posts: nat,
                            b': B.Breaker, stats': H.Stats, t: Token, answers: seq<Answer>)
    requires cfg.httpAttempts > 0 && B.Admits(breaker, b, now)
    requires H.CallEnds(breaker, cfg.httpAttempts - 1, b, stats, now, reply, finished, result, posts, b', stats')
    requires t.Busy? && t.pc.Calling? && t.pc.tries == 0 && |answers| == posts
    requires forall i :: 0 <= i < posts ==> OnTheWire(answers[i], reply(i + 1))
    ensures var pc := AfterAnswers(t, answers).pc;
            && (pc == Cleared <==> result == H.Success)
            && (pc == Rejected <==> result.PermanentError?) && (result.PermanentError? ==> result.code == 402)
            && (pc == Calling(t.pc.total, cfg.httpAttempts, None) <==> result == H.TransientExhausted)
  {
    hide AfterAnswers, H.CallEnds, H.Limits, OnTheWire;
    H.StatusCodesDecide(breaker, cfg.httpAttempts - 1, b, stats, now, reply, finished, result, posts, b', stats');
    forall i | 0 <= i < |answers| ensures OnTheWire(answers[i], reply(1 + i)) {
      assert 1 + i == i + 1;
    }
    AllAnswers(t, answers, reply, 1);
    AnswerIs(t, answers[posts - 1], reply(posts));
  }
}
