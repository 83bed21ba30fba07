/** No order is lost: every accepted order that still needs work has a durable envelope for exactly
    the work it needs, in a table, in a queue, or unacknowledged in a handler. */
module PipelineNoLoss {
  import opened Lifecycle
  import opened Pipeline
  import opened PipelineInvariant

  /** The envelope a token still answers for. A published row, a replayed parking and an unacked
      message whose work is done have handed theirs over. */
  function Cargo(t: Token): Option<Envelope> {
    match t
    case Outbox(env, published) => if published then None else Some(env)
    case PlacedReady(env, _) => Some(env)
    case PlacedBusy(env, _, ppc) => if ppc == Start then Some(env) else None
    case Work(env) => Some(env)
    case Busy(env, _, _, pc) => if pc == Marking || pc == Acking then None else Some(env)
    case Retry(env) => Some(env)
    case Dlq(env, replayed) => if replayed then None else Some(env)
  }

  /** What an accepted order is waiting for: to be seeded, or to be advanced from its state. */
  predicate Needs(db: Db, o: OrderId, data: Payload) {
    && o in db.ingest
    && if o !in db.orders then data.PlacedEvent?
       else !IsTerminal(db.orders[o].state) && data == AdvanceCommand(db.orders[o].state)
  }

  predicate Unfinished(db: Db, o: OrderId) {
    o in db.ingest && (o in db.orders ==> !IsTerminal(db.orders[o].state))
  }

  predicate Serves(db: Db, t: Token, o: OrderId) {
    Cargo(t).Some? && Cargo(t).value.order == o && Needs(db, o, Cargo(t).value.data)
  }

  predicate Live(s: Sys, o: OrderId) {
    Unfinished(s.db, o) ==> exists k :: k in s.tokens && Serves(s.db, s.tokens[k], o)
  }

  ghost predicate NoneLost(s: Sys) {
    forall o: OrderId :: Live(s, o)
  }

  /** The need of an order depends on its two rows only. */
  predicate SameNeed(db: Db, db': Db, o: OrderId) {
    && (o in db.ingest <==> o in db'.ingest)
    && (o in db.orders <==> o in db'.orders)
    && (o in db.orders && o in db'.orders ==> db.orders[o].state == db'.orders[o].state)
  }

  /** An order whose need did not change stays served if every token that served it is still there,
      or one that took its place serves it. */
  lemma LiveKept(s: Sys, s': Sys, o: OrderId, k: nat, heir: nat)
    requires Live(s, o) && SameNeed(s.db, s'.db, o)
    requires forall j :: j in s.tokens && j != k ==> j in s'.tokens && s'.tokens[j] == s.tokens[j]
    requires k in s.tokens && Serves(s.db, s.tokens[k], o) ==> heir in s'.tokens && Serves(s'.db, s'.tokens[heir], o)
    ensures Live(s', o)
  {
  }

  /** A step that leaves the tables alone and hands the cargo of token k to an heir, or drops cargo
      that nobody needs. */
  lemma HandOver(s: Sys, s': Sys, k: nat, heir: nat)
    requires NoneLost(s)
    requires forall o :: SameNeed(s.db, s'.db, o)
    requires forall j :: j in s.tokens && j != k ==> j in s'.tokens && s'.tokens[j] == s.tokens[j]
    requires k in s.tokens && Cargo(s.tokens[k]).Some?
             && Needs(s.db, Cargo(s.tokens[k]).value.order, Cargo(s.tokens[k]).value.data)
             ==> heir in s'.tokens && Cargo(s'.tokens[heir]).Some?
                 && Cargo(s'.tokens[heir]).value.order == Cargo(s.tokens[k]).value.order
                 && Cargo(s'.tokens[heir]).value.data == Cargo(s.tokens[k]).value.data
    ensures NoneLost(s')
  {
    forall o: OrderId ensures Live(s', o) {
      assert SameNeed(s.db, s'.db, o);
      LiveKept(s, s', o, k, heir);
    }
  }

  lemma AllSame(db: Db)
    ensures forall o :: SameNeed(db, db, o)
  {
  }

  // ---- steps that move cargo --------------------------------------------------

  predicate KeepsCargo(step: Step) {
    || step.RelayAbort? || step.PlacedDeliver? || step.Deliver? || step.RollCancel? || step.Proceed?
    || step.BreakerReject? || step.Send? || step.TakeAnswer? || step.TimeOut? || step.GiveUp? || step.Fault?
    || step.RetryExpire? || step.Redeliver?
  }

  /** Token k may have been replaced by one with the same cargo; nothing else is touched. */
  predicate CargoKept(s: Sys, s': Sys, k: nat) {
    && s'.db == s.db && k in s.tokens && k in s'.tokens
    && (forall j :: j in s.tokens && j != k ==> j in s'.tokens && s'.tokens[j] == s.tokens[j])
    && (Cargo(s.tokens[k]).Some? ==> Cargo(s'.tokens[k]) == Cargo(s.tokens[k]))
  }

  /** An unneeded envelope may be picked up again. */
  lemma KeepsCargoToken(cfg: Config, s: Sys, step: Step)
    requires Enabled(cfg, s, step) && KeepsCargo(step)
    requires step.Proceed? ==> TargetOf(s.tokens[step.k].env).Some?
    ensures CargoKept(s, Apply(cfg, s, step), step.k)
  {
    hide CargoKept;
    if step.Proceed? || step.Send? || step.TakeAnswer? || step.TimeOut? || step.Fault? {
      HandlerKeepsCargo(cfg, s, step);
    } else {
      QueueKeepsCargo(cfg, s, step);
    }
  }

  lemma HandlerKeepsCargo(cfg: Config, s: Sys, step: Step)
    requires step.Proceed? || step.Send? || step.TakeAnswer? || step.TimeOut? || step.Fault?
    requires Enabled(cfg, s, step)
    requires step.Proceed? ==> TargetOf(s.tokens[step.k].env).Some?
    ensures CargoKept(s, Apply(cfg, s, step), step.k)
  {
    var t := s.tokens[step.k];
    match step
    case Proceed(_) => AfterPc(t, AfterSnap(t));
    case TakeAnswer(_) => AfterPc(t, AfterAnswer(t, s.calls[t.pc.call.value].cpc.answer));
    case TimeOut(_) => AfterPc(t, AfterAnswer(t, Unavailable));
    case _ =>
  }

  /** A handler that goes on working keeps its cargo. */
  lemma AfterPc(t: Token, t': Token)
    requires t.Busy? && t'.Busy? && t'.env == t.env && t'.pc != Marking && t'.pc != Acking
    ensures Cargo(t).Some? ==> Cargo(t') == Cargo(t)
  {
  }

  lemma QueueKeepsCargo(cfg: Config, s: Sys, step: Step)
    requires KeepsCargo(step) && !(step.Proceed? || step.Send? || step.TakeAnswer? || step.TimeOut? || step.Fault?)
    requires Enabled(cfg, s, step)
    ensures CargoKept(s, Apply(cfg, s, step), step.k)
  {
    hide AfterSnap, AfterAnswer, AfterFault;
  }

  lemma KeepsCargoLive(cfg: Config, s: Sys, step: Step)
    requires Inv(cfg, s) && NoneLost(s) && Enabled(cfg, s, step) && KeepsCargo(step)
    ensures NoneLost(Apply(cfg, s, step))
  {
    hide DbInv, Apply, CallsInv, Needs, NoneLost;
    if step.Proceed? { TokenOf(cfg, s, step.k); }
    KeepsCargoToken(cfg, s, step);
    AllSame(s.db);
    HandOver(s, Apply(cfg, s, step), step.k, step.k);
  }

  /** Publish before ack: the copy carries the cargo from the moment the original gives it up. */
  lemma CopyLive(cfg: Config, s: Sys, step: Step)
    requires Inv(cfg, s) && NoneLost(s) && Enabled(cfg, s, step)
    requires step.RelayPublish? || step.ReplayPublish? || step.BouncePublish? || step.PlacedFault?
    ensures NoneLost(Apply(cfg, s, step))
  {
    hide DbInv, CallsInv, Needs, NoneLost, TokenInv;
    AllSame(s.db);
    assert s.next !in s.tokens;
    var s' := Apply(cfg, s, step);
    HandOver(s, s', step.k, if step.PlacedFault? && !s.tokens[step.k].redelivered then step.k else s.next);
  }

  lemma DropLive(cfg: Config, s: Sys, step: Step)
    requires Inv(cfg, s) && NoneLost(s) && Enabled(cfg, s, step)
    requires step.RelayStamp? || step.PlacedAck? || step.Ack? || step.ReplayAck?
    ensures NoneLost(Apply(cfg, s, step))
  {
    hide Inv, Needs, NoneLost;
    AllSame(s.db);
    HandOver(s, Apply(cfg, s, step), step.k, step.k);
  }

  /** A stale command asks for a step from a state the order is no longer in. */
  lemma ReadLive(cfg: Config, s: Sys, k: nat)
    requires Inv(cfg, s) && NoneLost(s) && Enabled(cfg, s, Read(k))
    ensures NoneLost(Apply(cfg, s, Read(k)))
  {
    hide Inv, NoneLost;
    AllSame(s.db);
    HandOver(s, Apply(cfg, s, Read(k)), k, k);
  }

  /** A command whose operation is recorded is from a state the order has left. */
  lemma DedupSkipLive(cfg: Config, s: Sys, k: nat)
    requires Inv(cfg, s) && NoneLost(s) && Enabled(cfg, s, DedupSkip(k))
    ensures NoneLost(Apply(cfg, s, DedupSkip(k)))
  {
    hide DbInv, TokensInv, CallsInv, NoneLost;
    AllSame(s.db);
    CurrentNotLeft(s.db, HappyOp(s.tokens[k].env));
    HandOver(s, Apply(cfg, s, DedupSkip(k)), k, k);
  }

  // ---- steps that change the tables -------------------------------------------

  predicate SideTableStep(step: Step) {
    || step.MarkDone? || step.RedisForget? || step.CallRefuse? || step.CallLookup? || step.CallFlake? || step.CallClaim?
  }

  lemma EffectNeeds(db: Db, call: Call, declined: bool, intent: string)
    ensures forall o :: SameNeed(db, EffectTx(db, call, declined, intent), o)
  {
  }

  lemma SideTablesSame(cfg: Config, s: Sys, step: Step)
    requires Enabled(cfg, s, step) && SideTableStep(step)
    ensures forall o :: SameNeed(s.db, Apply(cfg, s, step).db, o)
  {
    hide EffectTx;
    if step.CallClaim? {
      EffectNeeds(s.db, s.calls[step.c], step.declined, step.intent);
    }
  }

  lemma SideTablesLive(cfg: Config, s: Sys, step: Step)
    requires NoneLost(s) && Enabled(cfg, s, step) && SideTableStep(step)
    ensures NoneLost(Apply(cfg, s, step))
  {
    hide Needs, NoneLost, SameNeed, EffectTx, Recorded;
    SideTablesSame(cfg, s, step);
    var k := if step.MarkDone? then step.k else s.next;
    HandOver(s, Apply(cfg, s, step), k, k);
  }

  /** A system with one more accepted order and its outbox row. */
  function WithOrder(s: Sys, key: string, order: OrderId, total: int): Sys {
    Sys(s.db.(ingest := s.db.ingest[order := IngestRow(key, total)]),
        s.tokens[s.next := Outbox(Envelope(order, 1, PlacedEvent(total)), false)], s.calls, s.next + 1)
  }

  lemma PostShape(cfg: Config, s: Sys, step: Step)
    requires step.Post? && Enabled(cfg, s, step)
    ensures Apply(cfg, s, step)
            == if PostOf(s.db, step.key, step.order, step.total) == Accepted
               then WithOrder(s, step.key, step.order, step.total) else s
  {
  }

  lemma PostLive(cfg: Config, s: Sys, step: Step)
    requires Inv(cfg, s) && NoneLost(s) && Enabled(cfg, s, step) && step.Post?
    ensures NoneLost(Apply(cfg, s, step))
  {
    PostShape(cfg, s, step);
    hide PostOf, NoneLost, Apply, Enabled, DbInv;
    if PostOf(s.db, step.key, step.order, step.total) == Accepted {
      AcceptedIsNew(s.db, step.key, step.order, step.total);
      IngestedFirst(s.db, step.order);
      TokensBelow(cfg, s);
      NewOrderLive(s, step.key, step.order, step.total);
    }
  }

  lemma NewOrderLive(s: Sys, key: string, order: OrderId, total: int)
    requires NoneLost(s) && s.next !in s.tokens && order !in s.db.ingest && order !in s.db.orders
    ensures NoneLost(WithOrder(s, key, order, total))
  {
    var s' := WithOrder(s, key, order, total);
    forall o: OrderId ensures Live(s', o) {
      assert Live(s, o);
      if o == order {
        assert Serves(s'.db, s'.tokens[s.next], o);
      } else {
        assert SameNeed(s.db, s'.db, o);
        hide Serves, Unfinished;
        LiveKept(s, s', o, s.next, s.next);
      }
    }
  }

  lemma AcceptedIsNew(db: Db, key: string, order: OrderId, total: int)
    requires PostOf(db, key, order, total) == Accepted
    ensures order !in db.ingest
  {
  }

  lemma IngestedFirst(db: Db, o: OrderId)
    requires DbInv(db)
    ensures o in db.orders ==> o in db.ingest
  {
  }

  lemma TokensBelow(cfg: Config, s: Sys)
    requires Inv(cfg, s)
    ensures s.next !in s.tokens && s.next !in s.calls
  {
  }

  lemma LiveAll(s: Sys)
    requires NoneLost(s)
    ensures forall o: OrderId :: Live(s, o)
  {
  }

  lemma NoneLostOf(s: Sys)
    requires forall o: OrderId :: Live(s, o)
    ensures NoneLost(s)
  {
  }

  lemma SeededLive(cfg: Config, s: Sys, k: nat, o: OrderId)
    requires Enabled(cfg, s, PlacedCommit(k)) && s.next !in s.tokens
    requires s.tokens[k].env.order in s.db.ingest && s.tokens[k].env.data.PlacedEvent?
    requires Live(s, o)
    ensures Live(Apply(cfg, s, PlacedCommit(k)), o)
  {
    var t, s' := s.tokens[k], Apply(cfg, s, PlacedCommit(k));
    if o == t.env.order && o !in s.db.orders {
      assert Serves(s'.db, s'.tokens[s.next], o);
    } else {
      assert SameNeed(s.db, s'.db, o);
      assert !Serves(s.db, t, o);
      assert forall j :: j in s.tokens && j != k ==> j in s'.tokens && s'.tokens[j] == s.tokens[j];
      hide Serves, Unfinished, Live, Apply, Enabled, SameNeed;
      LiveKept(s, s', o, k, k);
    }
  }

  lemma PlacedCommitLive(cfg: Config, s: Sys, k: nat)
    requires Inv(cfg, s) && NoneLost(s) && Enabled(cfg, s, PlacedCommit(k))
    ensures NoneLost(Apply(cfg, s, PlacedCommit(k)))
  {
    hide Inv, NoneLost, Apply, Live;
    TokenOf(cfg, s, k);
    TokensBelow(cfg, s);
    LiveAll(s);
    forall o: OrderId ensures Live(Apply(cfg, s, PlacedCommit(k)), o) {
      SeededLive(cfg, s, k, o);
    }
    NoneLostOf(Apply(cfg, s, PlacedCommit(k)));
  }

  lemma AppliedLive(cfg: Config, s: Sys, k: nat, op: Op, cause: Cause, done: Pc, o: OrderId)
    requires BusyAt(s, k) && s.next !in s.tokens && op.order in s.db.ingest
    requires op.order == s.tokens[k].env.order && s.tokens[k].env.data == AdvanceCommand(op.from)
    requires TxOf(s.db, op) == Applied && op.from != op.to
    requires cause != Advanced ==> IsTerminal(op.to)
    requires Live(s, o)
    ensures Live(RunTx(cfg, s, k, op, cause, done), o)
  {
    var t, s' := s.tokens[k], RunTx(cfg, s, k, op, cause, done);
    if o == op.order {
      assert !IsTerminal(op.to) ==> Serves(s'.db, s'.tokens[s.next], o);
    } else {
      assert SameNeed(s.db, s'.db, o);
      assert !Serves(s.db, t, o);
      assert forall j :: j in s.tokens && j != k ==> j in s'.tokens && s'.tokens[j] == s.tokens[j];
      hide Serves, Unfinished, Live, RunTx, SameNeed, TxOf;
      LiveKept(s, s', o, k, k);
    }
  }

  lemma LostTxLive(cfg: Config, s: Sys, k: nat, op: Op, cause: Cause, done: Pc)
    requires NoneLost(s) && BusyAt(s, k) && TxOf(s.db, op) != Applied
    requires op.order == s.tokens[k].env.order && s.tokens[k].env.data == AdvanceCommand(op.from)
    requires op in s.db.ops ==> op.order in s.db.orders && s.db.orders[op.order].state != op.from
    ensures NoneLost(RunTx(cfg, s, k, op, cause, done))
  {
    hide NoneLost;
    AllSame(s.db);
    HandOver(s, RunTx(cfg, s, k, op, cause, done), k, k);
  }

  /** The three transactions: the winner's outbox row carries the next command, the loser's command
      is from a state the order has left, and a raised race keeps the message for the retry. */
  lemma RunTxLive(cfg: Config, s: Sys, k: nat, op: Op, cause: Cause, done: Pc)
    requires Inv(cfg, s) && NoneLost(s) && BusyAt(s, k)
    requires op.order == s.tokens[k].env.order && s.tokens[k].env.data == AdvanceCommand(op.from)
    requires op.from != op.to
    requires cause != Advanced ==> IsTerminal(op.to)
    ensures NoneLost(RunTx(cfg, s, k, op, cause, done))
  {
    hide DbInv, TokensInv, CallsInv, NoneLost, Live, RunTx;
    TokensBelow(cfg, s);
    if TxOf(s.db, op) != Applied {
      if op in s.db.ops { CurrentNotLeft(s.db, op); }
      LostTxLive(cfg, s, k, op, cause, done);
    } else {
      LiveAll(s);
      IngestedFirst(s.db, op.order);
      forall o: OrderId ensures Live(RunTx(cfg, s, k, op, cause, done), o) {
        AppliedLive(cfg, s, k, op, cause, done, o);
      }
      NoneLostOf(RunTx(cfg, s, k, op, cause, done));
    }
  }

  lemma TxStepLive(cfg: Config, s: Sys, step: Step)
    requires Inv(cfg, s) && NoneLost(s) && Enabled(cfg, s, step)
    requires step.Commit? || step.FailOrder? || step.Cancel?
    ensures NoneLost(Apply(cfg, s, step))
  {
    hide DbInv, TokensInv, CallsInv, TokenInv, NoneLost, RunTx, Justified;
    var t := s.tokens[step.k];
    TokenOf(cfg, s, step.k);
    ReadyToClaim(cfg, s.db, s.calls, t);
    hide Inv;
    match step
    case Commit(k) => RunTxLive(cfg, s, k, HappyOp(t.env), Advanced, Marking);
    case FailOrder(k) => RunTxLive(cfg, s, k, Op(t.env.order, t.env.data.from, Failed), Refused, Acking);
    case Cancel(k) => RunTxLive(cfg, s, k, Op(t.env.order, t.env.data.from, Cancelled), CustomerCancelled, Acking);
  }

  /** No order is lost by any step except the last-resort nack, which drops a message that was
      neither applied nor republished. */
  lemma StepLive(cfg: Config, s: Sys, step: Step)
    requires Inv(cfg, s) && NoneLost(s) && Enabled(cfg, s, step) && !step.Discard?
    ensures NoneLost(Apply(cfg, s, step))
  {
    hide Inv, NoneLost, Apply, Enabled;
    match step
    case Post(_, _, _) => PostLive(cfg, s, step);
    case RelayPublish(_) => CopyLive(cfg, s, step);
    case ReplayPublish(_) => CopyLive(cfg, s, step);
    case BouncePublish(_) => CopyLive(cfg, s, step);
    case PlacedFault(_) => CopyLive(cfg, s, step);
    case RelayStamp(_) => DropLive(cfg, s, step);
    case PlacedAck(_) => DropLive(cfg, s, step);
    case Ack(_) => DropLive(cfg, s, step);
    case ReplayAck(_) => DropLive(cfg, s, step);
    case PlacedCommit(k) => PlacedCommitLive(cfg, s, k);
    case Read(k) => ReadLive(cfg, s, k);
    case DedupSkip(k) => DedupSkipLive(cfg, s, k);
    case Commit(_) => TxStepLive(cfg, s, step);
    case FailOrder(_) => TxStepLive(cfg, s, step);
    case Cancel(_) => TxStepLive(cfg, s, step);
    case MarkDone(_, _) => SideTablesLive(cfg, s, step);
    case RedisForget(_) => SideTablesLive(cfg, s, step);
    case CallRefuse(_) => SideTablesLive(cfg, s, step);
    case CallLookup(_) => SideTablesLive(cfg, s, step);
    case CallFlake(_, _) => SideTablesLive(cfg, s, step);
    case CallClaim(_, _, _) => SideTablesLive(cfg, s, step);
    case _ => KeepsCargoLive(cfg, s, step);
  }

  lemma InitLive()
    ensures NoneLost(INITIAL)
  {
  }

  // ---- the last-resort nack ----------------------------------------------------

  /** What the nack at the end of _fault does to NoneLost, the bookkeeping that all other steps keep: it
      breaks it if the discarded command is the one its order is waiting for and no other token
      answers for that order. Copies that do not answer for it may still come back; whether the order
      is lost is PipelineFate.DiscardLosesExactly. */
  lemma DiscardUnserves(cfg: Config, s: Sys, k: nat)
    requires NoneLost(s) && Enabled(cfg, s, Discard(k))
    ensures NoneLost(Apply(cfg, s, Discard(k)))
            <==> (Needs(s.db, s.tokens[k].env.order, s.tokens[k].env.data) ==>
                    exists j :: j in s.tokens && j != k && Serves(s.db, s.tokens[j], s.tokens[k].env.order))
  {
    var t, s' := s.tokens[k], Apply(cfg, s, Discard(k));
    var o := t.env.order;
    if Needs(s.db, o, t.env.data) {
      if exists j :: j in s.tokens && j != k && Serves(s.db, s.tokens[j], o) {
        var j :| j in s.tokens && j != k && Serves(s.db, s.tokens[j], o);
        forall o': OrderId ensures Live(s', o') {
          assert j in s'.tokens && s'.tokens[j] == s.tokens[j];
          LiveKept(s, s', o', k, j);
        }
      } else {
        assert Unfinished(s'.db, o);
        assert !Live(s', o);
      }
    } else {
      AllSame(s.db);
      HandOver(s, s', k, k);
    }
  }
}
