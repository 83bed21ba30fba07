/** The orchestrator's database as its handlers use it (services/orchestrator/app/main.py): tables
    keyed the way the DDL keys them, transactions executed statement by statement and rolled back
    when one raises. Each transaction is proved to be the atomic one of the pipeline model. */
module OrchestratorDb {
  import opened Lifecycle
  import opened Pipeline
  import opened PipelineInvariant

  datatype OperationRow = OperationRow(order: OrderId, kind: string)
  datatype TransitionRow = TransitionRow(order: OrderId, row: Trans)
  datatype OutboxRow = Command(order: OrderId, from: State) | TransitionEvent(order: OrderId, row: Trans)

  function OpId(op: Op): string {
    OpIdFor(op.order, op.from, op.to)
  }

  /** The transitions rows of one order, by id. */
  function LogOf(rows: seq<TransitionRow>, o: OrderId): seq<Trans> {
    if |rows| == 0 then []
    else
      var front, last := LogOf(rows[..|rows| - 1], o), rows[|rows| - 1];
      if last.order == o then front + [last.row] else front
  }

  lemma LogAppend(rows: seq<TransitionRow>, r: TransitionRow, o: OrderId)
    ensures LogOf(rows + [r], o) == LogOf(rows, o) + (if r.order == o then [r.row] else [])
  {
  }

  lemma OtherOpId(op: Op, p: Op)
    requires p != op
    ensures OpId(p) != OpId(op)
  {
    if OpId(p) == OpId(op) {
      OpIdInjective(p.order, p.from, p.to, op.order, op.from, op.to);
    }
  }

  /** How a downstream call ended, and what became of the message. */
  datatype CallResult = CallOk | CallTransient | CallPermanent
  datatype Disposition = Acked | Bounced

  /** A cancellation roll that came up, in a stage that allows one. */
  predicate RolledOut(cfg: Config, from: State, rolled: bool) {
    cfg.cancels && Cancellable(from) && rolled
  }

  predicate CallsOut(from: State) {
    NextHappy(from).Some? && StageDownstream(NextHappy(from).value).Some?
  }

  /** Where a current command takes its order, and why. */
  function Destination(cfg: Config, from: State, rolled: bool, reply: CallResult): (State, Cause)
    requires NextHappy(from).Some?
  {
    if RolledOut(cfg, from, rolled) then (Cancelled, CustomerCancelled)
    else if CallsOut(from) && reply == CallPermanent then (Failed, Refused)
    else (NextHappy(from).value, Advanced)
  }

  /** Redis says done and Postgres confirms. */
  predicate KnownDone(db: Db, order: OrderId, from: State, marked: bool) {
    marked && NextHappy(from).Some? && Op(order, from, NextHappy(from).value) in db.ops
  }

  /** How one run of _advance ends. A message goes to the retry path exactly when its order is missing
      or a needed call failed transiently. Its order moves exactly when the command is current, not
      known to be done, not bounced, and the step is not recorded yet. */
  predicate AdvanceEnds(cfg: Config, db: Db, env: Envelope, from: State, rolled: bool, marked: bool, reply: CallResult,
                        how: Disposition, applied: bool)
  {
    && (how == Bounced <==>
          env.order !in db.orders
          || (db.orders[env.order].state == from && !RolledOut(cfg, from, rolled) && CallsOut(from)
              && !KnownDone(db, env.order, from, marked) && reply == CallTransient))
    && (applied <==>
          && how == Acked && db.orders[env.order].state == from && NextHappy(from).Some?
          && (RolledOut(cfg, from, rolled) || !KnownDone(db, env.order, from, marked))
          && Op(env.order, from, Destination(cfg, from, rolled, reply).0) !in db.ops)
  }

  /** Which way an order went from `from`, in terms of what the customer, the dice and the downstream
      did: a cancellation that was rolled comes first, then a refusal, then the happy path. */
  predicate WentWhere(cfg: Config, from: State, rolled: bool, reply: CallResult, to: State, cause: Cause) {
    && (to == Cancelled <==> cfg.cancels && rolled && from in {Placed, Confirmed, Preparing})
    && (to == Failed <==> reply == CallPermanent && from in {Placed, Confirmed, Ready}
                          && !(cfg.cancels && rolled && from in {Placed, Confirmed}))
    && (to != Cancelled && to != Failed ==>
          exists i :: 0 <= i < |HAPPY_PATH| - 1 && HAPPY_PATH[i] == from && HAPPY_PATH[i + 1] == to)
    && (cause == CustomerCancelled <==> to == Cancelled) && (cause == Refused <==> to == Failed)
  }

  lemma DestinationIs(cfg: Config, from: State, rolled: bool, reply: CallResult)
    requires NextHappy(from).Some?
    ensures var (to, cause) := Destination(cfg, from, rolled, reply); WentWhere(cfg, from, rolled, reply, to, cause)
  {
    NextHappyFollowsPath(from, NextHappy(from).value);
  }

  /** The tables that an applied step writes, besides its claim. */
  datatype Content = Content(orders: map<OrderId, OrderRow>, transitions: seq<TransitionRow>, outbox: seq<OutboxRow>)

  /** One applied step: its order's state, one log row, one event, and the next command unless the order
      is finished. */
  predicate Wrote(was: Content, now: Content, order: OrderId, row: Trans) {
    && order in was.orders && was.orders[order].state == row.from
    && now.orders == was.orders[order := was.orders[order].(state := row.to)]
    && now.transitions == was.transitions + [TransitionRow(order, row)]
    && now.outbox == was.outbox + [TransitionEvent(order, row)]
                     + (if IsTerminal(row.to) then [] else [Command(order, row.to)])
  }

  class OrchestratorDb {
    var orders: map<OrderId, OrderRow>
    var operations: map<string, OperationRow>
    var transitions: seq<TransitionRow>
    var outbox: seq<OutboxRow>

    /** The tables hold what the abstract database of the pipeline model says. */
    ghost predicate Represents(db: Db)
      reads this
    {
      && orders == db.orders && db.log.Keys == db.orders.Keys
      && (forall op: Op :: op in db.ops <==> OpId(op) in operations)
      && (forall o :: o in db.log ==> LogOf(transitions, o) == db.log[o])
      && (forall o: OrderId :: o !in db.log ==> LogOf(transitions, o) == [])
    }

    ghost function Tables(): Content
      reads this
    {
      Content(orders, transitions, outbox)
    }

    constructor ()
      ensures Represents(EMPTY_DB) && outbox == []
    {
      orders, operations, transitions, outbox := map[], map[], [], [];
    }

    /** INSERT .. ON CONFLICT (op_id) DO NOTHING RETURNING op_id. */
    method ClaimOperation(opId: string, order: OrderId, kind: string) returns (claimed: bool)
      modifies this`operations
      ensures claimed == (opId !in old(operations))
      ensures operations == InsertIfAbsent(old(operations), opId, OperationRow(order, kind))
    {
      claimed := opId !in operations;
      if claimed {
        operations := operations[opId := OperationRow(order, kind)];
      }
    }

    /** UPDATE orders SET state = to WHERE order_id = order AND state = from; the row count. */
    method CompareAndSet(order: OrderId, to: State, from: State) returns (updated: nat)
      modifies this`orders
      ensures updated == if order in old(orders) && old(orders)[order].state == from then 1 else 0
      ensures orders == if updated == 1 then old(orders)[order := old(orders)[order].(state := to)] else old(orders)
    {
      if order in orders && orders[order].state == from {
        orders := orders[order := orders[order].(state := to)];
        updated := 1;
      } else {
        updated := 0;
      }
    }

    /** The bookkeeping of an applied step represents the model's transaction. */
    ghost method Recorded(before: Db, op: Op, cause: Cause, attempt: int,
                          rows: seq<TransitionRow>, ops: map<string, OperationRow>)
      requires before.log.Keys == before.orders.Keys && TxOf(before, op) == Applied
      requires forall p: Op :: p in before.ops <==> OpId(p) in ops
      requires forall o :: o in before.log ==> LogOf(rows, o) == before.log[o]
      requires forall o: OrderId :: o !in before.log ==> LogOf(rows, o) == []
      requires orders == before.orders[op.order := before.orders[op.order].(state := op.to)]
      requires operations.Keys == ops.Keys + {OpId(op)}
      requires transitions == rows + [TransitionRow(op.order, Trans(op.from, op.to, cause, attempt))]
      ensures Represents(TransitionTx(before, op, cause, attempt))
    {
      var after := TransitionTx(before, op, cause, attempt);
      hide OpId, LogOf;
      forall p: Op ensures p in after.ops <==> OpId(p) in operations {
        if p != op { OtherOpId(op, p); }
      }
      forall o: OrderId
        ensures o in after.log ==> LogOf(transitions, o) == after.log[o]
        ensures o !in after.log ==> LogOf(transitions, o) == []
      {
        LogAppend(rows, TransitionRow(op.order, Trans(op.from, op.to, cause, attempt)), o);
      }
    }

    /** _commit_transition: claim, compare-and-set, log row, event and next command, all or nothing. */
    method CommitTransition(order: OrderId, current: State, target: State, attempt: int, ghost db: Db)
      returns (outcome: TxOutcome)
      requires Represents(db)
      modifies this
      ensures outcome == TxOf(db, Op(order, current, target))
      ensures Represents(TransitionTx(db, Op(order, current, target), Advanced, attempt))
      ensures outcome != Applied ==> unchanged(this)
      ensures outcome == Applied ==>
                && Wrote(old(Tables()), Tables(), order, Trans(current, target, Advanced, attempt))
                && operations == old(operations)[OpId(Op(order, current, target)) :=
                                                 OperationRow(order, "enter:" + Name(target))]
    {
      hide OpId, LogOf;
      var op := Op(order, current, target);
      ghost var rows, ops := transitions, operations;
      var saved := (orders, operations, transitions, outbox);
      var claimed := ClaimOperation(OpId(op), order, "enter:" + Name(target));
      if !claimed {
        return Dedup;
      }
      var updated := CompareAndSet(order, target, current);
      if updated == 0 {
        orders, operations, transitions, outbox := saved.0, saved.1, saved.2, saved.3;
        return Raced;
      }
      var row := Trans(current, target, Advanced, attempt);
      transitions := transitions + [TransitionRow(order, row)];
      outbox := outbox + [TransitionEvent(order, row)];
      if !IsTerminal(target) {
        outbox := outbox + [Command(order, target)];
      }
      Recorded(db, op, Advanced, attempt, rows, ops);
      return Applied;
    }

    /** _cancel and _fail_order: the same transaction into a terminal state, without a next command. */
    method Close(order: OrderId, current: State, into: State, cause: Cause, attempt: int, ghost db: Db)
      returns (outcome: TxOutcome)
      requires Represents(db) && IsTerminal(into)
      modifies this
      ensures outcome == TxOf(db, Op(order, current, into))
      ensures Represents(TransitionTx(db, Op(order, current, into), cause, attempt))
      ensures outcome != Applied ==> unchanged(this)
      ensures outcome == Applied ==>
                && Wrote(old(Tables()), Tables(), order, Trans(current, into, cause, attempt))
                && operations == old(operations)[OpId(Op(order, current, into)) :=
                     OperationRow(order, if cause == CustomerCancelled then "cancel" else "fail")]
    {
      hide OpId, LogOf;
      var op := Op(order, current, into);
      ghost var rows, ops := transitions, operations;
      var saved := (orders, operations, transitions, outbox);
      var claimed := ClaimOperation(OpId(op), order, if cause == CustomerCancelled then "cancel" else "fail");
      if !claimed {
        return Dedup;
      }
      var updated := CompareAndSet(order, into, current);
      if updated == 0 {
        orders, operations, transitions, outbox := saved.0, saved.1, saved.2, saved.3;
        return Raced;
      }
      var row := Trans(current, into, cause, attempt);
      transitions := transitions + [TransitionRow(order, row)];
      outbox := outbox + [TransitionEvent(order, row)];
      Recorded(db, op, cause, attempt, rows, ops);
      return Applied;
    }

    /** on_placed's transaction: the order row and its first command, once. */
    method SeedOrder(order: OrderId, total: int, ghost db: Db) returns (inserted: bool)
      requires Represents(db)
      modifies this
      ensures inserted == (order !in old(orders))
      ensures Represents(SeedTx(db, order, total))
      ensures outbox == old(outbox) + (if inserted then [Command(order, Placed)] else [])
      ensures !inserted ==> unchanged(this)
    {
      hide OpId, LogOf;
      inserted := order !in orders;
      if inserted {
        orders := orders[order := OrderRow(Placed, total)];
        outbox := outbox + [Command(order, Placed)];
      }
    }

    /** One uninterrupted run of _advance. `rolled` is the cancellation roll, `marked` Redis's answer,
        `reply` the downstream's. An order that moves leaves `from` for the state that these and the
        happy path determine, with one operation, one row, one event, and its next command unless it
        is finished. */
    method Advance(cfg: Config, env: Envelope, from: State, rolled: bool, marked: bool, reply: CallResult, ghost db: Db)
      returns (how: Disposition, applied: bool)
      requires Represents(db) && env.data == AdvanceCommand(from)
      modifies this
      ensures AdvanceEnds(cfg, db, env, from, rolled, marked, reply, how, applied)
      ensures !applied ==> unchanged(this)
      ensures applied ==>
                var (to, cause) := Destination(cfg, from, rolled, reply);
                && WentWhere(cfg, from, rolled, reply, to, cause)
                && Wrote(old(Tables()), Tables(), env.order, Trans(from, to, cause, env.attempt))
                && Represents(TransitionTx(db, Op(env.order, from, to), cause, env.attempt))
    {
      how, applied := Acked, false;
      hide OpId, LogOf, Represents, TransitionTx, WentWhere, Wrote;
      TablesAre(db);
      if env.order !in orders {
        return Bounced, false;
      }
      var current := orders[env.order].state;
      if current != from || IsTerminal(current) {
        return;
      }
      if cfg.cancels && Cancellable(current) && rolled {
        DestinationIs(cfg, from, rolled, reply);
        var outcome := Close(env.order, current, Cancelled, CustomerCancelled, env.attempt, db);
        applied := outcome == Applied;
        return;
      }
      DestinationIs(cfg, from, rolled, reply);
      var target := NextHappy(current).value;
      if marked {
        var recorded := OpId(Op(env.order, current, target)) in operations;
        OpsAre(db, Op(env.order, current, target));
        if recorded {
          return;
        }
      }
      if StageDownstream(target).Some? {
        if reply == CallTransient {
          how := Bounced;
          return;
        }
        if reply == CallPermanent {
          var outcome := Close(env.order, current, Failed, Refused, env.attempt, db);
          applied := outcome == Applied;
          return;
        }
      }
      var outcome := CommitTransition(env.order, current, target, env.attempt, db);
      applied := outcome == Applied;
    }

    lemma TablesAre(db: Db)
      requires Represents(db)
      ensures orders == db.orders
    {
    }

    lemma OpsAre(db: Db, op: Op)
      requires Represents(db)
      ensures op in db.ops <==> OpId(op) in operations
    {
    }
  }
}
