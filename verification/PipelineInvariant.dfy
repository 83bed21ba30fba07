/** The safety invariant of the pipeline and its preservation by every step, crashes included. */
module PipelineInvariant {
  import opened Lifecycle
  import opened Pipeline

  // ---- the transition log ----------------------------------------------------

  /** The moves the orchestrator actually makes; a proper part of the allowed ones. */
  predicate StepOk(from: State, to: State) {
    || NextHappy(from) == Some(to)
    || (to == Cancelled && Cancellable(from))
    || (to == Failed && from == Placed)
  }

  /** The transitions rows of an order lead from placed to its state without a gap. */
  predicate Chain(log: seq<Trans>, state: State) {
    && (forall i :: 0 <= i < |log| ==> StepOk(log[i].from, log[i].to))
    && (|log| > 0 ==> log[0].from == Placed)
    && (forall i, j :: 0 <= i < |log| && 0 <= j < |log| && j == i + 1 ==> log[j].from == log[i].to)
    && state == (if |log| == 0 then Placed else log[|log| - 1].to)
  }

  lemma {:induction false} ChainClimbs(log: seq<Trans>, state: State, i: nat, j: nat)
    requires Chain(log, state) && i <= j < |log|
    ensures Rank(log[i].from) < Rank(log[j].to)
    ensures i < j ==> Rank(log[i].from) < Rank(log[j].from)
    decreases j
  {
    assert StepOk(log[j].from, log[j].to);
    if i < j {
      ChainClimbs(log, state, i, j - 1);
    }
  }

  predicate Visited(db: Db, o: OrderId, st: State)
  {
    o in db.log && (st == Placed || exists i :: 0 <= i < |db.log[o]| && db.log[o][i].to == st)
  }

  /** The row of a step that was applied. */
  predicate Logged(db: Db, op: Op) {
    op.order in db.log
    && exists i :: 0 <= i < |db.log[op.order]| && db.log[op.order][i].from == op.from && db.log[op.order][i].to == op.to
  }

  // ---- effects ---------------------------------------------------------------

  function ChargeKey(o: OrderId): Op {
    Op(o, Placed, Confirmed)
  }

  /** The recorded effect that a step rests on. */
  predicate Justified(db: Db, op: Op) {
    if op.to == Failed then
      ChargeKey(op.order) in db.charges && db.charges[ChargeKey(op.order)].status == Declined
    else match StageDownstream(op.to)
      case Some(Payment) => op in db.charges && db.charges[op].status == Succeeded
      case Some(Restaurant) => op in db.kitchen
      case Some(Courier) => op in db.couriers
      case None => true
  }

  /** A request sent for this step was sent by a handler that saw the order in `from`. */
  predicate Asked(db: Db, op: Op) {
    && StageDownstream(op.to).Some?
    && NextHappy(op.from) == Some(op.to)
    && op.order in db.orders
    && Visited(db, op.order, op.from)
  }

  predicate OrderInv(db: Db, o: OrderId)
    requires o in db.orders
  {
    && o in db.ingest && db.ingest[o].total == db.orders[o].total
    && o in db.log
    && Chain(db.log[o], db.orders[o].state)
    && (forall i :: 0 <= i < |db.log[o]| ==>
          var op := Op(o, db.log[o][i].from, db.log[o][i].to); op in db.ops && Justified(db, op))
  }

  predicate ChargeInv(db: Db, op: Op)
    requires op in db.charges
  {
    && Asked(db, op) && op == ChargeKey(op.order)
    && db.charges[op].order == op.order && db.charges[op].amount == db.orders[op.order].total
  }

  predicate KeysUnique(db: Db) {
    forall o, o' :: o in db.ingest && o' in db.ingest && db.ingest[o].key == db.ingest[o'].key ==> o == o'
  }

  predicate DbInv(db: Db) {
    && KeysUnique(db)
    && db.log.Keys == db.orders.Keys
    && (forall o :: o in db.orders ==> OrderInv(db, o))
    && (forall op :: op in db.ops ==> Logged(db, op))
    && (forall op :: op in db.charges ==> ChargeInv(db, op))
    && (forall op :: op in db.kitchen ==> Asked(db, op) && op.to == Preparing)
    && (forall op :: op in db.couriers ==> Asked(db, op) && op.to == OutForDelivery)
    && db.redis <= db.ops
  }

  // ---- envelopes, handlers, requests -----------------------------------------

  function MaxAttempt(cfg: Config): int {
    if cfg.maxAttempts < 1 then 1 else cfg.maxAttempts
  }

  predicate EnvOk(cfg: Config, db: Db, env: Envelope) {
    && 1 <= env.attempt <= MaxAttempt(cfg)
    && match env.data
       case PlacedEvent(total) => env.order in db.ingest && db.ingest[env.order].total == total
       case AdvanceCommand(from) =>
         env.order in db.orders && Visited(db, env.order, from) && !IsTerminal(from)
  }

  predicate PcOk(db: Db, calls: map<nat, Call>, env: Envelope, pc: Pc) {
    match pc
    case Begin => true
    case Bounce => true
    case Acking => true
    case Snap(total) =>
      env.data.AdvanceCommand? && env.order in db.orders && total == db.orders[env.order].total
    case Calling(total, tries, call) =>
      && env.data.AdvanceCommand? && env.order in db.orders && total == db.orders[env.order].total
      && TargetOf(env).Some? && StageDownstream(TargetOf(env).value).Some?
      && (call.Some? ==> call.value in calls && calls[call.value].op == HappyOp(env))
    case Cleared => TargetOf(env).Some? && Justified(db, HappyOp(env))
    case Rejected =>
      env.data == AdvanceCommand(Placed) && Justified(db, Op(env.order, Placed, Failed))
    case Cancelling => env.data.AdvanceCommand? && Cancellable(env.data.from)
    case Marking => TargetOf(env).Some? && HappyOp(env) in db.ops
  }

  predicate TokenInv(cfg: Config, db: Db, calls: map<nat, Call>, t: Token) {
    && EnvOk(cfg, db, t.env)
    && match t
       case Outbox(_, _) => true
       case PlacedReady(env, _) => env.data.PlacedEvent?
       case PlacedBusy(env, _, ppc) => env.data.PlacedEvent? && (ppc == Committed ==> env.order in db.orders)
       case Work(_) => true
       case Retry(env) => env.attempt >= 2
       case Dlq(env, _) => env.data.AdvanceCommand? ==> env.attempt == MaxAttempt(cfg)
       case Busy(env, att, faulted, pc) =>
         && env.attempt <= att <= MaxAttempt(cfg)
         && (faulted ==> pc == Bounce || pc == Acking)
         && PcOk(db, calls, env, pc)
  }

  /** A definitive answer repeats what the service's table holds for the key. */
  predicate AnswerOk(db: Db, op: Op, a: Answer) {
    a.Busy429? || a.Unavailable? || Recorded(db, op) == Some(a)
  }

  predicate CallInv(db: Db, call: Call) {
    && Asked(db, call.op)
    && call.amount == db.orders[call.op.order].total
    && (call.cpc.Answered? ==> AnswerOk(db, call.op, call.cpc.answer))
  }

  predicate TokensInv(cfg: Config, s: Sys) {
    forall k :: k in s.tokens ==> k < s.next && TokenInv(cfg, s.db, s.calls, s.tokens[k])
  }

  predicate CallsInv(s: Sys) {
    forall c :: c in s.calls ==> c < s.next && CallInv(s.db, s.calls[c])
  }

  predicate Inv(cfg: Config, s: Sys) {
    DbInv(s.db) && TokensInv(cfg, s) && CallsInv(s)
  }

  // ---- what never goes away ---------------------------------------------------

  /** Rows are only ever added, and only an order's state changes. */
  predicate Extends(db: Db, db': Db) {
    && (forall o :: o in db.ingest ==> o in db'.ingest && db'.ingest[o] == db.ingest[o])
    && (forall o :: o in db.orders ==> o in db'.orders && db'.orders[o].total == db.orders[o].total)
    && (forall o :: o in db.log ==> o in db'.log && db.log[o] <= db'.log[o])
    && db.ops <= db'.ops
    && (forall op :: op in db.charges ==> op in db'.charges && db'.charges[op] == db.charges[op])
    && (forall op :: op in db.kitchen ==> op in db'.kitchen && db'.kitchen[op] == db.kitchen[op])
    && (forall op :: op in db.couriers ==> op in db'.couriers && db'.couriers[op] == db.couriers[op])
  }

  predicate CallsExtend(calls: map<nat, Call>, calls': map<nat, Call>) {
    forall c :: c in calls ==> c in calls' && calls'[c].op == calls[c].op
  }

  lemma LoggedStable(db: Db, db': Db, op: Op)
    requires Extends(db, db') && Logged(db, op)
    ensures Logged(db', op)
  {
  }

  lemma AskedStable(db: Db, db': Db, op: Op)
    requires Extends(db, db') && Asked(db, op)
    ensures Asked(db', op)
  {
  }

  lemma TokenStable(cfg: Config, db: Db, db': Db, calls: map<nat, Call>, calls': map<nat, Call>, t: Token)
    requires Extends(db, db') && CallsExtend(calls, calls') && TokenInv(cfg, db, calls, t)
    ensures TokenInv(cfg, db', calls', t)
  {
  }

  lemma CallStable(db: Db, db': Db, call: Call)
    requires Extends(db, db') && CallInv(db, call)
    ensures CallInv(db', call)
  {
  }

  /** The frame of every step: unchanged tokens and requests keep their invariant because the
      tables only grow, so only the changed ones need an argument. */
  lemma FrameInv(cfg: Config, s: Sys, s': Sys)
    requires Inv(cfg, s)
    requires DbInv(s'.db) && Extends(s.db, s'.db) && CallsExtend(s.calls, s'.calls) && s.next <= s'.next
    requires forall k :: k in s'.tokens && !(k in s.tokens && s.tokens[k] == s'.tokens[k]) ==>
               k < s'.next && TokenInv(cfg, s'.db, s'.calls, s'.tokens[k])
    requires forall c :: c in s'.calls && !(c in s.calls && s.calls[c] == s'.calls[c]) ==>
               c < s'.next && CallInv(s'.db, s'.calls[c])
    ensures Inv(cfg, s')
  {
    hide DbInv;
    forall k | k in s'.tokens ensures k < s'.next && TokenInv(cfg, s'.db, s'.calls, s'.tokens[k]) {
      if k in s.tokens && s.tokens[k] == s'.tokens[k] {
        TokenStable(cfg, s.db, s'.db, s.calls, s'.calls, s.tokens[k]);
      }
    }
    forall c | c in s'.calls ensures c < s'.next && CallInv(s'.db, s'.calls[c]) {
      if c in s.calls && s.calls[c] == s'.calls[c] {
        CallStable(s.db, s'.db, s.calls[c]);
      }
    }
  }

  lemma NothingChanged(db: Db, calls: map<nat, Call>)
    ensures Extends(db, db) && CallsExtend(calls, calls)
  {
  }

  lemma OrderOf(db: Db, o: OrderId)
    requires DbInv(db) && o in db.orders
    ensures OrderInv(db, o)
  {
    hide OrderInv, Logged, ChargeInv, Asked;
  }

  lemma TablesOf(db: Db)
    requires DbInv(db)
    ensures KeysUnique(db) && db.log.Keys == db.orders.Keys && db.redis <= db.ops
  {
  }

  lemma LoggedOf(db: Db, op: Op)
    requires DbInv(db) && op in db.ops
    ensures Logged(db, op) && op.order in db.orders
  {
    hide OrderInv, ChargeInv, Asked;
  }

  lemma TokenOf(cfg: Config, s: Sys, k: nat)
    requires Inv(cfg, s) && k in s.tokens
    ensures TokenInv(cfg, s.db, s.calls, s.tokens[k])
  {
  }

  lemma CallOf(cfg: Config, s: Sys, c: nat)
    requires Inv(cfg, s) && c in s.calls
    ensures CallInv(s.db, s.calls[c])
  {
    hide DbInv;
  }

  // ---- the transactions keep the tables consistent ---------------------------

  lemma JustifiedStable(db: Db, db': Db, op: Op)
    requires Extends(db, db') && Justified(db, op)
    ensures Justified(db', op)
  {
  }

  /** Carry every clause of DbInv over to a larger database in which the orders, the log, the ops
      and the effect tables are unchanged for all but the named rows. */
  lemma DbFrame(db: Db, db': Db)
    requires DbInv(db) && Extends(db, db') && KeysUnique(db')
    requires db'.log.Keys == db'.orders.Keys && db'.redis <= db'.ops
    requires forall o :: o in db'.orders && !(o in db.orders && db.orders[o] == db'.orders[o]) ==> OrderInv(db', o)
    requires forall o :: o in db.orders && db.orders[o] == db'.orders[o] ==> db'.log[o] == db.log[o]
    requires forall op :: op in db'.ops && op !in db.ops ==> Logged(db', op)
    requires forall op :: op in db'.charges && op !in db.charges ==> ChargeInv(db', op)
    requires forall op :: op in db'.kitchen && op !in db.kitchen ==> Asked(db', op) && op.to == Preparing
    requires forall op :: op in db'.couriers && op !in db.couriers ==> Asked(db', op) && op.to == OutForDelivery
    ensures DbInv(db')
  {
    forall o | o in db'.orders ensures OrderInv(db', o) {
      if o in db.orders && db.orders[o] == db'.orders[o] {
        assert OrderInv(db, o);
        forall i | 0 <= i < |db'.log[o]|
          ensures var op := Op(o, db'.log[o][i].from, db'.log[o][i].to); op in db'.ops && Justified(db', op)
        {
          JustifiedStable(db, db', Op(o, db.log[o][i].from, db.log[o][i].to));
        }
      }
    }
    forall op | op in db'.ops ensures Logged(db', op) {
      if op in db.ops { LoggedStable(db, db', op); }
    }
    forall op | op in db'.charges ensures ChargeInv(db', op) {
      if op in db.charges { AskedStable(db, db', op); }
    }
    forall op | op in db'.kitchen ensures Asked(db', op) && op.to == Preparing {
      if op in db.kitchen { AskedStable(db, db', op); }
    }
    forall op | op in db'.couriers ensures Asked(db', op) && op.to == OutForDelivery {
      if op in db.couriers { AskedStable(db, db', op); }
    }
  }

  lemma PostKeeps(db: Db, key: string, order: OrderId, total: int)
    requires DbInv(db)
    ensures DbInv(PostTx(db, key, order, total)) && Extends(db, PostTx(db, key, order, total))
  {
    if PostOf(db, key, order, total) == Accepted {
      DbFrame(db, PostTx(db, key, order, total));
    }
  }

  lemma SeedOrder(db: Db, order: OrderId, total: int)
    requires order in db.ingest && db.ingest[order].total == total && order !in db.orders
    ensures OrderInv(SeedTx(db, order, total), order)
  {
  }

  lemma SeedExtends(db: Db, order: OrderId, total: int)
    requires db.log.Keys == db.orders.Keys
    ensures Extends(db, SeedTx(db, order, total))
  {
  }

  lemma SeedTables(db: Db, order: OrderId, total: int)
    requires KeysUnique(db) && db.log.Keys == db.orders.Keys && order !in db.orders
    ensures var db' := SeedTx(db, order, total);
            && KeysUnique(db') && db'.log.Keys == db'.orders.Keys
            && db'.ops == db.ops && db'.redis == db.redis
            && db'.charges == db.charges && db'.kitchen == db.kitchen && db'.couriers == db.couriers
            && order in db'.orders
            && (forall o :: o in db'.orders && o != order ==> o in db.orders && db'.orders[o] == db.orders[o])
            && (forall o :: o in db.orders ==> o in db'.log && db'.log[o] == db.log[o])
  {
  }

  lemma SeedKeeps(db: Db, order: OrderId, total: int)
    requires DbInv(db) && order in db.ingest && db.ingest[order].total == total
    ensures DbInv(SeedTx(db, order, total)) && Extends(db, SeedTx(db, order, total))
  {
    hide DbInv, Extends, OrderInv, Logged, ChargeInv, Asked, KeysUnique;
    TablesOf(db);
    SeedExtends(db, order, total);
    if order !in db.orders {
      SeedTables(db, order, total);
      SeedOrder(db, order, total);
      hide SeedTx;
      DbFrame(db, SeedTx(db, order, total));
    }
  }

  lemma LeftBehind(log: seq<Trans>, state: State, op: Op)
    requires Chain(log, state)
    requires exists i :: 0 <= i < |log| && log[i].from == op.from && log[i].to == op.to
    ensures state != op.from && Rank(op.from) < Rank(state)
  {
    var i :| 0 <= i < |log| && log[i].from == op.from && log[i].to == op.to;
    ChainClimbs(log, state, i, |log| - 1);
  }

  /** A step from a state the order is in cannot have been applied before. */
  lemma CurrentNotLeft(db: Db, op: Op)
    requires DbInv(db) && op in db.ops
    ensures op.order in db.orders && db.orders[op.order].state != op.from
  {
    hide DbInv;
    hide Chain;
    LoggedOf(db, op);
    OrderOf(db, op.order);
    LeftBehind(db.log[op.order], db.orders[op.order].state, op);
  }

  lemma ChainAppend(log: seq<Trans>, state: State, row: Trans)
    requires Chain(log, state) && row.from == state && StepOk(row.from, row.to)
    ensures Chain(log + [row], row.to)
  {
  }

  lemma TransitionExtends(db: Db, op: Op, cause: Cause, attempt: int)
    ensures Extends(db, TransitionTx(db, op, cause, attempt))
  {
  }

  lemma TransitionOrder(db: Db, op: Op, cause: Cause, attempt: int)
    requires DbInv(db) && StepOk(op.from, op.to) && Justified(db, op)
    requires TxOf(db, op) == Applied
    ensures var db' := TransitionTx(db, op, cause, attempt); OrderInv(db', op.order) && Logged(db', op)
  {
    hide DbInv;
    var o, db' := op.order, TransitionTx(db, op, cause, attempt);
    OrderOf(db, o);
    var row := Trans(op.from, op.to, cause, attempt);
    ChainAppend(db.log[o], db.orders[o].state, row);
    assert db'.log[o] == db.log[o] + [row] && db'.log[o][|db.log[o]|] == row;
    TransitionExtends(db, op, cause, attempt);
    forall i | 0 <= i < |db'.log[o]|
      ensures var p := Op(o, db'.log[o][i].from, db'.log[o][i].to); p in db'.ops && Justified(db', p)
    {
      if i < |db.log[o]| {
        var p := Op(o, db.log[o][i].from, db.log[o][i].to);
        assert db'.log[o][i] == db.log[o][i] && p in db.ops && Justified(db, p);
        JustifiedStable(db, db', p);
      } else {
        JustifiedStable(db, db', op);
      }
    }
  }

  lemma TransitionKeeps(db: Db, op: Op, cause: Cause, attempt: int)
    requires DbInv(db)
    requires StepOk(op.from, op.to) && Justified(db, op)
    ensures DbInv(TransitionTx(db, op, cause, attempt))
    ensures Extends(db, TransitionTx(db, op, cause, attempt))
  {
    hide DbInv;
    TransitionExtends(db, op, cause, attempt);
    TablesOf(db);
    if TxOf(db, op) == Applied {
      TransitionOrder(db, op, cause, attempt);
      StepChanges(op.from, op.to);
      hide OrderInv, Logged, Justified, StepOk;
      var db' := TransitionTx(db, op, cause, attempt);
      assert forall o :: o in db'.orders && o != op.order ==> o in db.orders && db.orders[o] == db'.orders[o];
      assert db.orders[op.order] != db'.orders[op.order];
      DbFrame(db, db');
    }
  }

  lemma StepChanges(from: State, to: State)
    requires StepOk(from, to)
    ensures from != to && Rank(from) < Rank(to) && CanTransition(from, to)
  {
  }

  lemma InsertGrows<K(!new), V>(table: map<K, V>, key: K, row: V)
    ensures forall k :: k in table ==>
              k in InsertIfAbsent(table, key, row) && InsertIfAbsent(table, key, row)[k] == table[k]
    ensures forall k :: k in InsertIfAbsent(table, key, row) && k !in table ==> k == key
  {
  }

  lemma EffectExtends(db: Db, call: Call, declined: bool, intent: string)
    ensures Extends(db, EffectTx(db, call, declined, intent))
  {
    hide InsertIfAbsent;
    InsertGrows(db.charges, call.op,
                Charge(call.op.order, call.amount, if declined then Declined else Succeeded, intent));
    InsertGrows(db.kitchen, call.op, Dispatch(call.op.order, call.op.to));
    InsertGrows(db.couriers, call.op, Dispatch(call.op.order, call.op.to));
    match StageDownstream(call.op.to)
    case Some(Payment) =>
    case Some(Restaurant) =>
    case Some(Courier) =>
    case None =>
  }

  lemma AskedStage(db: Db, op: Op)
    requires Asked(db, op)
    ensures op.to == Confirmed || op.to == Preparing || op.to == OutForDelivery
    ensures op.to == Confirmed ==> op == ChargeKey(op.order)
    ensures op.order in db.orders
  {
  }

  lemma ChargesGrow(db: Db, charges: map<Op, Charge>, op: Op)
    requires DbInv(db) && Extends(db, db.(charges := charges))
    requires forall p :: p in charges && p !in db.charges ==> p == op
    requires op in charges && op !in db.charges ==> ChargeInv(db.(charges := charges), op)
    ensures DbInv(db.(charges := charges))
  {
    TablesOf(db);
    hide DbInv, OrderInv, Logged, Extends, Asked, ChargeInv;
    DbFrame(db, db.(charges := charges));
  }

  lemma KitchenGrows(db: Db, kitchen: map<Op, Dispatch>, op: Op)
    requires DbInv(db) && Extends(db, db.(kitchen := kitchen))
    requires forall p :: p in kitchen && p !in db.kitchen ==> p == op
    requires Asked(db.(kitchen := kitchen), op) && op.to == Preparing
    ensures DbInv(db.(kitchen := kitchen))
  {
    TablesOf(db);
    hide DbInv, OrderInv, Logged, Extends, Asked, ChargeInv;
    DbFrame(db, db.(kitchen := kitchen));
  }

  lemma CouriersGrow(db: Db, couriers: map<Op, Dispatch>, op: Op)
    requires DbInv(db) && Extends(db, db.(couriers := couriers))
    requires forall p :: p in couriers && p !in db.couriers ==> p == op
    requires Asked(db.(couriers := couriers), op) && op.to == OutForDelivery
    ensures DbInv(db.(couriers := couriers))
  {
    TablesOf(db);
    hide DbInv, OrderInv, Logged, Extends, Asked, ChargeInv;
    DbFrame(db, db.(couriers := couriers));
  }

  lemma EffectRecorded(db: Db, call: Call, declined: bool, intent: string)
    requires Asked(db, call.op)
    ensures Recorded(EffectTx(db, call, declined, intent), call.op).Some?
  {
  }

  lemma NewCharge(db: Db, call: Call, declined: bool, intent: string)
    requires CallInv(db, call) && call.op.to == Confirmed && call.op !in db.charges
    ensures var db' := EffectTx(db, call, declined, intent); ChargeInv(db', call.op)
  {
  }

  lemma EffectShape(db: Db, call: Call, declined: bool, intent: string)
    ensures var op, db' := call.op, EffectTx(db, call, declined, intent);
            && (op.to == Confirmed ==> db' == db.(charges := db'.charges) && op in db'.charges
                                       && forall p :: p in db'.charges && p !in db.charges ==> p == op)
            && (op.to == Preparing ==> db' == db.(kitchen := db'.kitchen)
                                       && forall p :: p in db'.kitchen && p !in db.kitchen ==> p == op)
            && (op.to == OutForDelivery ==> db' == db.(couriers := db'.couriers)
                                            && forall p :: p in db'.couriers && p !in db.couriers ==> p == op)
  {
  }

  /** Claiming a request's effect: the table has a row for the key afterwards, and any new row is
      the request's own. */
  lemma EffectKeeps(db: Db, call: Call, declined: bool, intent: string)
    requires DbInv(db) && CallInv(db, call)
    ensures var db' := EffectTx(db, call, declined, intent);
            DbInv(db') && Extends(db, db') && Recorded(db', call.op).Some?
  {
    hide DbInv, Extends, Asked, AnswerOk, ChargeInv, Recorded, EffectTx;
    var op, db' := call.op, EffectTx(db, call, declined, intent);
    EffectShape(db, call, declined, intent);
    EffectExtends(db, call, declined, intent);
    AskedStable(db, db', op);
    AskedStage(db, op);
    EffectRecorded(db, call, declined, intent);
    if op.to == Confirmed && op !in db.charges {
      NewCharge(db, call, declined, intent);
    }
    if op.to == Confirmed {
      ChargesGrow(db, db'.charges, op);
    } else if op.to == Preparing {
      KitchenGrows(db, db'.kitchen, op);
    } else {
      CouriersGrow(db, db'.couriers, op);
    }
  }

  lemma RedisExtends(db: Db, redis: set<Op>)
    ensures Extends(db, db.(redis := redis))
  {
  }

  lemma RedisKeeps(db: Db, redis: set<Op>)
    requires DbInv(db) && redis <= db.ops
    ensures DbInv(db.(redis := redis)) && Extends(db, db.(redis := redis))
  {
    RedisExtends(db, redis);
    TablesOf(db);
    hide DbInv, OrderInv, Logged, Asked, ChargeInv, Extends;
    DbFrame(db, db.(redis := redis));
  }

  // ---- every step keeps the invariant ----------------------------------------

  lemma InitInv(cfg: Config)
    ensures Inv(cfg, INITIAL)
  {
  }

  /** A step that only replaces token k. */
  lemma MoveInv(cfg: Config, s: Sys, k: nat, t: Token)
    requires Inv(cfg, s) && k in s.tokens && TokenInv(cfg, s.db, s.calls, t)
    ensures Inv(cfg, Move(s, k, t))
  {
    hide DbInv;
    NothingChanged(s.db, s.calls);
    hide TokenInv, CallInv, Extends, CallsExtend;
    FrameInv(cfg, s, Move(s, k, t));
  }

  /** A step that replaces token k and adds another. */
  lemma MoveSpawnInv(cfg: Config, s: Sys, k: nat, t: Token, t': Token)
    requires Inv(cfg, s) && k in s.tokens
    requires TokenInv(cfg, s.db, s.calls, t) && TokenInv(cfg, s.db, s.calls, t')
    ensures Inv(cfg, Spawn(Move(s, k, t), t'))
  {
    hide DbInv;
    NothingChanged(s.db, s.calls);
    hide TokenInv, CallInv, Extends, CallsExtend;
    FrameInv(cfg, s, Spawn(Move(s, k, t), t'));
  }

  lemma ReadInv(cfg: Config, s: Sys, k: nat)
    requires Inv(cfg, s) && Enabled(cfg, s, Read(k))
    ensures Inv(cfg, Apply(cfg, s, Read(k)))
  {
    hide DbInv;
    hide CallInv, Extends;
    MoveInv(cfg, s, k, AfterRead(s.db, s.tokens[k]));
  }

  lemma ProceedInv(cfg: Config, s: Sys, k: nat)
    requires Inv(cfg, s) && Enabled(cfg, s, Proceed(k))
    ensures Inv(cfg, Apply(cfg, s, Proceed(k)))
  {
    hide DbInv;
    hide CallInv;
    MoveInv(cfg, s, k, AfterSnap(s.tokens[k]));
  }

  /** What a handler sends is about a step of an order it has seen, for that order's total. */
  lemma RequestOk(cfg: Config, db: Db, calls: map<nat, Call>, t: Token)
    requires TokenInv(cfg, db, calls, t) && t.Busy? && t.pc.Calling?
    ensures TargetOf(t.env).Some? && CallInv(db, Call(HappyOp(t.env), t.pc.total, Arrived))
  {
  }

  /** The handler that waits for its new request. */
  lemma SentToken(cfg: Config, db: Db, calls: map<nat, Call>, t: Token, c: nat)
    requires TokenInv(cfg, db, calls, t) && t.Busy? && t.pc.Calling? && c !in calls && TargetOf(t.env).Some?
    ensures var call := Call(HappyOp(t.env), t.pc.total, Arrived);
            && CallsExtend(calls, calls[c := call])
            && TokenInv(cfg, db, calls[c := call], t.(pc := Calling(t.pc.total, t.pc.tries, Some(c))))
  {
    hide EnvOk, Visited;
  }

  lemma SendInv(cfg: Config, s: Sys, k: nat)
    requires Inv(cfg, s) && Enabled(cfg, s, Send(k))
    ensures Inv(cfg, Apply(cfg, s, Send(k)))
  {
    hide DbInv, TokenInv, CallInv, Extends, CallsExtend;
    var t := s.tokens[k];
    TokenOf(cfg, s, k);
    RequestOk(cfg, s.db, s.calls, t);
    NothingChanged(s.db, s.calls);
    assert s.next !in s.calls;
    SentToken(cfg, s.db, s.calls, t, s.next);
    FrameInv(cfg, s, Apply(cfg, s, Send(k)));
  }

  /** What a handler makes of an answer that repeats the service's table. */
  lemma AnsweredToken(cfg: Config, db: Db, calls: map<nat, Call>, t: Token, answer: Answer)
    requires TokenInv(cfg, db, calls, t) && t.Busy? && t.pc.Calling? && TargetOf(t.env).Some?
    requires AnswerOk(db, HappyOp(t.env), answer)
    ensures TokenInv(cfg, db, calls, AfterAnswer(t, answer))
  {
    hide EnvOk, Visited;
  }

  lemma TakeAnswerInv(cfg: Config, s: Sys, k: nat)
    requires Inv(cfg, s) && Enabled(cfg, s, TakeAnswer(k))
    ensures Inv(cfg, Apply(cfg, s, TakeAnswer(k)))
  {
    hide DbInv, TokensInv, CallsInv, EnvOk, Asked, Visited, Justified, AnswerOk, Recorded, AfterAnswer;
    var t := s.tokens[k];
    TokenOf(cfg, s, k);
    CallOf(cfg, s, t.pc.call.value);
    AnsweredToken(cfg, s.db, s.calls, t, s.calls[t.pc.call.value].cpc.answer);
    hide Inv, TokenInv;
    MoveInv(cfg, s, k, AfterAnswer(t, s.calls[t.pc.call.value].cpc.answer));
  }

  lemma AppliedTokens(cfg: Config, db: Db, calls: map<nat, Call>, t: Token, op: Op, done: Pc)
    requires TokenInv(cfg, db, calls, t) && t.Busy? && !t.faulted
    requires op.order == t.env.order && op in db.ops && op.order in db.orders && Visited(db, op.order, op.to)
    requires done == Acking || (done == Marking && TargetOf(t.env).Some? && op == HappyOp(t.env))
    ensures TokenInv(cfg, db, calls, t.(pc := done))
    ensures !IsTerminal(op.to) ==> TokenInv(cfg, db, calls, AdvanceRow(op.order, op.to))
  {
  }

  lemma LoggedVisited(db: Db, op: Op)
    requires Logged(db, op)
    ensures Visited(db, op.order, op.to)
  {
  }

  /** The three transactions, whatever interleaved since the handler read the order. */
  lemma AppliedInv(cfg: Config, s: Sys, k: nat, op: Op, cause: Cause, done: Pc)
    requires Inv(cfg, s) && BusyAt(s, k) && !s.tokens[k].faulted
    requires op.order == s.tokens[k].env.order && TxOf(s.db, op) == Applied
    requires StepOk(op.from, op.to) && Justified(s.db, op)
    requires done == Acking || (done == Marking && TargetOf(s.tokens[k].env).Some? && op == HappyOp(s.tokens[k].env))
    ensures Inv(cfg, RunTx(cfg, s, k, op, cause, done))
  {
    hide DbInv, OrderInv, Logged, Visited, Extends, CallsExtend, CallInv, Justified, TokenInv, StepOk;
    var t := s.tokens[k];
    TokenOf(cfg, s, k);
    TransitionKeeps(s.db, op, cause, t.att);
    TransitionOrder(s.db, op, cause, t.att);
    var db' := TransitionTx(s.db, op, cause, t.att);
    NothingChanged(s.db, s.calls);
    TokenStable(cfg, s.db, db', s.calls, s.calls, t);
    LoggedVisited(db', op);
    assert op in db'.ops && op.order in db'.orders;
    AppliedTokens(cfg, db', s.calls, t, op, done);
    hide TransitionTx;
    FrameInv(cfg, s, RunTx(cfg, s, k, op, cause, done));
  }

  lemma RunTxInv(cfg: Config, s: Sys, k: nat, op: Op, cause: Cause, done: Pc)
    requires Inv(cfg, s) && BusyAt(s, k) && !s.tokens[k].faulted
    requires s.tokens[k].pc != Bounce
    requires op.order == s.tokens[k].env.order
    requires StepOk(op.from, op.to) && Justified(s.db, op)
    requires done == Acking || (done == Marking && TargetOf(s.tokens[k].env).Some? && op == HappyOp(s.tokens[k].env))
    ensures Inv(cfg, RunTx(cfg, s, k, op, cause, done))
  {
    hide DbInv;
    var t := s.tokens[k];
    TokenOf(cfg, s, k);
    hide CallsInv, Justified;
    match TxOf(s.db, op)
    case Dedup => MoveInv(cfg, s, k, t.(pc := Acking));
    case Raced => MoveInv(cfg, s, k, AfterFault(cfg, t));
    case Applied => AppliedInv(cfg, s, k, op, cause, done);
  }

  /** What a handler about to commit, fail or cancel knows. */
  lemma ReadyToClaim(cfg: Config, db: Db, calls: map<nat, Call>, t: Token)
    requires TokenInv(cfg, db, calls, t) && t.Busy?
    requires t.pc == Cleared || t.pc == Rejected || t.pc == Cancelling
    ensures !t.faulted && t.env.data.AdvanceCommand?
    ensures t.pc == Cleared ==>
              TargetOf(t.env).Some? && StepOk(HappyOp(t.env).from, HappyOp(t.env).to) && Justified(db, HappyOp(t.env))
    ensures var target := if t.pc == Rejected then Failed else Cancelled;
            t.pc != Cleared ==>
              StepOk(t.env.data.from, target) && Justified(db, Op(t.env.order, t.env.data.from, target))
  {
  }

  lemma TxStepInv(cfg: Config, s: Sys, step: Step)
    requires Inv(cfg, s) && Enabled(cfg, s, step)
    requires step.Commit? || step.FailOrder? || step.Cancel?
    ensures Inv(cfg, Apply(cfg, s, step))
  {
    hide DbInv, TokensInv, CallsInv, TokenInv, Justified, StepOk, RunTx;
    var t := s.tokens[step.k];
    TokenOf(cfg, s, step.k);
    ReadyToClaim(cfg, s.db, s.calls, t);
    hide Inv;
    match step
    case Commit(k) => RunTxInv(cfg, s, k, HappyOp(t.env), Advanced, Marking);
    case FailOrder(k) => RunTxInv(cfg, s, k, Op(t.env.order, t.env.data.from, Failed), Refused, Acking);
    case Cancel(k) => RunTxInv(cfg, s, k, Op(t.env.order, t.env.data.from, Cancelled), CustomerCancelled, Acking);
  }

  lemma SeededTokens(cfg: Config, db: Db, calls: map<nat, Call>, t: Token)
    requires TokenInv(cfg, db, calls, t) && t.PlacedBusy?
    requires t.env.order in db.orders && t.env.order in db.log
    ensures TokenInv(cfg, db, calls, t.(ppc := Committed))
    ensures TokenInv(cfg, db, calls, AdvanceRow(t.env.order, Placed))
  {
  }

  lemma PlacedCommitInv(cfg: Config, s: Sys, k: nat)
    requires Inv(cfg, s) && Enabled(cfg, s, PlacedCommit(k))
    ensures Inv(cfg, Apply(cfg, s, PlacedCommit(k)))
  {
    hide DbInv, Extends, CallsExtend, CallInv, Visited, PcOk;
    var t := s.tokens[k];
    TokenOf(cfg, s, k);
    SeedKeeps(s.db, t.env.order, t.env.data.total);
    var db' := SeedTx(s.db, t.env.order, t.env.data.total);
    NothingChanged(s.db, s.calls);
    TokenStable(cfg, s.db, db', s.calls, s.calls, t);
    TablesOf(db');
    SeededTokens(cfg, db', s.calls, t);
    hide TokenInv, SeedTx;
    FrameInv(cfg, s, Apply(cfg, s, PlacedCommit(k)));
  }

  lemma BouncedTokens(cfg: Config, db: Db, calls: map<nat, Call>, t: Token)
    requires TokenInv(cfg, db, calls, t) && t.Busy? && t.pc == Bounce
    ensures t.att >= cfg.maxAttempts ==>
              && TokenInv(cfg, db, calls, t.(pc := Acking))
              && TokenInv(cfg, db, calls, Dlq(t.env.(attempt := t.att), false))
    ensures t.att < cfg.maxAttempts ==>
              TokenInv(cfg, db, calls, t.(pc := Acking, att := t.att + 1))
              && TokenInv(cfg, db, calls, Retry(t.env.(attempt := t.att + 1)))
  {
    hide Visited;
  }

  lemma PublishBounceInv(cfg: Config, s: Sys, k: nat)
    requires Inv(cfg, s) && Enabled(cfg, s, BouncePublish(k))
    ensures Inv(cfg, Apply(cfg, s, BouncePublish(k)))
  {
    hide DbInv, TokensInv, CallsInv, TokenInv;
    var t := s.tokens[k];
    TokenOf(cfg, s, k);
    BouncedTokens(cfg, s.db, s.calls, t);
    hide Inv;
    if t.att >= cfg.maxAttempts {
      MoveSpawnInv(cfg, s, k, t.(pc := Acking), Dlq(t.env.(attempt := t.att), false));
    } else {
      MoveSpawnInv(cfg, s, k, t.(pc := Acking, att := t.att + 1), Retry(t.env.(attempt := t.att + 1)));
    }
  }

  lemma PlacedTokens(cfg: Config, db: Db, calls: map<nat, Call>, t: Token)
    requires TokenInv(cfg, db, calls, t) && t.PlacedBusy?
    ensures TokenInv(cfg, db, calls, t.(ppc := Parked)) && TokenInv(cfg, db, calls, Dlq(t.env, false))
    ensures TokenInv(cfg, db, calls, PlacedReady(t.env, true))
  {
    hide EnvOk;
  }

  lemma PlacedFaultInv(cfg: Config, s: Sys, k: nat)
    requires Inv(cfg, s) && Enabled(cfg, s, PlacedFault(k))
    ensures Inv(cfg, Apply(cfg, s, PlacedFault(k)))
  {
    hide DbInv, TokensInv, CallsInv, TokenInv;
    var t := s.tokens[k];
    TokenOf(cfg, s, k);
    PlacedTokens(cfg, s.db, s.calls, t);
    hide Inv;
    if t.redelivered {
      MoveSpawnInv(cfg, s, k, t.(ppc := Parked), Dlq(t.env, false));
    } else {
      MoveInv(cfg, s, k, PlacedReady(t.env, true));
    }
  }

  lemma SetCallInv(cfg: Config, s: Sys, c: nat, cpc: CallPc)
    requires Inv(cfg, s) && c in s.calls
    requires cpc.Answered? ==> AnswerOk(s.db, s.calls[c].op, cpc.answer)
    ensures Inv(cfg, SetCall(s, c, cpc))
  {
    hide DbInv;
    NothingChanged(s.db, s.calls);
    hide TokenInv, Asked, AnswerOk;
    FrameInv(cfg, s, SetCall(s, c, cpc));
  }

  lemma CallClaimInv(cfg: Config, s: Sys, c: nat, declined: bool, intent: string)
    requires Inv(cfg, s) && Enabled(cfg, s, CallClaim(c, declined, intent))
    ensures Inv(cfg, Apply(cfg, s, CallClaim(c, declined, intent)))
  {
    hide DbInv, TokenInv, Asked, Extends, CallsExtend, EffectTx, Recorded;
    var db' := EffectTx(s.db, s.calls[c], declined, intent);
    CallOf(cfg, s, c);
    EffectKeeps(s.db, s.calls[c], declined, intent);
    CallStable(s.db, db', s.calls[c]);
    var s' := Apply(cfg, s, CallClaim(c, declined, intent));
    SameOps(s.calls, c, s'.calls[c]);
    FrameInv(cfg, s, s');
  }

  lemma SameOps(calls: map<nat, Call>, c: nat, call: Call)
    requires c in calls && calls[c].op == call.op
    ensures CallsExtend(calls, calls[c := call])
  {
  }

  lemma CallStepInv(cfg: Config, s: Sys, step: Step)
    requires Inv(cfg, s) && Enabled(cfg, s, step)
    requires step.CallRefuse? || step.CallLookup? || step.CallFlake?
    ensures Inv(cfg, Apply(cfg, s, step))
  {
    hide DbInv;
    hide Inv;
    match step
    case CallRefuse(c) => SetCallInv(cfg, s, c, Answered(Unavailable));
    case CallLookup(c) =>
      var cpc := match Recorded(s.db, s.calls[c].op) case Some(a) => Answered(a) case None => Missed;
      SetCallInv(cfg, s, c, cpc);
    case CallFlake(c, limited) => SetCallInv(cfg, s, c, Answered(if limited then Busy429 else Unavailable));
  }

  lemma DropStepInv(cfg: Config, s: Sys, step: Step)
    requires Inv(cfg, s) && Enabled(cfg, s, step)
    requires step.RelayStamp? || step.PlacedAck? || step.Ack? || step.ReplayAck? || step.Discard?
    ensures Inv(cfg, Apply(cfg, s, step))
  {
    hide DbInv;
    NothingChanged(s.db, s.calls);
    hide TokenInv, CallInv, Extends, CallsExtend;
    FrameInv(cfg, s, Drop(s, step.k));
  }

  lemma CopyStepInv(cfg: Config, s: Sys, step: Step)
    requires Inv(cfg, s) && Enabled(cfg, s, step)
    requires step.RelayPublish? || step.ReplayPublish?
    ensures Inv(cfg, Apply(cfg, s, step))
  {
    hide DbInv;
    var t := s.tokens[step.k];
    TokenOf(cfg, s, step.k);
    hide Inv, PcOk, Visited;
    if step.RelayPublish? {
      MoveSpawnInv(cfg, s, step.k, t.(published := true), Routed(t.env));
    } else {
      MoveSpawnInv(cfg, s, step.k, t.(replayed := true), Work(t.env.(attempt := 1)));
    }
  }

  lemma MarkedToken(cfg: Config, db: Db, calls: map<nat, Call>, t: Token)
    requires TokenInv(cfg, db, calls, t) && t.Busy? && t.pc == Marking
    ensures TokenInv(cfg, db, calls, t.(pc := Acking)) && TargetOf(t.env).Some? && HappyOp(t.env) in db.ops
  {
    hide Visited;
  }

  lemma RedisStepInv(cfg: Config, s: Sys, step: Step)
    requires Inv(cfg, s) && Enabled(cfg, s, step)
    requires step.MarkDone? || step.RedisForget?
    ensures Inv(cfg, Apply(cfg, s, step))
  {
    hide DbInv, TokenInv, CallInv, Extends, CallsExtend;
    var s' := Apply(cfg, s, step);
    TablesOf(s.db);
    if step.MarkDone? {
      TokenOf(cfg, s, step.k);
      MarkedToken(cfg, s.db, s.calls, s.tokens[step.k]);
      TokenStableRedis(cfg, s.db, s'.db.redis, s.calls, s'.tokens[step.k]);
    }
    RedisKeeps(s.db, s'.db.redis);
    NothingChanged(s.db, s.calls);
    FrameInv(cfg, s, s');
  }

  lemma TokenStableRedis(cfg: Config, db: Db, redis: set<Op>, calls: map<nat, Call>, t: Token)
    requires TokenInv(cfg, db, calls, t)
    ensures TokenInv(cfg, db.(redis := redis), calls, t)
  {
  }

  lemma PostStepInv(cfg: Config, s: Sys, step: Step)
    requires Inv(cfg, s) && Enabled(cfg, s, step) && step.Post?
    ensures Inv(cfg, Apply(cfg, s, step))
  {
    hide DbInv;
    PostKeeps(s.db, step.key, step.order, step.total);
    NothingChanged(s.db, s.calls);
    var db' := PostTx(s.db, step.key, step.order, step.total);
    if PostOf(s.db, step.key, step.order, step.total) == Accepted {
      assert TokenInv(cfg, db', s.calls, Outbox(Envelope(step.order, 1, PlacedEvent(step.total)), false));
      hide TokenInv, CallInv, Extends, CallsExtend, PostOf;
      FrameInv(cfg, s, Apply(cfg, s, step));
    }
  }

  predicate SmallStep(step: Step) {
    || step.RelayAbort? || step.PlacedDeliver? || step.Deliver? || step.RollCancel? || step.DedupSkip?
    || step.BreakerReject? || step.TimeOut? || step.GiveUp? || step.Fault? || step.RetryExpire? || step.Redeliver?
  }

  lemma SmallStepMoves(cfg: Config, s: Sys, step: Step)
    requires Enabled(cfg, s, step) && SmallStep(step)
    ensures step.k in s.tokens && step.k in Apply(cfg, s, step).tokens
    ensures Apply(cfg, s, step) == Move(s, step.k, Apply(cfg, s, step).tokens[step.k])
  {
  }

  /** The token that a step replacing only token k leaves there. */
  lemma SmallStepToken(cfg: Config, s: Sys, step: Step)
    requires Enabled(cfg, s, step) && SmallStep(step)
    requires step.k in s.tokens && TokenInv(cfg, s.db, s.calls, s.tokens[step.k])
    ensures step.k in Apply(cfg, s, step).tokens
    ensures TokenInv(cfg, s.db, s.calls, Apply(cfg, s, step).tokens[step.k])
  {
    hide TokenInv;
    if step.Redeliver? || step.Deliver? || step.RelayAbort? || step.PlacedDeliver? || step.RetryExpire? {
      QueueStepToken(cfg, s, step);
    } else {
      PcStepToken(cfg, s, step);
    }
  }

  lemma QueueStepToken(cfg: Config, s: Sys, step: Step)
    requires step.Redeliver? || step.Deliver? || step.RelayAbort? || step.PlacedDeliver? || step.RetryExpire?
    requires Enabled(cfg, s, step)
    requires step.k in s.tokens && TokenInv(cfg, s.db, s.calls, s.tokens[step.k])
    ensures step.k in Apply(cfg, s, step).tokens
    ensures TokenInv(cfg, s.db, s.calls, Apply(cfg, s, step).tokens[step.k])
  {
    hide EnvOk, Visited, Justified;
    EnvBounds(cfg, s.db, s.tokens[step.k].env);
  }

  lemma PcStepToken(cfg: Config, s: Sys, step: Step)
    requires SmallStep(step)
    requires !(step.Redeliver? || step.Deliver? || step.RelayAbort? || step.PlacedDeliver? || step.RetryExpire?)
    requires Enabled(cfg, s, step)
    requires step.k in s.tokens && TokenInv(cfg, s.db, s.calls, s.tokens[step.k])
    ensures step.k in Apply(cfg, s, step).tokens
    ensures TokenInv(cfg, s.db, s.calls, Apply(cfg, s, step).tokens[step.k])
  {
    hide EnvOk, Visited, Justified;
  }

  lemma EnvBounds(cfg: Config, db: Db, env: Envelope)
    requires EnvOk(cfg, db, env)
    ensures 1 <= env.attempt <= MaxAttempt(cfg)
    ensures EnvOk(cfg, db, env)
  {
  }

  lemma SmallStepInv(cfg: Config, s: Sys, step: Step)
    requires Inv(cfg, s) && Enabled(cfg, s, step) && SmallStep(step)
    ensures Inv(cfg, Apply(cfg, s, step))
  {
    hide DbInv;
    hide Apply, Move, TokenInv;
    SmallStepMoves(cfg, s, step);
    TokenOf(cfg, s, step.k);
    SmallStepToken(cfg, s, step);
    MoveInv(cfg, s, step.k, Apply(cfg, s, step).tokens[step.k]);
  }

  /** The invariant holds after every step, in whatever order the steps are interleaved. */
  lemma StepInv(cfg: Config, s: Sys, step: Step)
    requires Inv(cfg, s) && Enabled(cfg, s, step)
    ensures Inv(cfg, Apply(cfg, s, step))
  {
    hide DbInv;
    hide Inv, Apply, Enabled;
    match step
    case Post(_, _, _) => PostStepInv(cfg, s, step);
    case PlacedCommit(k) => PlacedCommitInv(cfg, s, k);
    case PlacedFault(k) => PlacedFaultInv(cfg, s, k);
    case Read(k) => ReadInv(cfg, s, k);
    case Proceed(k) => ProceedInv(cfg, s, k);
    case Send(k) => SendInv(cfg, s, k);
    case TakeAnswer(k) => TakeAnswerInv(cfg, s, k);
    case BouncePublish(k) => PublishBounceInv(cfg, s, k);
    case CallClaim(c, declined, intent) => CallClaimInv(cfg, s, c, declined, intent);
    case Commit(_) => TxStepInv(cfg, s, step);
    case FailOrder(_) => TxStepInv(cfg, s, step);
    case Cancel(_) => TxStepInv(cfg, s, step);
    case MarkDone(_, _) => RedisStepInv(cfg, s, step);
    case RedisForget(_) => RedisStepInv(cfg, s, step);
    case RelayPublish(_) => CopyStepInv(cfg, s, step);
    case ReplayPublish(_) => CopyStepInv(cfg, s, step);
    case RelayStamp(_) => DropStepInv(cfg, s, step);
    case PlacedAck(_) => DropStepInv(cfg, s, step);
    case Ack(_) => DropStepInv(cfg, s, step);
    case ReplayAck(_) => DropStepInv(cfg, s, step);
    case Discard(_) => DropStepInv(cfg, s, step);
    case CallRefuse(_) => CallStepInv(cfg, s, step);
    case CallLookup(_) => CallStepInv(cfg, s, step);
    case CallFlake(_, _) => CallStepInv(cfg, s, step);
    case _ => SmallStepInv(cfg, s, step);
  }
}
