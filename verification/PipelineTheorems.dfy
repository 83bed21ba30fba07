/** What the pipeline guarantees over whole runs: every statement is about the state after an
    arbitrary run from the empty system, with any interleaving of requests, relays, handlers,
    crashes, duplicate deliveries, retries, parkings and replays. */
module PipelineTheorems {
  import opened Lifecycle
  import opened Pipeline
  import opened PipelineInvariant
  import opened PipelineNoLoss
  import opened PipelineDrain

  // ---- runs --------------------------------------------------------------------

  lemma {:induction false} RunInv(cfg: Config, s: Sys, steps: seq<Step>)
    requires Inv(cfg, s) && ValidRun(cfg, s, steps)
    ensures Inv(cfg, Exec(cfg, s, steps))
    decreases |steps|
  {
    hide Inv, Apply, Enabled;
    if |steps| > 0 {
      StepInv(cfg, s, steps[0]);
      RunInv(cfg, Apply(cfg, s, steps[0]), steps[1..]);
    }
  }

  lemma Reached(cfg: Config, steps: seq<Step>)
    requires ValidRun(cfg, INITIAL, steps)
    ensures Inv(cfg, Exec(cfg, INITIAL, steps))
  {
    InitInv(cfg);
    RunInv(cfg, INITIAL, steps);
  }

  predicate NeverDiscards(steps: seq<Step>) {
    forall i :: 0 <= i < |steps| ==> !steps[i].Discard?
  }

  predicate Undisturbed(steps: seq<Step>) {
    forall i :: 0 <= i < |steps| ==> !Disturbance(steps[i])
  }

  lemma {:induction false} RunLive(cfg: Config, s: Sys, steps: seq<Step>)
    requires Inv(cfg, s) && NoneLost(s) && ValidRun(cfg, s, steps) && NeverDiscards(steps)
    ensures NoneLost(Exec(cfg, s, steps))
    decreases |steps|
  {
    hide Inv, Apply, Enabled, NoneLost;
    if |steps| > 0 {
      StepInv(cfg, s, steps[0]);
      StepLive(cfg, s, steps[0]);
      RunLive(cfg, Apply(cfg, s, steps[0]), steps[1..]);
    }
  }

  // ---- no order is lost ----------------------------------------------------------

  /** Every accepted order that is not finished has an envelope for exactly what it waits for:
      order.placed while it has no orchestrator row, order.advance from its current state after. */
  lemma NoOrderLost(cfg: Config, steps: seq<Step>, o: OrderId)
    requires ValidRun(cfg, INITIAL, steps) && NeverDiscards(steps)
    ensures var s := Exec(cfg, INITIAL, steps);
            Unfinished(s.db, o) ==>
              exists k :: k in s.tokens && Cargo(s.tokens[k]).Some? && Cargo(s.tokens[k]).value.order == o
                          && Needs(s.db, o, Cargo(s.tokens[k]).value.data)
  {
    InitInv(cfg);
    InitLive();
    RunLive(cfg, INITIAL, steps);
    var s := Exec(cfg, INITIAL, steps);
    LiveAll(s);
    hide Exec, ValidRun, NoneLost, Unfinished, Needs;
    assert Live(s, o);
    if Unfinished(s.db, o) {
      var k :| k in s.tokens && Serves(s.db, s.tokens[k], o);
      assert Needs(s.db, o, Cargo(s.tokens[k]).value.data);
    }
  }

  // ---- the pipeline drains ---------------------------------------------------------

  /** An undisturbed run is no longer than the weight of the state it starts in. */
  lemma {:induction false} UndisturbedRunsEnd(cfg: Config, s: Sys, steps: seq<Step>)
    requires Inv(cfg, s) && ValidRun(cfg, s, steps) && Undisturbed(steps)
    ensures |steps| + Weight(cfg, Exec(cfg, s, steps)) <= Weight(cfg, s)
    decreases |steps|
  {
    hide Inv, Apply, Enabled, Weight;
    if |steps| > 0 {
      StepInv(cfg, s, steps[0]);
      StepDrains(cfg, s, steps[0]);
      UndisturbedRunsEnd(cfg, Apply(cfg, s, steps[0]), steps[1..]);
    }
  }

  /** From every state the undisturbed pipeline can run until it is quiet. */
  lemma {:induction false} CanDrain(cfg: Config, s: Sys) returns (steps: seq<Step>)
    requires Inv(cfg, s)
    ensures ValidRun(cfg, s, steps) && Undisturbed(steps) && Quiescent(cfg, Exec(cfg, s, steps))
    decreases Weight(cfg, s)
  {
    hide Inv, Apply, Enabled, Weight;
    if Quiescent(cfg, s) {
      steps := [];
    } else {
      var step :| Enabled(cfg, s, step) && !Disturbance(step);
      hide Quiescent, Disturbance;
      StepInv(cfg, s, step);
      StepDrains(cfg, s, step);
      var rest := CanDrain(cfg, Apply(cfg, s, step));
      steps := [step] + rest;
      assert steps[1..] == rest;
    }
  }

  /** BROKER_MAX_ATTEMPTS, or one: what it takes to get a command parked. */
  predicate AtTheCap(cfg: Config, attempt: int) {
    attempt == if cfg.maxAttempts > 1 then cfg.maxAttempts else 1
  }

  /** Token k is the parked envelope that order o waits for, a command after its last attempt. */
  predicate ParkedFor(cfg: Config, s: Sys, k: nat, o: OrderId) {
    && k in s.tokens && s.tokens[k].Dlq? && !s.tokens[k].replayed
    && s.tokens[k].env.order == o && Needs(s.db, o, s.tokens[k].env.data)
    && (s.tokens[k].env.data.AdvanceCommand? ==> AtTheCap(cfg, s.tokens[k].env.attempt))
  }

  /** After every run a command is parked only at the cap, whatever happened to its handlers, and what
      waits in the retry queue is a second attempt or a later one within the cap. */
  lemma ParkedOnlyAtTheCap(cfg: Config, steps: seq<Step>, k: nat)
    requires ValidRun(cfg, INITIAL, steps) && k in Exec(cfg, INITIAL, steps).tokens
    ensures var t := Exec(cfg, INITIAL, steps).tokens[k];
            && (t.Dlq? && t.env.data.AdvanceCommand? ==> AtTheCap(cfg, t.env.attempt))
            && (t.Retry? ==> 2 <= t.env.attempt <= cfg.maxAttempts)
  {
    Reached(cfg, steps);
    hide Exec, ValidRun, Inv, PcOk, Visited;
    TokenOf(cfg, Exec(cfg, INITIAL, steps), k);
  }

  /** Once quiet, every accepted order is delivered, cancelled or failed, or the envelope it waits
      for is parked in the DLQ, a command after its last attempt. */
  lemma QuietOutcome(cfg: Config, steps: seq<Step>, o: OrderId)
    requires ValidRun(cfg, INITIAL, steps) && NeverDiscards(steps)
    requires Quiescent(cfg, Exec(cfg, INITIAL, steps)) && o in Exec(cfg, INITIAL, steps).db.ingest
    ensures var s := Exec(cfg, INITIAL, steps);
            || (o in s.db.orders && IsTerminal(s.db.orders[o].state))
            || exists k :: ParkedFor(cfg, s, k, o)
  {
    Reached(cfg, steps);
    NoOrderLost(cfg, steps, o);
    var s := Exec(cfg, INITIAL, steps);
    QuietMeansParked(cfg, s);
    hide Exec, ValidRun, Inv, Quiescent, Needs;
    if Unfinished(s.db, o) {
      var k :| k in s.tokens && Cargo(s.tokens[k]).Some? && Cargo(s.tokens[k]).value.order == o
               && Needs(s.db, o, Cargo(s.tokens[k]).value.data);
      assert ParkedFor(cfg, s, k, o);
    }
  }

  // ---- exactly-once effects, in causal order -----------------------------------------

  lemma VisitedFrom(db: Db, o: OrderId, st: State) returns (from: State)
    requires DbInv(db) && o in db.orders && Visited(db, o, st) && st != Placed
    ensures StepOk(from, st) && Justified(db, Op(o, from, st)) && Visited(db, o, from) && Op(o, from, st) in db.ops
  {
    OrderOf(db, o);
    hide DbInv, Justified;
    var log := db.log[o];
    var i :| 0 <= i < |log| && log[i].to == st;
    from := log[i].from;
    assert StepOk(log[i].from, st);
    if i > 0 {
      assert log[i].from == log[i - 1].to;
    }
    assert Op(o, from, st) in db.ops;
  }

  lemma OnlyOnePrevious(f: State, from: State, st: State)
    requires StepOk(f, st) && NextHappy(from) == Some(st)
    ensures f == from
  {
  }

  /** Having entered a happy stage means having entered the one before it, for cause. */
  lemma VisitedPrevious(db: Db, o: OrderId, from: State, st: State)
    requires DbInv(db) && o in db.orders && Visited(db, o, st) && NextHappy(from) == Some(st)
    ensures Visited(db, o, from) && Justified(db, Op(o, from, st)) && Op(o, from, st) in db.ops
  {
    hide DbInv, Justified, Visited, StepOk;
    var f := VisitedFrom(db, o, st);
    OnlyOnePrevious(f, from, st);
  }

  lemma JustifiedMeans(db: Db, o: OrderId)
    ensures Justified(db, Op(o, Placed, Confirmed)) ==>
              ChargeKey(o) in db.charges && db.charges[ChargeKey(o)].status == Succeeded
    ensures Justified(db, Op(o, Confirmed, Preparing)) ==> Op(o, Confirmed, Preparing) in db.kitchen
    ensures Justified(db, Op(o, Ready, OutForDelivery)) ==> Op(o, Ready, OutForDelivery) in db.couriers
    ensures forall from :: Justified(db, Op(o, from, Failed)) ==>
              ChargeKey(o) in db.charges && db.charges[ChargeKey(o)].status == Declined
  {
  }

  /** An order has at most one charge, one restaurant dispatch and one courier dispatch. */
  lemma AtMostOneEffect(cfg: Config, steps: seq<Step>)
    requires ValidRun(cfg, INITIAL, steps)
    ensures var db := Exec(cfg, INITIAL, steps).db;
            && (forall op, op' :: op in db.charges && op' in db.charges && op.order == op'.order ==> op == op')
            && (forall op, op' :: op in db.kitchen && op' in db.kitchen && op.order == op'.order ==> op == op')
            && (forall op, op' :: op in db.couriers && op' in db.couriers && op.order == op'.order ==> op == op')
  {
    Reached(cfg, steps);
    var db := Exec(cfg, INITIAL, steps).db;
    hide Exec, ValidRun;
    EffectKeys(db);
  }

  lemma EffectKeys(db: Db)
    requires DbInv(db)
    ensures forall op :: op in db.charges ==> op == Op(op.order, Placed, Confirmed)
    ensures forall op :: op in db.kitchen ==> op == Op(op.order, Confirmed, Preparing)
    ensures forall op :: op in db.couriers ==> op == Op(op.order, Ready, OutForDelivery)
  {
    hide OrderInv, Logged, Visited, KeysUnique;
  }

  /** Having reached confirmed, preparing or out_for_delivery means the matching row exists. */
  lemma StageImpliesEffect(cfg: Config, steps: seq<Step>, o: OrderId)
    requires ValidRun(cfg, INITIAL, steps) && o in Exec(cfg, INITIAL, steps).db.orders
    ensures var db := Exec(cfg, INITIAL, steps).db;
            && (Visited(db, o, Confirmed) ==>
                  ChargeKey(o) in db.charges && db.charges[ChargeKey(o)].status == Succeeded)
            && (Visited(db, o, Preparing) ==> Op(o, Confirmed, Preparing) in db.kitchen)
            && (Visited(db, o, OutForDelivery) ==> Op(o, Ready, OutForDelivery) in db.couriers)
            && (Visited(db, o, Failed) ==> ChargeKey(o) in db.charges && db.charges[ChargeKey(o)].status == Declined)
  {
    Reached(cfg, steps);
    var db := Exec(cfg, INITIAL, steps).db;
    hide Exec, ValidRun, DbInv, TokensInv, CallsInv, Visited;
    StageEffects(db, o);
  }

  lemma StageEffects(db: Db, o: OrderId)
    requires DbInv(db) && o in db.orders
    ensures Visited(db, o, Confirmed) ==> ChargeKey(o) in db.charges && db.charges[ChargeKey(o)].status == Succeeded
    ensures Visited(db, o, Preparing) ==> Op(o, Confirmed, Preparing) in db.kitchen
    ensures Visited(db, o, OutForDelivery) ==> Op(o, Ready, OutForDelivery) in db.couriers
    ensures Visited(db, o, Failed) ==> ChargeKey(o) in db.charges && db.charges[ChargeKey(o)].status == Declined
  {
    hide DbInv, Visited, Justified, StepOk;
    JustifiedMeans(db, o);
    if Visited(db, o, Confirmed) { VisitedPrevious(db, o, Placed, Confirmed); }
    if Visited(db, o, Preparing) { VisitedPrevious(db, o, Confirmed, Preparing); }
    if Visited(db, o, OutForDelivery) { VisitedPrevious(db, o, Ready, OutForDelivery); }
    if Visited(db, o, Failed) { var from := VisitedFrom(db, o, Failed); }
  }

  /** A courier row implies a restaurant row, and a restaurant row a succeeded charge: no dispatch
      is ever made for an order that was not paid, even if it is cancelled or duplicated later. */
  lemma EffectsInCausalOrder(cfg: Config, steps: seq<Step>, o: OrderId)
    requires ValidRun(cfg, INITIAL, steps)
    ensures var db := Exec(cfg, INITIAL, steps).db;
            && (Op(o, Ready, OutForDelivery) in db.couriers ==> Op(o, Confirmed, Preparing) in db.kitchen)
            && (Op(o, Confirmed, Preparing) in db.kitchen ==>
                  ChargeKey(o) in db.charges && db.charges[ChargeKey(o)].status == Succeeded)
  {
    Reached(cfg, steps);
    hide Exec, ValidRun, DbInv, TokensInv, CallsInv;
    CausalOrder(Exec(cfg, INITIAL, steps).db, o);
  }

  lemma CausalOrder(db: Db, o: OrderId)
    requires DbInv(db)
    ensures Op(o, Ready, OutForDelivery) in db.couriers ==> Op(o, Confirmed, Preparing) in db.kitchen
    ensures Op(o, Confirmed, Preparing) in db.kitchen ==>
              ChargeKey(o) in db.charges && db.charges[ChargeKey(o)].status == Succeeded
  {
    hide DbInv, Visited, Justified;
    JustifiedMeans(db, o);
    var courier, ticket := Op(o, Ready, OutForDelivery), Op(o, Confirmed, Preparing);
    AskedOf(db, courier);
    AskedOf(db, ticket);
    if courier in db.couriers {
      VisitedPrevious(db, o, Preparing, Ready);
      VisitedPrevious(db, o, Confirmed, Preparing);
    }
    if ticket in db.kitchen {
      VisitedPrevious(db, o, Placed, Confirmed);
    }
  }

  lemma AskedOf(db: Db, op: Op)
    requires DbInv(db)
    ensures op in db.kitchen || op in db.couriers ==> op.order in db.orders && Visited(db, op.order, op.from)
  {
    hide OrderInv, Logged, ChargeInv, KeysUnique;
  }

  // ---- the lifecycle is respected although nothing checks it --------------------------

  /** What one step does to an order: it stays where it is or makes one allowed move, recorded by
      one transitions row; a new order starts in placed; none disappears. */
  ghost predicate OrderStep(db: Db, db': Db, o: OrderId) {
    if o in db.orders then
      && o in db'.orders && o in db.log && o in db'.log
      && if db'.orders[o].state == db.orders[o].state then db'.log[o] == db.log[o]
         else
           && CanTransition(db.orders[o].state, db'.orders[o].state)
           && exists row :: db'.log[o] == db.log[o] + [row]
                            && row.from == db.orders[o].state && row.to == db'.orders[o].state
    else
      o in db'.orders ==>
        o in db.ingest && db'.orders[o].state == Placed && o in db'.log && db'.log[o] == []
  }

  ghost predicate LifecycleStep(db: Db, db': Db) {
    forall o: OrderId :: OrderStep(db, db', o)
  }

  lemma SameOrders(db: Db, db': Db)
    requires db.log.Keys == db.orders.Keys && db'.orders == db.orders && db'.log == db.log
    ensures LifecycleStep(db, db')
  {
  }

  lemma TransitionRefines(db: Db, op: Op, cause: Cause, attempt: int)
    requires db.log.Keys == db.orders.Keys && StepOk(op.from, op.to)
    ensures LifecycleStep(db, TransitionTx(db, op, cause, attempt))
  {
  }

  lemma SeedRefines(db: Db, o: OrderId, total: int)
    requires db.log.Keys == db.orders.Keys && o in db.ingest
    ensures LifecycleStep(db, SeedTx(db, o, total))
  {
  }

  lemma RunTxDb(cfg: Config, s: Sys, k: nat, op: Op, cause: Cause, done: Pc)
    requires BusyAt(s, k)
    ensures RunTx(cfg, s, k, op, cause, done).db == TransitionTx(s.db, op, cause, s.tokens[k].att)
  {
  }

  lemma TxRefines(cfg: Config, s: Sys, step: Step)
    requires step.Commit? || step.FailOrder? || step.Cancel?
    requires Inv(cfg, s) && Enabled(cfg, s, step)
    ensures LifecycleStep(s.db, Apply(cfg, s, step).db)
  {
    hide DbInv, TokensInv, CallsInv, TokenInv, LifecycleStep, Justified, TransitionTx, RunTx, Apply, StepOk;
    var t := s.tokens[step.k];
    TokenOf(cfg, s, step.k);
    TablesOf(s.db);
    ReadyToClaim(cfg, s.db, s.calls, t);
    ApplyClaims(cfg, s, step);
    var op := Claim(s, step);
    var cause := if step.Commit? then Advanced else if step.FailOrder? then Refused else CustomerCancelled;
    RunTxDb(cfg, s, step.k, op, cause, if step.Commit? then Marking else Acking);
    TransitionRefines(s.db, op, cause, t.att);
  }

  predicate MainTablesSame(db: Db, db': Db) {
    db'.ingest == db.ingest && db'.orders == db.orders && db'.log == db.log && db'.ops == db.ops
  }

  lemma EffectOrders(db: Db, call: Call, declined: bool, intent: string)
    ensures MainTablesSame(db, EffectTx(db, call, declined, intent))
  {
    hide InsertIfAbsent;
  }

  predicate CallStep(step: Step) {
    step.CallRefuse? || step.CallLookup? || step.CallFlake? || step.CallClaim?
  }

  /** Steps that write no main table. */
  predicate SideStep(step: Step) {
    !step.Post? && !step.PlacedCommit? && !step.Commit? && !step.FailOrder? && !step.Cancel?
  }

  lemma MainTablesUntouched(cfg: Config, s: Sys, step: Step)
    requires Enabled(cfg, s, step) && SideStep(step)
    ensures MainTablesSame(s.db, Apply(cfg, s, step).db)
  {
    if CallStep(step) {
      MainTablesUntouchedByCall(cfg, s, step);
    } else {
      MainTablesUntouchedByMessage(cfg, s, step);
    }
  }

  lemma MainTablesUntouchedByMessage(cfg: Config, s: Sys, step: Step)
    requires Enabled(cfg, s, step) && SideStep(step) && !CallStep(step)
    ensures MainTablesSame(s.db, Apply(cfg, s, step).db)
  {
    if step.PlacedFault? || step.BouncePublish? {
      MainTablesUntouchedByParking(cfg, s, step);
    } else {
      hide Recorded, AfterRead, AfterSnap, AfterAnswer, AfterFault, Returned, Routed, EffectTx, PostOf, PostTx, SeedTx,
           RunTx, PublishBounce, PlacedException;
    }
  }

  lemma MainTablesUntouchedByParking(cfg: Config, s: Sys, step: Step)
    requires Enabled(cfg, s, step) && (step.PlacedFault? || step.BouncePublish?)
    ensures MainTablesSame(s.db, Apply(cfg, s, step).db)
  {
    hide Recorded, AfterRead, AfterSnap, AfterAnswer, AfterFault, Returned, Routed, EffectTx,
         PostOf, PostTx, SeedTx, RunTx;
  }

  lemma MainTablesUntouchedByCall(cfg: Config, s: Sys, step: Step)
    requires Enabled(cfg, s, step) && CallStep(step)
    ensures MainTablesSame(s.db, Apply(cfg, s, step).db)
  {
    hide Recorded, EffectTx;
    if step.CallClaim? {
      EffectOrders(s.db, s.calls[step.c], step.declined, step.intent);
    }
  }

  lemma OrdersUntouched(cfg: Config, s: Sys, step: Step)
    requires Enabled(cfg, s, step)
    requires !step.Commit? && !step.FailOrder? && !step.Cancel? && !step.PlacedCommit?
    ensures var db' := Apply(cfg, s, step).db;
            db'.orders == s.db.orders && db'.log == s.db.log && db'.ops == s.db.ops
  {
    if step.Post? {
      PostShape(cfg, s, step);
    } else {
      hide Apply, Enabled;
      MainTablesUntouched(cfg, s, step);
    }
  }

  lemma IngestUntouched(cfg: Config, s: Sys, step: Step)
    requires Enabled(cfg, s, step) && !step.Post?
    ensures Apply(cfg, s, step).db.ingest == s.db.ingest
  {
    hide Apply, Enabled;
    if step.Commit? || step.FailOrder? || step.Cancel? {
      IngestUntouchedByTx(cfg, s, step);
    } else if step.PlacedCommit? {
      PlacedCommitDb(cfg, s, step.k);
    } else {
      MainTablesUntouched(cfg, s, step);
    }
  }

  lemma IngestUntouchedByTx(cfg: Config, s: Sys, step: Step)
    requires Enabled(cfg, s, step) && (step.Commit? || step.FailOrder? || step.Cancel?)
    ensures Apply(cfg, s, step).db.ingest == s.db.ingest
  {
    hide RunTx;
    var env := s.tokens[step.k].env;
    match step
    case Commit(k) => RunTxDb(cfg, s, k, HappyOp(env), Advanced, Marking);
    case FailOrder(k) => RunTxDb(cfg, s, k, Op(env.order, env.data.from, Failed), Refused, Acking);
    case Cancel(k) => RunTxDb(cfg, s, k, Op(env.order, env.data.from, Cancelled), CustomerCancelled, Acking);
  }

  /** Forward simulation: every step of the distributed system is a step of the lifecycle in
      states.py or leaves every order alone, though can_transition is never called. */
  lemma ForwardSimulation(cfg: Config, s: Sys, step: Step)
    requires Inv(cfg, s) && Enabled(cfg, s, step)
    ensures LifecycleStep(s.db, Apply(cfg, s, step).db)
  {
    hide DbInv, TokensInv, CallsInv, LifecycleStep, SeedTx, Apply, Enabled;
    TablesOf(s.db);
    if step.Commit? || step.FailOrder? || step.Cancel? {
      TxRefines(cfg, s, step);
    } else if step.PlacedCommit? {
      PlacedCommitDb(cfg, s, step.k);
      TokenOf(cfg, s, step.k);
      SeedRefines(s.db, s.tokens[step.k].env.order, s.tokens[step.k].env.data.total);
    } else {
      OrdersUntouched(cfg, s, step);
      SameOrders(s.db, Apply(cfg, s, step).db);
    }
  }

  lemma PlacedCommitDb(cfg: Config, s: Sys, k: nat)
    requires Enabled(cfg, s, PlacedCommit(k))
    ensures k in s.tokens && s.tokens[k].PlacedBusy?
    ensures s.tokens[k].env.data.PlacedEvent? ==>
              Apply(cfg, s, PlacedCommit(k)).db == SeedTx(s.db, s.tokens[k].env.order, s.tokens[k].env.data.total)
    ensures Apply(cfg, s, PlacedCommit(k)).db.ingest == s.db.ingest
  {
  }

  /** The states an order went through, by its transitions rows. */
  function Path(log: seq<Trans>): seq<State> {
    [Placed] + seq(|log|, i requires 0 <= i < |log| => log[i].to)
  }

  /** The transitions rows of an order are a walk from placed to its state, without repetition, and
      match its operations rows one to one. */
  lemma LogIsFaithful(cfg: Config, steps: seq<Step>, o: OrderId)
    requires ValidRun(cfg, INITIAL, steps) && o in Exec(cfg, INITIAL, steps).db.orders
    ensures var db := Exec(cfg, INITIAL, steps).db;
            && o in db.log
            && Walk(Path(db.log[o])) && Path(db.log[o])[|db.log[o]|] == db.orders[o].state
            && (forall i, j :: 0 <= i < j <= |db.log[o]| ==> Path(db.log[o])[i] != Path(db.log[o])[j])
            && (forall i :: 0 <= i < |db.log[o]| ==> Op(o, db.log[o][i].from, db.log[o][i].to) in db.ops)
            && (forall op :: op in db.ops && op.order == o ==>
                  exists i :: 0 <= i < |db.log[o]| && op == Op(o, db.log[o][i].from, db.log[o][i].to))
  {
    Reached(cfg, steps);
    var db := Exec(cfg, INITIAL, steps).db;
    hide Exec, ValidRun, DbInv, TokensInv, CallsInv, Justified;
    OrderOf(db, o);
    var log := db.log[o];
    PathWalks(log, db.orders[o].state);
    forall i, j | 0 <= i < j <= |log| ensures Path(log)[i] != Path(log)[j] {
      WalkNeverRevisits(Path(log), i, j);
    }
    forall op | op in db.ops && op.order == o
      ensures exists i :: 0 <= i < |log| && op == Op(o, log[i].from, log[i].to)
    {
      LoggedOf(db, op);
      var i :| 0 <= i < |log| && log[i].from == op.from && log[i].to == op.to;
      assert op == Op(o, log[i].from, log[i].to);
    }
  }

  lemma PathWalks(log: seq<Trans>, state: State)
    requires Chain(log, state)
    ensures Walk(Path(log)) && Path(log)[|log|] == state
  {
  }

  // ---- rival transactions ---------------------------------------------------------------

  lemma {:induction false} RunExtends(cfg: Config, s: Sys, steps: seq<Step>)
    requires Inv(cfg, s) && ValidRun(cfg, s, steps)
    ensures Inv(cfg, Exec(cfg, s, steps)) && s.db.ops <= Exec(cfg, s, steps).db.ops
    decreases |steps|
  {
    hide Inv, Apply, Enabled;
    if |steps| > 0 {
      StepInv(cfg, s, steps[0]);
      OpsGrow(cfg, s, steps[0]);
      RunExtends(cfg, Apply(cfg, s, steps[0]), steps[1..]);
    }
  }

  lemma OpsGrow(cfg: Config, s: Sys, step: Step)
    requires Enabled(cfg, s, step)
    ensures s.db.ops <= Apply(cfg, s, step).db.ops
  {
    if !step.Commit? && !step.FailOrder? && !step.Cancel? && !step.PlacedCommit? {
      hide Apply, Enabled;
      OrdersUntouched(cfg, s, step);
    }
  }

  lemma OneStepPerState(db: Db, op: Op, op': Op)
    requires DbInv(db) && op in db.ops && op' in db.ops && op.order == op'.order && op.from == op'.from
    ensures op == op'
  {
    hide DbInv, Justified;
    LoggedOf(db, op);
    LoggedOf(db, op');
    OrderOf(db, op.order);
    var log := db.log[op.order];
    var i :| 0 <= i < |log| && log[i].from == op.from && log[i].to == op.to;
    var j :| 0 <= j < |log| && log[j].from == op'.from && log[j].to == op'.to;
    if i < j {
      ChainClimbs(log, db.orders[op.order].state, i, j);
    } else if j < i {
      ChainClimbs(log, db.orders[op.order].state, j, i);
    }
  }

  /** Of all the advances, cancellations and failures ever attempted on one order from one state, by
      any number of handlers at any two moments of a run, at most one takes effect. */
  lemma OneWinnerPerState(cfg: Config, steps: seq<Step>, more: seq<Step>, op: Op, op': Op)
    requires ValidRun(cfg, INITIAL, steps) && ValidRun(cfg, Exec(cfg, INITIAL, steps), more)
    requires op in Exec(cfg, INITIAL, steps).db.ops
    requires op' in Exec(cfg, Exec(cfg, INITIAL, steps), more).db.ops
    requires op.order == op'.order && op.from == op'.from
    ensures op == op'
  {
    Reached(cfg, steps);
    var s := Exec(cfg, INITIAL, steps);
    RunExtends(cfg, s, more);
    var s' := Exec(cfg, s, more);
    hide Exec, ValidRun, DbInv;
    OneStepPerState(s'.db, op, op');
  }

  /** The whole effect of a lost transaction: its message is acked if the step was recorded already, and goes
      to the retry path if its order was found in another state. */
  predicate LeftNothing(s: Sys, s': Sys, k: nat, op: Op) {
    && k in s'.tokens && s' == s.(tokens := s.tokens[k := s'.tokens[k]])
    && s'.tokens[k].Busy?
    && if op in s.db.ops then s'.tokens[k].pc == Acking else s'.tokens[k].pc == Bounce && s'.tokens[k].faulted
  }

  predicate TookEffect(s: Sys, s': Sys, op: Op) {
    && op !in s.db.ops && op in s'.db.ops
    && op.order in s.db.orders && s.db.orders[op.order].state == op.from
    && op.order in s'.db.orders && s'.db.orders[op.order].state == op.to && op.to != op.from
  }

  lemma RunTxSplit(cfg: Config, s: Sys, k: nat, op: Op, cause: Cause, done: Pc)
    requires BusyAt(s, k) && op.from != op.to
    ensures var s' := RunTx(cfg, s, k, op, cause, done);
            if TxOf(s.db, op) == Applied then TookEffect(s, s', op) else LeftNothing(s, s', k, op)
  {
  }

  /** The step is the transaction of a handler that holds a command. */
  predicate CanClaim(s: Sys, step: Step) {
    && (step.Commit? || step.FailOrder? || step.Cancel?)
    && BusyAt(s, step.k) && s.tokens[step.k].env.data.AdvanceCommand?
    && (step.Commit? ==> TargetOf(s.tokens[step.k].env).Some?)
  }

  /** The operation that a committing, failing or cancelling handler tries to claim. */
  function Claim(s: Sys, step: Step): Op
    requires CanClaim(s, step)
  {
    var env := s.tokens[step.k].env;
    match step
    case Commit(_) => HappyOp(env)
    case FailOrder(_) => Op(env.order, env.data.from, Failed)
    case Cancel(_) => Op(env.order, env.data.from, Cancelled)
  }

  /** A transaction either takes effect, and then the order was in the claimed state and leaves it,
      or it leaves no claim, no log row, no outbox row and no state change behind, and the loser's
      message is acked or goes to the retry path. */
  lemma LoserLeavesNothing(cfg: Config, s: Sys, step: Step)
    requires step.Commit? || step.FailOrder? || step.Cancel?
    requires Inv(cfg, s) && Enabled(cfg, s, step)
    ensures CanClaim(s, step)
    ensures var s', op := Apply(cfg, s, step), Claim(s, step);
            if TxOf(s.db, op) == Applied then TookEffect(s, s', op) else LeftNothing(s, s', step.k, op)
  {
    hide Inv, TokenInv, RunTx, Apply, LeftNothing, TookEffect;
    TokenOf(cfg, s, step.k);
    var t := s.tokens[step.k];
    PcTargets(cfg, s.db, s.calls, t);
    LiveCommand(cfg, s.db, s.calls, t);
    ApplyClaims(cfg, s, step);
    var cause := if step.Commit? then Advanced else if step.FailOrder? then Refused else CustomerCancelled;
    RunTxSplit(cfg, s, step.k, Claim(s, step), cause, if step.Commit? then Marking else Acking);
  }

  lemma ApplyClaims(cfg: Config, s: Sys, step: Step)
    requires step.Commit? || step.FailOrder? || step.Cancel?
    requires Enabled(cfg, s, step) && s.tokens[step.k].env.data.AdvanceCommand?
    ensures Apply(cfg, s, step)
            == RunTx(cfg, s, step.k, Claim(s, step),
                     if step.Commit? then Advanced else if step.FailOrder? then Refused else CustomerCancelled,
                     if step.Commit? then Marking else Acking)
  {
  }

  lemma LiveCommand(cfg: Config, db: Db, calls: map<nat, Call>, t: Token)
    requires TokenInv(cfg, db, calls, t) && t.env.data.AdvanceCommand?
    ensures !IsTerminal(t.env.data.from)
  {
  }

  // ---- payment -----------------------------------------------------------------------------

  predicate Definitive(a: Answer) {
    a.Approved? || a.CardDeclined?
  }

  /** Every 200 or 402 ever given carries the recorded status, amount and intent id, so all
      definitive answers for one key agree, and the amount is the order's ingested total. */
  lemma PaymentOutcomeAgrees(cfg: Config, steps: seq<Step>, c: nat, c': nat)
    requires ValidRun(cfg, INITIAL, steps)
    requires var calls := Exec(cfg, INITIAL, steps).calls;
             && c in calls && calls[c].cpc.Answered? && Definitive(calls[c].cpc.answer)
             && c' in calls && calls[c'].cpc.Answered? && Definitive(calls[c'].cpc.answer)
             && calls[c].op.order == calls[c'].op.order
    ensures var s := Exec(cfg, INITIAL, steps);
            var op := s.calls[c].op;
            && s.calls[c].cpc.answer == s.calls[c'].cpc.answer
            && op in s.db.charges && s.calls[c].cpc.answer == IntentResponse(s.db.charges[op])
            && op.order in s.db.ingest && s.calls[c].cpc.answer.amount == s.db.ingest[op.order].total
  {
    Reached(cfg, steps);
    var s := Exec(cfg, INITIAL, steps);
    hide Exec, ValidRun, Inv, Definitive;
    AnswerIsRecorded(cfg, s, c);
    AnswerIsRecorded(cfg, s, c');
  }

  lemma AnswerIsRecorded(cfg: Config, s: Sys, c: nat)
    requires Inv(cfg, s) && c in s.calls && s.calls[c].cpc.Answered? && Definitive(s.calls[c].cpc.answer)
    ensures var op := s.calls[c].op;
            && op == ChargeKey(op.order) && op in s.db.charges
            && s.calls[c].cpc.answer == IntentResponse(s.db.charges[op])
            && op.order in s.db.ingest && s.calls[c].cpc.answer.amount == s.db.ingest[op.order].total
  {
    hide DbInv, TokensInv, CallsInv, Visited, Asked;
    var op := s.calls[c].op;
    CallOf(cfg, s, c);
    AskedStage(s.db, op);
    OrderOf(s.db, op.order);
    hide OrderInv;
    assert op == ChargeKey(op.order) && op in s.db.charges;
    ChargeOf(s.db, op);
  }

  lemma ChargeOf(db: Db, op: Op)
    requires DbInv(db) && op in db.charges
    ensures ChargeInv(db, op)
  {
    hide OrderInv, Logged, Asked, KeysUnique;
  }

  /** Every charge is for its order's ingested total, whatever was retried or replayed. */
  lemma MoneyConserved(cfg: Config, steps: seq<Step>, op: Op)
    requires ValidRun(cfg, INITIAL, steps) && op in Exec(cfg, INITIAL, steps).db.charges
    ensures var db := Exec(cfg, INITIAL, steps).db;
            && op.order in db.ingest && db.charges[op].order == op.order
            && db.charges[op].amount == db.ingest[op.order].total
  {
    Reached(cfg, steps);
    var db := Exec(cfg, INITIAL, steps).db;
    hide Exec, ValidRun, DbInv, TokensInv, CallsInv, Visited;
    ChargeOf(db, op);
    OrderOf(db, op.order);
  }

  // ---- envelopes -----------------------------------------------------------------------------

  /** If a handler reads now, it finds the order of its command. */
  predicate WouldFindOrder(s: Sys, t: Token) {
    t.Busy? ==> AfterRead(s.db, t).pc != Bounce
  }

  /** Every order.advance envelope, wherever it is, names an existing order and a state that order
      has visited; its attempt counter is in range; if it is not for the current state it is behind
      it. So the "order not found yet" branch is never taken for one. */
  lemma AdvanceEnvelopesWellFormed(cfg: Config, steps: seq<Step>, k: nat)
    requires ValidRun(cfg, INITIAL, steps)
    requires k in Exec(cfg, INITIAL, steps).tokens
    requires Exec(cfg, INITIAL, steps).tokens[k].env.data.AdvanceCommand?
    ensures var s := Exec(cfg, INITIAL, steps);
            var env := s.tokens[k].env;
            && 1 <= env.attempt <= MaxAttempt(cfg)
            && env.order in s.db.orders && Visited(s.db, env.order, env.data.from)
            && (env.data.from == s.db.orders[env.order].state
                || Rank(env.data.from) < Rank(s.db.orders[env.order].state))
            && WouldFindOrder(s, s.tokens[k])
  {
    Reached(cfg, steps);
    var s := Exec(cfg, INITIAL, steps);
    hide Exec, ValidRun, DbInv, TokensInv, CallsInv, Justified, PcOk;
    TokenOf(cfg, s, k);
    var env := s.tokens[k].env;
    OrderOf(s.db, env.order);
    VisitedIsBehind(s.db, env.order, env.data.from);
  }

  lemma VisitedIsBehind(db: Db, o: OrderId, st: State)
    requires o in db.orders && OrderInv(db, o) && Visited(db, o, st)
    ensures st == db.orders[o].state || Rank(st) < Rank(db.orders[o].state)
  {
    hide Justified;
    var log, state := db.log[o], db.orders[o].state;
    if st == Placed {
      if |log| > 0 { ChainClimbs(log, state, 0, |log| - 1); }
    } else {
      var i :| 0 <= i < |log| && log[i].to == st;
      if i < |log| - 1 {
        assert log[i + 1].from == st;
        ChainClimbs(log, state, i + 1, |log| - 1);
      }
    }
  }
}
