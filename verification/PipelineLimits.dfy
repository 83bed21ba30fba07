/** Where "no order lost" and "recovers by itself" stop holding: concrete runs, and the exact condition
    for an accepted order to enter the pipeline. PipelineFate goes on to the end of its life. */
module PipelineLimits {
  import opened Lifecycle
  import opened Pipeline
  import opened PipelineInvariant
  import opened PipelineNoLoss
  import opened PipelineTheorems

  // ---- building runs ------------------------------------------------------------

  lemma {:induction false} RunAppend(cfg: Config, s: Sys, a: seq<Step>, b: seq<Step>)
    requires ValidRun(cfg, s, a) && ValidRun(cfg, Exec(cfg, s, a), b)
    ensures ValidRun(cfg, s, a + b) && Exec(cfg, s, a + b) == Exec(cfg, Exec(cfg, s, a), b)
    decreases |a|
  {
    hide Apply, Enabled;
    if |a| == 0 {
      assert a + b == b;
    } else {
      RunAppend(cfg, Apply(cfg, s, a[0]), a[1..], b);
      assert (a + b)[1..] == a[1..] + b;
    }
  }

  // ---- an order that was never seeded ---------------------------------------------

  /** An envelope that can still reach on_placed. */
  predicate Seeds(t: Token, o: OrderId) {
    t.env.order == o && ((t.Outbox? && t.env.data.PlacedEvent?) || t.PlacedReady? || t.PlacedBusy?)
  }

  predicate Seedable(s: Sys, o: OrderId) {
    exists k :: k in s.tokens && Seeds(s.tokens[k], o)
  }

  /** Accepted, without an orchestrator row, and every copy of its order.placed is in the advance
      path or the DLQ, where replay sends it back to the advance path. */
  predicate Stranded(s: Sys, o: OrderId) {
    o in s.db.ingest && o !in s.db.orders && !Seedable(s, o)
  }

  /** A token with the command that moves order o on from state st. It need not be live: an unstamped
      row that was published, a parking that was replayed and an unacked copy come back by an abort,
      a crash or a redelivery. */
  predicate CarriesCommand(t: Token, o: OrderId, st: State) {
    t.env.order == o && t.env.data == AdvanceCommand(st)
  }

  predicate Carries(s: Sys, o: OrderId, st: State) {
    exists k :: k in s.tokens && CarriesCommand(s.tokens[k], o, st)
  }

  predicate JustSeeded(s: Sys, o: OrderId) {
    o in s.db.orders && s.db.orders[o].state == Placed && Carries(s, o, Placed)
  }

  lemma StepKeepsTokens(cfg: Config, s: Sys, step: Step, o: OrderId)
    requires Enabled(cfg, s, step) && o in s.db.ingest
    ensures forall k :: k in Apply(cfg, s, step).tokens && Seeds(Apply(cfg, s, step).tokens[k], o) ==>
              exists j :: j in s.tokens && Seeds(s.tokens[j], o)
  {
    hide Recorded, EffectTx, KeyTaken;
    var s' := Apply(cfg, s, step);
    forall k | k in s'.tokens && Seeds(s'.tokens[k], o) ensures exists j :: j in s.tokens && Seeds(s.tokens[j], o) {
      if !(k in s.tokens && s.tokens[k] == s'.tokens[k]) {
        NewSeed(cfg, s, step, o, k);
      } else {
        assert Seeds(s.tokens[k], o);
      }
    }
  }

  predicate SeedStep(step: Step) {
    || step.RelayPublish? || step.RelayAbort? || step.PlacedDeliver? || step.PlacedCommit?
    || step.PlacedFault? || step.Redeliver?
  }

  predicate HandlerStep(step: Step) {
    || step.Read? || step.Proceed? || step.TakeAnswer? || step.TimeOut? || step.Fault?
    || step.Commit? || step.FailOrder? || step.Cancel?
  }

  lemma SeedComesFrom(cfg: Config, s: Sys, step: Step, o: OrderId, k: nat)
    requires SeedStep(step) && Enabled(cfg, s, step)
    requires var s' := Apply(cfg, s, step);
             k in s'.tokens && Seeds(s'.tokens[k], o) && !(k in s.tokens && s.tokens[k] == s'.tokens[k])
    ensures step.k in s.tokens && Seeds(s.tokens[step.k], o)
  {
  }

  lemma OthersDoNotSeed(cfg: Config, s: Sys, step: Step, o: OrderId, k: nat)
    requires !SeedStep(step) && !HandlerStep(step) && o in s.db.ingest
    requires Enabled(cfg, s, step)
    requires k in Apply(cfg, s, step).tokens && !(k in s.tokens && s.tokens[k] == Apply(cfg, s, step).tokens[k])
    ensures !Seeds(Apply(cfg, s, step).tokens[k], o)
  {
    if step.Post? {
      PostSeedsItsOwn(cfg, s, step, o, k);
    } else if step.RedisForget? || CallStep(step) {
      TokensUntouched(cfg, s, step);
    } else {
      hide Recorded, EffectTx, PostOf, PostTx, SeedTx, PlacedException, AfterRead, AfterSnap, AfterAnswer, AfterFault,
           RunTx, Returned, Routed;
    }
  }

  lemma TokensUntouched(cfg: Config, s: Sys, step: Step)
    requires Enabled(cfg, s, step) && (step.RedisForget? || CallStep(step))
    ensures Apply(cfg, s, step).tokens == s.tokens
  {
    hide Recorded, EffectTx;
  }

  /** A post seeds an order that was not accepted before. */
  lemma PostSeedsItsOwn(cfg: Config, s: Sys, step: Step, o: OrderId, k: nat)
    requires step.Post? && Enabled(cfg, s, step) && o in s.db.ingest
    requires k in Apply(cfg, s, step).tokens && !(k in s.tokens && s.tokens[k] == Apply(cfg, s, step).tokens[k])
    ensures !Seeds(Apply(cfg, s, step).tokens[k], o)
  {
    hide Apply, Enabled, KeyTaken;
    PostShape(cfg, s, step);
  }

  /** A step that puts a seeding token somewhere took it from one. */
  lemma NewSeed(cfg: Config, s: Sys, step: Step, o: OrderId, k: nat)
    requires Enabled(cfg, s, step) && o in s.db.ingest
    requires var s' := Apply(cfg, s, step);
             k in s'.tokens && Seeds(s'.tokens[k], o) && !(k in s.tokens && s.tokens[k] == s'.tokens[k])
    ensures exists j :: j in s.tokens && Seeds(s.tokens[j], o)
  {
    hide Apply, Enabled, Seeds;
    if SeedStep(step) {
      SeedComesFrom(cfg, s, step, o, k);
    } else if HandlerStep(step) {
      BusyStays(cfg, s, step, k, o);
    } else {
      OthersDoNotSeed(cfg, s, step, o, k);
    }
  }

  /** Steps of on_advance leave handlers behind, and commands in the outbox. */
  lemma BusyStays(cfg: Config, s: Sys, step: Step, k: nat, o: OrderId)
    requires HandlerStep(step) && Enabled(cfg, s, step)
    requires k in Apply(cfg, s, step).tokens && !(k in s.tokens && s.tokens[k] == Apply(cfg, s, step).tokens[k])
    ensures !Seeds(Apply(cfg, s, step).tokens[k], o)
  {
    if step.Commit? || step.FailOrder? || step.Cancel? {
      TxLeavesCommands(cfg, s, step, k, o);
    } else {
      hide Recorded, EffectTx, PostOf, PostTx, SeedTx, PlacedException, PublishBounce, RunTx, Returned, Routed;
    }
  }

  lemma RunTxLeavesCommands(cfg: Config, s: Sys, k: nat, op: Op, cause: Cause, done: Pc, j: nat, o: OrderId)
    requires BusyAt(s, k)
    requires var s' := RunTx(cfg, s, k, op, cause, done);
             j in s'.tokens && !(j in s.tokens && s.tokens[j] == s'.tokens[j])
    ensures !Seeds(RunTx(cfg, s, k, op, cause, done).tokens[j], o)
  {
    hide TransitionTx, TxOf;
  }

  lemma TxLeavesCommands(cfg: Config, s: Sys, step: Step, k: nat, o: OrderId)
    requires step.Commit? || step.FailOrder? || step.Cancel?
    requires Enabled(cfg, s, step)
    requires k in Apply(cfg, s, step).tokens && !(k in s.tokens && s.tokens[k] == Apply(cfg, s, step).tokens[k])
    ensures !Seeds(Apply(cfg, s, step).tokens[k], o)
  {
    hide RunTx, Seeds;
    var env := s.tokens[step.k].env;
    match step
    case Commit(j) => RunTxLeavesCommands(cfg, s, j, HappyOp(env), Advanced, Marking, k, o);
    case FailOrder(j) =>
      RunTxLeavesCommands(cfg, s, j, Op(env.order, env.data.from, Failed), Refused, Acking, k, o);
    case Cancel(j) =>
      RunTxLeavesCommands(cfg, s, j, Op(env.order, env.data.from, Cancelled), CustomerCancelled, Acking, k, o);
  }

  lemma StrandedStep(cfg: Config, s: Sys, step: Step, o: OrderId)
    requires Enabled(cfg, s, step) && Stranded(s, o)
    ensures Stranded(Apply(cfg, s, step), o)
  {
    StepKeepsTokens(cfg, s, step, o);
    StrandedTables(cfg, s, step, o);
    hide Apply, Enabled, Seeds;
  }

  lemma IngestGrows(cfg: Config, s: Sys, step: Step, o: OrderId)
    requires Enabled(cfg, s, step) && o in s.db.ingest
    ensures o in Apply(cfg, s, step).db.ingest
  {
    if step.Post? {
      hide PostOf;
    } else {
      hide Apply, Enabled;
      IngestUntouched(cfg, s, step);
    }
  }

  lemma TxTables(cfg: Config, s: Sys, step: Step, o: OrderId)
    requires step.Commit? || step.FailOrder? || step.Cancel?
    requires Enabled(cfg, s, step)
    ensures var db' := Apply(cfg, s, step).db;
            db'.ingest == s.db.ingest && (o in db'.orders <==> o in s.db.orders)
  {
    hide Apply, RunTx;
    ApplyClaims(cfg, s, step);
    var cause := if step.Commit? then Advanced else if step.FailOrder? then Refused else CustomerCancelled;
    RunTxDb(cfg, s, step.k, Claim(s, step), cause, if step.Commit? then Marking else Acking);
  }

  lemma StrandedTables(cfg: Config, s: Sys, step: Step, o: OrderId)
    requires Enabled(cfg, s, step) && Stranded(s, o)
    ensures o in Apply(cfg, s, step).db.ingest && o !in Apply(cfg, s, step).db.orders
  {
    hide Apply, Enabled, Seedable;
    IngestGrows(cfg, s, step, o);
    if step.PlacedCommit? {
      PlacedCommitTables(cfg, s, step.k, o);
    } else if step.Commit? || step.FailOrder? || step.Cancel? {
      TxTables(cfg, s, step, o);
    } else {
      OrdersUntouched(cfg, s, step);
    }
  }

  lemma PlacedCommitTables(cfg: Config, s: Sys, k: nat, o: OrderId)
    requires Enabled(cfg, s, PlacedCommit(k)) && o !in s.db.orders && !Seedable(s, o)
    ensures o !in Apply(cfg, s, PlacedCommit(k)).db.orders
  {
  }

  /** A stranded order stays stranded: no delivery, retry, crash or replay ever seeds it. */
  lemma {:induction false} StrandedForever(cfg: Config, s: Sys, steps: seq<Step>, o: OrderId)
    requires Stranded(s, o) && ValidRun(cfg, s, steps)
    ensures Stranded(Exec(cfg, s, steps), o)
    decreases |steps|
  {
    hide Apply, Enabled, Stranded;
    if |steps| > 0 {
      StrandedStep(cfg, s, steps[0], o);
      StrandedForever(cfg, Apply(cfg, s, steps[0]), steps[1..], o);
    }
  }

  lemma CommitSeeds(cfg: Config, s: Sys, k: nat, o: OrderId)
    requires o !in s.db.orders && s.next !in s.tokens
    requires k in s.tokens && s.tokens[k].PlacedBusy? && s.tokens[k].ppc == Start && s.tokens[k].env.order == o
    ensures Enabled(cfg, s, PlacedCommit(k)) && JustSeeded(Apply(cfg, s, PlacedCommit(k)), o)
  {
    assert CarriesCommand(Apply(cfg, s, PlacedCommit(k)).tokens[s.next], o, Placed);
  }

  lemma SeedBusy(cfg: Config, s: Sys, k: nat, o: OrderId) returns (steps: seq<Step>)
    requires o !in s.db.orders && s.next !in s.tokens
    requires k in s.tokens && s.tokens[k].PlacedBusy? && s.tokens[k].env.order == o
    ensures ValidRun(cfg, s, steps) && JustSeeded(Exec(cfg, s, steps), o)
  {
    hide ValidRun, Exec, JustSeeded;
    if s.tokens[k].ppc == Start {
      steps := [PlacedCommit(k)];
      CommitSeeds(cfg, s, k, o);
      RunOne(cfg, s, PlacedCommit(k));
    } else {
      steps := [Redeliver(k), PlacedDeliver(k), PlacedCommit(k)];
      CommitSeeds(cfg, Apply(cfg, Apply(cfg, s, Redeliver(k)), PlacedDeliver(k)), k, o);
      RunThree(cfg, s, Redeliver(k), PlacedDeliver(k), PlacedCommit(k));
    }
  }

  lemma SeedReady(cfg: Config, s: Sys, k: nat, o: OrderId) returns (steps: seq<Step>)
    requires o !in s.db.orders && s.next !in s.tokens
    requires k in s.tokens && s.tokens[k].PlacedReady? && s.tokens[k].env.order == o
    ensures ValidRun(cfg, s, steps) && JustSeeded(Exec(cfg, s, steps), o)
  {
    hide ValidRun, Exec, JustSeeded;
    steps := [PlacedDeliver(k), PlacedCommit(k)];
    CommitSeeds(cfg, Apply(cfg, s, PlacedDeliver(k)), k, o);
    RunTwo(cfg, s, PlacedDeliver(k), PlacedCommit(k));
  }

  lemma SeedRow(cfg: Config, s: Sys, k: nat, o: OrderId) returns (steps: seq<Step>)
    requires Inv(cfg, s) && o !in s.db.orders && k in s.tokens
    requires s.tokens[k].Outbox? && s.tokens[k].env.order == o && s.tokens[k].env.data.PlacedEvent?
    ensures ValidRun(cfg, s, steps) && JustSeeded(Exec(cfg, s, steps), o)
    decreases s.tokens[k].published
  {
    hide Inv, ValidRun, Exec, JustSeeded;
    FreshTokens(cfg, s);
    var step := if s.tokens[k].published then RelayAbort(k) else RelayPublish(k);
    var s1 := Apply(cfg, s, step);
    StepInv(cfg, s, step);
    FreshTokens(cfg, s1);
    RunOne(cfg, s, step);
    var rest := [];
    if s.tokens[k].published {
      rest := SeedRow(cfg, s1, k, o);
    } else {
      rest := SeedReady(cfg, s1, s.next, o);
    }
    steps := [step] + rest;
    RunAppend(cfg, s, [step], rest);
  }

  /** From any token that can still reach on_placed there is a run that seeds the order. */
  lemma SeedFrom(cfg: Config, s: Sys, k: nat, o: OrderId) returns (steps: seq<Step>)
    requires Inv(cfg, s) && o !in s.db.orders && k in s.tokens && Seeds(s.tokens[k], o)
    ensures ValidRun(cfg, s, steps) && JustSeeded(Exec(cfg, s, steps), o)
  {
    hide Inv, ValidRun, Exec, JustSeeded;
    FreshTokens(cfg, s);
    if s.tokens[k].PlacedBusy? {
      steps := SeedBusy(cfg, s, k, o);
    } else if s.tokens[k].PlacedReady? {
      steps := SeedReady(cfg, s, k, o);
    } else {
      steps := SeedRow(cfg, s, k, o);
    }
  }

  lemma FreshTokens(cfg: Config, s: Sys)
    requires Inv(cfg, s)
    ensures s.next !in s.tokens
  {
  }

  lemma RunOne(cfg: Config, s: Sys, a: Step)
    requires Enabled(cfg, s, a)
    ensures ValidRun(cfg, s, [a]) && Exec(cfg, s, [a]) == Apply(cfg, s, a)
  {
  }

  lemma RunTwo(cfg: Config, s: Sys, a: Step, b: Step)
    requires Enabled(cfg, s, a) && Enabled(cfg, Apply(cfg, s, a), b)
    ensures ValidRun(cfg, s, [a, b]) && Exec(cfg, s, [a, b]) == Apply(cfg, Apply(cfg, s, a), b)
  {
    hide Apply, Enabled;
    RunOne(cfg, Apply(cfg, s, a), b);
    assert [a, b][1..] == [b];
  }

  lemma RunThree(cfg: Config, s: Sys, a: Step, b: Step, c: Step)
    requires Enabled(cfg, s, a) && Enabled(cfg, Apply(cfg, s, a), b)
    requires Enabled(cfg, Apply(cfg, Apply(cfg, s, a), b), c)
    ensures ValidRun(cfg, s, [a, b, c])
    ensures Exec(cfg, s, [a, b, c]) == Apply(cfg, Apply(cfg, Apply(cfg, s, a), b), c)
  {
    hide Apply, Enabled;
    RunTwo(cfg, Apply(cfg, s, a), b, c);
    assert [a, b, c][1..] == [b, c];
  }

  /** Exactly when an accepted order can still enter the pipeline: while some copy of its
      order.placed is in the ingestion outbox or on its way to on_placed. A parked copy does not
      count, because replay_dlq publishes it to the advance queue. */
  lemma CanStillBeSeeded(cfg: Config, s: Sys, o: OrderId)
    requires Inv(cfg, s) && o in s.db.ingest && o !in s.db.orders
    ensures (exists steps :: ValidRun(cfg, s, steps) && o in Exec(cfg, s, steps).db.orders) <==> Seedable(s, o)
  {
    if Seedable(s, o) {
      var k :| k in s.tokens && Seeds(s.tokens[k], o);
      var steps := SeedFrom(cfg, s, k, o);
    } else {
      assert Stranded(s, o);
      hide Seedable, Inv;
      forall steps | ValidRun(cfg, s, steps) ensures o !in Exec(cfg, s, steps).db.orders {
        StrandedForever(cfg, s, steps, o);
      }
    }
  }

  // ---- witness runs -----------------------------------------------------------------

  /** The tables after one accepted order. */
  function AcceptedDb(o: OrderId, key: string, total: int): Db {
    EMPTY_DB.(ingest := map[o := IngestRow(key, total)])
  }

  lemma AcceptOne(cfg: Config, o: OrderId, key: string, total: int) returns (steps: seq<Step>)
    requires total <= INT4_MAX
    ensures ValidRun(cfg, INITIAL, steps) && NeverDiscards(steps)
    ensures Exec(cfg, INITIAL, steps)
            == Sys(AcceptedDb(o, key, total),
                   map[1 := PlacedReady(Envelope(o, 1, PlacedEvent(total)), false)], map[], 2)
  {
    hide ValidRun, Exec;
    var env, db := Envelope(o, 1, PlacedEvent(total)), AcceptedDb(o, key, total);
    steps := [Post(key, o, total), RelayPublish(0), RelayStamp(0)];
    var s1 := Sys(db, map[0 := Outbox(env, false)], map[], 1);
    assert Apply(cfg, INITIAL, Post(key, o, total)) == s1;
    assert Apply(cfg, s1, RelayPublish(0))
           == Sys(db, map[0 := Outbox(env, true), 1 := PlacedReady(env, false)], map[], 2);
    RunThree(cfg, INITIAL, Post(key, o, total), RelayPublish(0), RelayStamp(0));
  }

  lemma FailOnce(cfg: Config, db: Db, env: Envelope)
    ensures var s := Sys(db, map[1 := PlacedReady(env, false)], map[], 2);
            var steps := [PlacedDeliver(1), PlacedFault(1), PlacedDeliver(1)];
            ValidRun(cfg, s, steps) && Exec(cfg, s, steps) == Sys(db, map[1 := PlacedBusy(env, true, Start)], map[], 2)
  {
  }

  lemma FailTwice(cfg: Config, db: Db, env: Envelope)
    ensures var s := Sys(db, map[1 := PlacedBusy(env, true, Start)], map[], 2);
            var steps := [PlacedFault(1), PlacedAck(1)];
            ValidRun(cfg, s, steps) && Exec(cfg, s, steps) == Sys(db, map[2 := Dlq(env, false)], map[], 3)
  {
  }

  lemma ParkOne(cfg: Config, db: Db, env: Envelope) returns (steps: seq<Step>)
    ensures var s := Sys(db, map[1 := PlacedReady(env, false)], map[], 2);
            && ValidRun(cfg, s, steps) && NeverDiscards(steps)
            && Exec(cfg, s, steps) == Sys(db, map[2 := Dlq(env, false)], map[], 3)
  {
    hide ValidRun, Exec, Apply, Enabled;
    var first, last := [PlacedDeliver(1), PlacedFault(1), PlacedDeliver(1)], [PlacedFault(1), PlacedAck(1)];
    steps := first + last;
    FailOnce(cfg, db, env);
    FailTwice(cfg, db, env);
    RunAppend(cfg, Sys(db, map[1 := PlacedReady(env, false)], map[], 2), first, last);
  }

  /** The DLQ does not bring every order back: two failed database writes park order.placed, and
      from then on the order never enters the pipeline, although its envelope is never lost. */
  lemma ParkedPlacedIsStranded(cfg: Config, o: OrderId, key: string, total: int) returns (steps: seq<Step>)
    requires total <= INT4_MAX
    ensures ValidRun(cfg, INITIAL, steps) && NeverDiscards(steps)
    ensures Stranded(Exec(cfg, INITIAL, steps), o)
  {
    hide ValidRun, Exec;
    var accept := AcceptOne(cfg, o, key, total);
    var park := ParkOne(cfg, AcceptedDb(o, key, total), Envelope(o, 1, PlacedEvent(total)));
    steps := accept + park;
    RunAppend(cfg, INITIAL, accept, park);
  }

  lemma SeedCommit(cfg: Config, o: OrderId, db: Db, total: int)
    requires o !in db.orders
    ensures var env := Envelope(o, 1, PlacedEvent(total));
            var s := Sys(db, map[1 := PlacedBusy(env, false, Start)], map[], 2);
            && Enabled(cfg, s, PlacedCommit(1))
            && Apply(cfg, s, PlacedCommit(1))
               == Sys(SeedTx(db, o, total),
                      map[1 := PlacedBusy(env, false, Committed), 2 := AdvanceRow(o, Placed)], map[], 3)
  {
  }

  lemma SeedOne(cfg: Config, o: OrderId, db: Db, total: int) returns (steps: seq<Step>)
    requires o !in db.orders
    ensures var s := Sys(db, map[1 := PlacedReady(Envelope(o, 1, PlacedEvent(total)), false)], map[], 2);
            && ValidRun(cfg, s, steps)
            && Exec(cfg, s, steps) == Sys(SeedTx(db, o, total), map[2 := AdvanceRow(o, Placed)], map[], 3)
  {
    var env := Envelope(o, 1, PlacedEvent(total));
    var s := Sys(db, map[1 := PlacedReady(env, false)], map[], 2);
    var s1 := Sys(db, map[1 := PlacedBusy(env, false, Start)], map[], 2);
    var s2 := Sys(SeedTx(db, o, total),
                  map[1 := PlacedBusy(env, false, Committed), 2 := AdvanceRow(o, Placed)], map[], 3);
    steps := [PlacedDeliver(1), PlacedCommit(1), PlacedAck(1)];
    hide ValidRun, Exec;
    SeedCommit(cfg, o, db, total);
    assert Apply(cfg, s, PlacedDeliver(1)) == s1;
    hide SeedTx;
    RunThree(cfg, s, PlacedDeliver(1), PlacedCommit(1), PlacedAck(1));
    assert Apply(cfg, s2, PlacedAck(1)) == Sys(SeedTx(db, o, total), map[2 := AdvanceRow(o, Placed)], map[], 3);
  }

  lemma DeliverOne(cfg: Config, o: OrderId, db: Db) returns (steps: seq<Step>)
    ensures var s := Sys(db, map[2 := AdvanceRow(o, Placed)], map[], 3);
            ValidRun(cfg, s, steps)
            && Exec(cfg, s, steps)
               == Sys(db, map[3 := Busy(Envelope(o, 1, AdvanceCommand(Placed)), 1, false, Begin)], map[], 4)
  {
    var cmd := Envelope(o, 1, AdvanceCommand(Placed));
    var s := Sys(db, map[2 := Outbox(cmd, false)], map[], 3);
    var s1 := Sys(db, map[2 := Outbox(cmd, true), 3 := Work(cmd)], map[], 4);
    var s2 := Sys(db, map[3 := Work(cmd)], map[], 4);
    steps := [RelayPublish(2), RelayStamp(2), Deliver(3)];
    hide ValidRun, Exec;
    assert Apply(cfg, s, RelayPublish(2)) == s1;
    assert Apply(cfg, s1, RelayStamp(2)) == s2;
    RunThree(cfg, s, RelayPublish(2), RelayStamp(2), Deliver(3));
    assert Apply(cfg, s2, Deliver(3)) == Sys(db, map[3 := Busy(cmd, 1, false, Begin)], map[], 4);
  }

  /** A failure in the handler, then a failed publish in _fault. */
  lemma DiscardOne(cfg: Config, env: Envelope, db: Db) returns (steps: seq<Step>)
    ensures var s := Sys(db, map[3 := Busy(env, env.attempt, false, Begin)], map[], 4);
            ValidRun(cfg, s, steps) && Exec(cfg, s, steps) == Sys(db, map[], map[], 4)
  {
    var s := Sys(db, map[3 := Busy(env, env.attempt, false, Begin)], map[], 4);
    var s1 := Sys(db, map[3 := Busy(env, env.attempt, true, Bounce)], map[], 4);
    steps := [Fault(3), Discard(3)];
    hide ValidRun, Exec;
    assert Apply(cfg, s, Fault(3)) == s1;
    RunTwo(cfg, s, Fault(3), Discard(3));
    assert Apply(cfg, s1, Discard(3)) == Sys(db, map[], map[], 4);
  }

  /** A run with a last-resort nack that ends with an accepted order in placed and no message, row or
      handler anywhere. */
  lemma DiscardLosesAnOrder(cfg: Config, o: OrderId, key: string, total: int) returns (steps: seq<Step>)
    requires total <= INT4_MAX
    ensures ValidRun(cfg, INITIAL, steps)
    ensures var s := Exec(cfg, INITIAL, steps);
            Unfinished(s.db, o) && s.tokens == map[] && !NoneLost(s)
  {
    hide ValidRun, Exec;
    var db := AcceptedDb(o, key, total);
    var accept := AcceptOne(cfg, o, key, total);
    var seed := SeedOne(cfg, o, db, total);
    var deliver := DeliverOne(cfg, o, SeedTx(db, o, total));
    var drop := DiscardOne(cfg, Envelope(o, 1, AdvanceCommand(Placed)), SeedTx(db, o, total));
    RunAppend(cfg, INITIAL, accept, seed);
    RunAppend(cfg, INITIAL, accept + seed, deliver);
    RunAppend(cfg, INITIAL, accept + seed + deliver, drop);
    steps := accept + seed + deliver + drop;
    var s := Exec(cfg, INITIAL, steps);
    assert Unfinished(s.db, o);
    assert !Live(s, o);
  }

  // ---- runs of one order ----------------------------------------------------------------

  /** The tables once order o is seeded and its payment recorded as succeeded. */
  function ChargedDb(o: OrderId, key: string, total: int): Db {
    SeedTx(AcceptedDb(o, key, total), o, total).(
      charges := map[Op(o, Placed, Confirmed) := Charge(o, total, Succeeded, "")])
  }

  /** The handler of the first command, waiting for its request to the payment service. */
  function Asking(o: OrderId, total: int): Token {
    Busy(Envelope(o, 1, AdvanceCommand(Placed)), 1, false, Calling(total, 0, Some(4)))
  }

  function Charging(o: OrderId, key: string, total: int): Sys {
    Sys(ChargedDb(o, key, total), map[3 := Asking(o, total)],
        map[4 := Call(Op(o, Placed, Confirmed), total, Answered(Approved(total, "")))], 5)
  }

  /** The state in which the first command's handler is at pc and no other token is left. */
  function Handling(o: OrderId, db: Db, calls: map<nat, Call>, next: nat, pc: Pc): Sys {
    Sys(db, map[3 := Busy(Envelope(o, 1, AdvanceCommand(Placed)), 1, false, pc)], calls, next)
  }

  lemma ReadOne(cfg: Config, o: OrderId, db: Db, calls: map<nat, Call>, next: nat, total: int)
    requires o in db.orders && db.orders[o] == OrderRow(Placed, total)
    ensures var s := Handling(o, db, calls, next, Begin);
            Enabled(cfg, s, Step.Read(3)) && Apply(cfg, s, Step.Read(3)) == Handling(o, db, calls, next, Snap(total))
  {
  }

  lemma SendOne(cfg: Config, o: OrderId, db: Db, total: int)
    requires cfg.httpAttempts > 0
    ensures var s := Handling(o, db, map[], 4, Calling(total, 0, None));
            && Enabled(cfg, s, Send(3))
            && Apply(cfg, s, Send(3))
               == Sys(db, map[3 := Asking(o, total)], map[4 := Call(Op(o, Placed, Confirmed), total, Arrived)], 5)
  {
  }

  lemma ProceedOne(cfg: Config, o: OrderId, db: Db, total: int)
    ensures var s := Handling(o, db, map[], 4, Snap(total));
            && Enabled(cfg, s, Proceed(3))
            && Apply(cfg, s, Proceed(3)) == Handling(o, db, map[], 4, Calling(total, 0, None))
  {
  }

  lemma AskOne(cfg: Config, o: OrderId, db: Db, total: int) returns (steps: seq<Step>)
    requires cfg.httpAttempts > 0 && o in db.orders && db.orders[o] == OrderRow(Placed, total)
    ensures var s := Handling(o, db, map[], 4, Begin);
            ValidRun(cfg, s, steps)
            && Exec(cfg, s, steps)
               == Sys(db, map[3 := Asking(o, total)], map[4 := Call(Op(o, Placed, Confirmed), total, Arrived)], 5)
  {
    hide *;
    steps := [Step.Read(3), Proceed(3), Send(3)];
    ReadOne(cfg, o, db, map[], 4, total);
    ProceedOne(cfg, o, db, total);
    SendOne(cfg, o, db, total);
    RunThree(cfg, Handling(o, db, map[], 4, Begin), Step.Read(3), Proceed(3), Send(3));
  }

  lemma LookupOne(cfg: Config, o: OrderId, key: string, total: int)
    ensures var db, op := SeedTx(AcceptedDb(o, key, total), o, total), Op(o, Placed, Confirmed);
            var s := Sys(db, map[3 := Asking(o, total)], map[4 := Call(op, total, Arrived)], 5);
            && Enabled(cfg, s, CallLookup(4))
            && Apply(cfg, s, CallLookup(4)) == Sys(db, map[3 := Asking(o, total)], map[4 := Call(op, total, Missed)], 5)
  {
    hide Asking;
  }

  lemma ClaimOne(cfg: Config, o: OrderId, key: string, total: int)
    ensures var db, op := SeedTx(AcceptedDb(o, key, total), o, total), Op(o, Placed, Confirmed);
            var s := Sys(db, map[3 := Asking(o, total)], map[4 := Call(op, total, Missed)], 5);
            && Enabled(cfg, s, CallClaim(4, false, ""))
            && Apply(cfg, s, CallClaim(4, false, "")) == Charging(o, key, total)
  {
    hide Asking;
  }

  lemma PayOne(cfg: Config, o: OrderId, key: string, total: int) returns (steps: seq<Step>)
    ensures var s := Sys(SeedTx(AcceptedDb(o, key, total), o, total), map[3 := Asking(o, total)],
                         map[4 := Call(Op(o, Placed, Confirmed), total, Arrived)], 5);
            ValidRun(cfg, s, steps) && Exec(cfg, s, steps) == Charging(o, key, total)
  {
    hide *;
    var db, op := SeedTx(AcceptedDb(o, key, total), o, total), Op(o, Placed, Confirmed);
    var s := Sys(db, map[3 := Asking(o, total)], map[4 := Call(op, total, Arrived)], 5);
    steps := [CallLookup(4), CallClaim(4, false, "")];
    LookupOne(cfg, o, key, total);
    ClaimOne(cfg, o, key, total);
    RunTwo(cfg, s, CallLookup(4), CallClaim(4, false, ""));
  }

  /** A run that accepts and seeds one order and charges for it, the answer not yet taken. */
  lemma ChargeOne(cfg: Config, o: OrderId, key: string, total: int) returns (steps: seq<Step>)
    requires cfg.httpAttempts > 0 && total <= INT4_MAX
    ensures ValidRun(cfg, INITIAL, steps) && Exec(cfg, INITIAL, steps) == Charging(o, key, total)
  {
    hide ValidRun, Exec, Charging;
    var db := AcceptedDb(o, key, total);
    var accept := AcceptOne(cfg, o, key, total);
    var seed := SeedOne(cfg, o, db, total);
    var deliver := DeliverOne(cfg, o, SeedTx(db, o, total));
    var ask := AskOne(cfg, o, SeedTx(db, o, total), total);
    var pay := PayOne(cfg, o, key, total);
    RunAppend(cfg, INITIAL, accept, seed);
    RunAppend(cfg, INITIAL, accept + seed, deliver);
    RunAppend(cfg, INITIAL, accept + seed + deliver, ask);
    RunAppend(cfg, INITIAL, accept + seed + deliver + ask, pay);
    steps := accept + seed + deliver + ask + pay;
  }

  /** The handler takes the answer and confirms the order. */
  lemma ConfirmOne(cfg: Config, o: OrderId, key: string, total: int) returns (steps: seq<Step>)
    requires cfg.httpAttempts > 0 && total <= INT4_MAX
    ensures ValidRun(cfg, INITIAL, steps)
    ensures Exec(cfg, INITIAL, steps).db.orders == map[o := OrderRow(Confirmed, total)]
  {
    hide ValidRun, Exec;
    var charge := ChargeOne(cfg, o, key, total);
    var s := Charging(o, key, total);
    var s1 := Apply(cfg, s, TakeAnswer(3));
    assert s1 == s.(tokens := map[3 := Asking(o, total).(pc := Cleared)]);
    RunTwo(cfg, s, TakeAnswer(3), Commit(3));
    RunAppend(cfg, INITIAL, charge, [TakeAnswer(3), Commit(3)]);
    steps := charge + [TakeAnswer(3), Commit(3)];
  }
}
