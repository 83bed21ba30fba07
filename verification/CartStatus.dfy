/** The tracker's single status for a cart (customer-web/src/lib/dr.ts, aggregateStatus and
    composeCartView) over orders that the pipeline moves concurrently. */
module CartStatus {
  import opened Lifecycle
  import opened Storefront
  import opened Ingestion
  import P = Pipeline
  import PipelineInvariant
  import PipelineTheorems
  import PipelineLimits
  import CartMoney

  // ---- the aggregate ---------------------------------------------------------------------

  /** The index on FLOW, which mirrors HAPPY_PATH; 0 for anything that is not on it. */
  function FlowIdx(s: State): (i: nat)
    ensures i < |HAPPY_PATH|
    ensures s in HAPPY_PATH ==> HAPPY_PATH[i] == s
  {
    match s
    case Confirmed => 1
    case Preparing => 2
    case Ready => 3
    case OutForDelivery => 4
    case Delivered => 5
    case _ => 0
  }

  function Active(states: seq<State>): seq<State> {
    if |states| == 0 then []
    else
      var front, last := Active(states[..|states| - 1]), states[|states| - 1];
      if last == Cancelled then front else front + [last]
  }

  function MinIdx(states: seq<State>): (m: nat)
    ensures m < |HAPPY_PATH|
  {
    if |states| == 0 then |HAPPY_PATH| - 1
    else
      var front, last := MinIdx(states[..|states| - 1]), FlowIdx(states[|states| - 1]);
      if last < front then last else front
  }

  function AggregateStatus(states: seq<State>): State {
    if Failed in states then Failed
    else if |Active(states)| == 0 then Cancelled
    else HAPPY_PATH[MinIdx(Active(states))]
  }

  /** What the aggregate means: failed if any order is; cancelled if all are; otherwise the state of
      the least advanced order that was not cancelled. */
  ghost predicate Summarises(status: State, states: seq<State>) {
    if Failed in states then status == Failed
    else if forall s :: s in states ==> s == Cancelled then status == Cancelled
    else
      && status != Cancelled && status in states
      && forall s :: s in states && s != Cancelled ==> Rank(status) <= Rank(s)
  }

  lemma {:induction false} ActiveKeeps(states: seq<State>)
    ensures forall s :: s in Active(states) <==> s in states && s != Cancelled
  {
    if |states| > 0 {
      var front, last := states[..|states| - 1], states[|states| - 1];
      ActiveKeeps(front);
      assert states == front + [last];
    }
  }

  lemma {:induction false} MinIdxIsLeast(states: seq<State>)
    ensures forall s :: s in states ==> MinIdx(states) <= FlowIdx(s)
    ensures |states| > 0 ==> exists s :: s in states && MinIdx(states) == FlowIdx(s)
  {
    if |states| > 0 {
      var front, last := states[..|states| - 1], states[|states| - 1];
      MinIdxIsLeast(front);
      assert states == front + [last];
      if FlowIdx(last) < MinIdx(front) || |front| == 0 {
        assert last in states;
      } else {
        var s :| s in front && MinIdx(front) == FlowIdx(s);
        assert s in states;
      }
    }
  }

  lemma OnFlow(s: State)
    ensures s != Failed && s != Cancelled ==> s in HAPPY_PATH && HAPPY_PATH[FlowIdx(s)] == s && FlowIdx(s) == Rank(s)
  {
  }

  lemma AggregateSummarises(states: seq<State>)
    ensures Summarises(AggregateStatus(states), states)
  {
    hide FlowIdx, MinIdx, Active, Rank;
    var active := Active(states);
    ActiveKeeps(states);
    MinIdxIsLeast(active);
    forall s ensures s != Failed && s != Cancelled ==> HAPPY_PATH[FlowIdx(s)] == s && FlowIdx(s) == Rank(s) {
      OnFlow(s);
    }
    if Failed !in states {
      if |active| > 0 {
        var least :| least in active && MinIdx(active) == FlowIdx(least);
        assert AggregateStatus(states) == least;
      } else {
        assert forall s :: s in states ==> s == Cancelled by {
          forall s | s in states ensures s == Cancelled {
            assert s != Cancelled ==> s in active;
          }
        }
      }
    }
  }

  lemma SummaryUnique(status: State, other: State, a: seq<State>, b: seq<State>)
    requires Summarises(status, a) && Summarises(other, b)
    requires forall s :: s in a <==> s in b
    ensures status == other
  {
  }

  /** The status depends on which states occur, not on how the orders are listed or counted. */
  lemma ListingIndependent(a: seq<State>, b: seq<State>)
    requires forall s :: s in a <==> s in b
    ensures AggregateStatus(a) == AggregateStatus(b)
  {
    hide AggregateStatus, Summarises;
    AggregateSummarises(a);
    AggregateSummarises(b);
    SummaryUnique(AggregateStatus(a), AggregateStatus(b), a, b);
  }

  // ---- over time -------------------------------------------------------------------------

  /** s' is where an order in state s may be later: any number of allowed moves on. */
  ghost predicate Follows(s: State, s': State) {
    exists walk :: Walk(walk) && walk[0] == s && walk[|walk| - 1] == s'
  }

  lemma FollowsRank(s: State, s': State)
    requires Follows(s, s')
    ensures s == s' || (Rank(s) < Rank(s') && !IsTerminal(s))
  {
    var walk :| Walk(walk) && walk[0] == s && walk[|walk| - 1] == s';
    if |walk| > 1 {
      WalkNeverRevisits(walk, 0, |walk| - 1);
    }
  }

  lemma FollowsSelf(s: State)
    ensures Follows(s, s)
  {
    assert Walk([s]);
  }

  lemma FollowsStep(s: State, t: State, u: State)
    requires Follows(s, t) && CanTransition(t, u)
    ensures Follows(s, u)
  {
    var walk :| Walk(walk) && walk[0] == s && walk[|walk| - 1] == t;
    assert Walk(walk + [u]);
    assert (walk + [u])[0] == s && (walk + [u])[|walk + [u]| - 1] == u;
  }

  /** Every order is read now at the same point of its life as before, or later. */
  ghost predicate AllFollow(before: seq<State>, after: seq<State>) {
    |before| == |after| && forall i :: 0 <= i < |before| ==> Follows(before[i], after[i])
  }

  /** A status that is delivered, failed or cancelled never changes, and before that the status
      never moves back on FLOW, however the orders move and whenever each of them was read. */
  lemma StatusMonotone(before: seq<State>, after: seq<State>)
    requires AllFollow(before, after)
    ensures var was, now := AggregateStatus(before), AggregateStatus(after);
            && (IsTerminal(was) ==> now == was)
            && Rank(was) <= Rank(now)
            && (was in HAPPY_PATH && now in HAPPY_PATH ==> FlowIdx(was) <= FlowIdx(now))
  {
    hide AggregateStatus, Follows, FlowIdx;
    AggregateSummarises(before);
    AggregateSummarises(after);
    var was, now := AggregateStatus(before), AggregateStatus(after);
    forall i | 0 <= i < |before|
      ensures before[i] == after[i] || (Rank(before[i]) < Rank(after[i]) && !IsTerminal(before[i]))
    {
      FollowsRank(before[i], after[i]);
    }
    SummariesMonotone(was, now, before, after);
    OnFlow(was);
    OnFlow(now);
    assert !(Failed in HAPPY_PATH) && !(Cancelled in HAPPY_PATH);
  }

  lemma SummariesMonotone(was: State, now: State, before: seq<State>, after: seq<State>)
    requires Summarises(was, before) && Summarises(now, after) && |before| == |after|
    requires forall i :: 0 <= i < |before| ==>
               before[i] == after[i] || (Rank(before[i]) < Rank(after[i]) && !IsTerminal(before[i]))
    ensures IsTerminal(was) ==> now == was
    ensures Rank(was) <= Rank(now)
  {
    if Failed in before {
      var i :| 0 <= i < |before| && before[i] == Failed;
      assert after[i] in after;
    } else if IsTerminal(was) {
      AllStay(was, before, after);
      assert before == after;
      SummaryUnique(was, now, before, after);
    } else if now in HAPPY_PATH {
      var i :| 0 <= i < |after| && after[i] == now;
      assert before[i] in before;
      CancelledStays(before[i], after[i]);
    } else {
      OffFlow(now);
    }
  }

  lemma CancelledStays(s: State, s': State)
    requires s == s' || (Rank(s) < Rank(s') && !IsTerminal(s))
    requires s' in HAPPY_PATH
    ensures s != Cancelled && Rank(s) <= Rank(s')
  {
  }

  lemma OffFlow(s: State)
    requires s !in HAPPY_PATH
    ensures s == Failed || s == Cancelled
  {
  }

  lemma AllStay(was: State, before: seq<State>, after: seq<State>)
    requires Summarises(was, before) && IsTerminal(was) && Failed !in before && |before| == |after|
    requires forall i :: 0 <= i < |before| ==> before[i] == after[i] || !IsTerminal(before[i])
    ensures forall i :: 0 <= i < |before| ==> before[i] == after[i]
  {
    forall i | 0 <= i < |before| ensures before[i] == after[i] {
      assert before[i] in before;
    }
  }

  // ---- over a run of the pipeline ----------------------------------------------------------

  /** What the tracker reads for an order; one that is not seeded yet counts as placed. */
  function Read(db: P.Db, o: P.OrderId): State {
    if o in db.orders then db.orders[o].state else Placed
  }

  /** What a read of order o would show after n steps of a run. */
  function ReadAt(cfg: P.Config, run: seq<P.Step>, n: nat, o: P.OrderId): State
    requires n <= |run| && P.ValidRun(cfg, P.INITIAL, run[..n])
  {
    Read(P.Exec(cfg, P.INITIAL, run[..n]).db, o)
  }

  lemma {:induction false} PrefixValid(cfg: P.Config, s: P.Sys, run: seq<P.Step>, n: nat)
    requires P.ValidRun(cfg, s, run) && n <= |run|
    ensures P.ValidRun(cfg, s, run[..n])
    decreases n
  {
    hide P.Apply, P.Enabled;
    if n > 0 {
      PrefixValid(cfg, P.Apply(cfg, s, run[0]), run[1..], n - 1);
      assert run[..n][1..] == run[1..][..n - 1] && run[..n][0] == run[0];
    }
  }

  lemma {:induction false} PrefixNext(cfg: P.Config, s: P.Sys, run: seq<P.Step>, n: nat)
    requires P.ValidRun(cfg, s, run) && n < |run|
    ensures P.ValidRun(cfg, s, run[..n]) && P.ValidRun(cfg, s, run[..n + 1])
    ensures P.Enabled(cfg, P.Exec(cfg, s, run[..n]), run[n])
    ensures P.Exec(cfg, s, run[..n + 1]) == P.Apply(cfg, P.Exec(cfg, s, run[..n]), run[n])
    decreases n
  {
    hide P.Apply, P.Enabled;
    PrefixValid(cfg, s, run, n);
    PrefixValid(cfg, s, run, n + 1);
    if n > 0 {
      PrefixNext(cfg, P.Apply(cfg, s, run[0]), run[1..], n - 1);
      assert run[..n][1..] == run[1..][..n - 1] && run[..n][0] == run[0];
    }
    assert run[..n + 1][1..] == run[1..][..n] && run[..n + 1][0] == run[0];
  }

  lemma ReadsStep(db: P.Db, db': P.Db, o: P.OrderId)
    requires PipelineTheorems.OrderStep(db, db', o)
    ensures Read(db', o) == Read(db, o) || CanTransition(Read(db, o), Read(db', o))
  {
  }

  /** One more step of the pipeline moves an order by at most one allowed move. */
  lemma ReadsNext(cfg: P.Config, run: seq<P.Step>, n: nat, o: P.OrderId)
    requires P.ValidRun(cfg, P.INITIAL, run) && n < |run|
    ensures P.ValidRun(cfg, P.INITIAL, run[..n]) && P.ValidRun(cfg, P.INITIAL, run[..n + 1])
    ensures var s, s' := ReadAt(cfg, run, n, o), ReadAt(cfg, run, n + 1, o); s' == s || CanTransition(s, s')
  {
    hide P.Apply, P.Enabled, P.Exec, P.ValidRun, PipelineInvariant.Inv, PipelineTheorems.OrderStep, Read;
    PrefixNext(cfg, P.INITIAL, run, n);
    var s := P.Exec(cfg, P.INITIAL, run[..n]);
    PipelineTheorems.Reached(cfg, run[..n]);
    PipelineTheorems.ForwardSimulation(cfg, s, run[n]);
    ReadsStep(s.db, P.Apply(cfg, s, run[n]).db, o);
  }

  lemma {:induction false} ReadsFollow(cfg: P.Config, run: seq<P.Step>, m: nat, n: nat, o: P.OrderId)
    requires P.ValidRun(cfg, P.INITIAL, run) && m <= n <= |run|
    ensures P.ValidRun(cfg, P.INITIAL, run[..m]) && P.ValidRun(cfg, P.INITIAL, run[..n])
    ensures Follows(ReadAt(cfg, run, m, o), ReadAt(cfg, run, n, o))
    decreases n
  {
    hide P.Apply, P.Enabled, P.Exec, P.ValidRun, Follows, ReadAt, CanTransition;
    PrefixValid(cfg, P.INITIAL, run, m);
    PrefixValid(cfg, P.INITIAL, run, n);
    if m == n {
      FollowsSelf(ReadAt(cfg, run, m, o));
    } else {
      ReadsFollow(cfg, run, m, n - 1, o);
      ReadsNext(cfg, run, n - 1, o);
      if ReadAt(cfg, run, n, o) != ReadAt(cfg, run, n - 1, o) {
        FollowsStep(ReadAt(cfg, run, m, o), ReadAt(cfg, run, n - 1, o), ReadAt(cfg, run, n, o));
      }
    }
  }

  /** A composed view: order i of the token is read after at[i] steps of the run; the parallel reads
      of one view need not be simultaneous. */
  ghost predicate ViewOf(cfg: P.Config, run: seq<P.Step>, ids: seq<P.OrderId>, at: seq<nat>, states: seq<State>)
    requires P.ValidRun(cfg, P.INITIAL, run)
  {
    && |at| == |ids| == |states|
    && (forall i :: 0 <= i < |at| ==> at[i] <= |run|)
    && forall i :: 0 <= i < |states| ==>
         P.ValidRun(cfg, P.INITIAL, run[..at[i]]) && states[i] == ReadAt(cfg, run, at[i], ids[i])
  }

  /** What is shown of a view in which some reads fail: those orders show as placed. */
  ghost predicate ShownOf(view: seq<State>, shown: seq<State>) {
    |shown| == |view| && forall i :: 0 <= i < |view| ==> shown[i] == view[i] || shown[i] == Placed
  }

  /** Every state can follow placed. */
  lemma PlacedFirst(s: State)
    ensures Follows(Placed, s)
    decreases Rank(s)
  {
    FollowsSelf(Placed);
    if s != Placed {
      if CanTransition(Placed, s) {
        FollowsStep(Placed, Placed, s);
      } else {
        var before := if s == Preparing then Confirmed else if s == Ready then Preparing
                      else if s == OutForDelivery then Ready else OutForDelivery;
        PlacedFirst(before);
        FollowsStep(Placed, before, s);
      }
    }
  }

  /** The live feed never steps back to a view whose reads succeed, and never misses a change by closing
      on a terminal status: of two views taken one after the other anywhere in any run, the later one
      is no further back, and the same if the earlier one was terminal, whichever reads of the earlier
      one failed. */
  lemma LiveFeedMonotone(cfg: P.Config, run: seq<P.Step>, ids: seq<P.OrderId>,
                         at: seq<nat>, before: seq<State>, shown: seq<State>, later: seq<nat>, after: seq<State>)
    requires P.ValidRun(cfg, P.INITIAL, run)
    requires ViewOf(cfg, run, ids, at, before) && ShownOf(before, shown) && ViewOf(cfg, run, ids, later, after)
    requires forall i :: 0 <= i < |ids| ==> at[i] <= later[i]
    ensures IsTerminal(AggregateStatus(shown)) ==> AggregateStatus(after) == AggregateStatus(shown)
    ensures Rank(AggregateStatus(shown)) <= Rank(AggregateStatus(after))
  {
    hide P.ValidRun, P.Exec, ReadAt, Follows, AggregateStatus;
    forall i | 0 <= i < |shown| ensures Follows(shown[i], after[i]) {
      ReadsFollow(cfg, run, at[i], later[i], ids[i]);
      PlacedFirst(after[i]);
    }
    StatusMonotone(shown, after);
  }

  /** What is shown of a view in which exactly the reads in `failed` fail. */
  ghost predicate ShownWith(view: seq<State>, failed: set<nat>, shown: seq<State>) {
    && |shown| == |view| && (forall i :: i in failed ==> i < |view|)
    && forall i :: 0 <= i < |view| ==> shown[i] == if i in failed then Placed else view[i]
  }

  /** A failed read hides its order behind placed, unless another order is seen to have failed. */
  lemma FailedReadShowsPlaced(view: seq<State>, failed: set<nat>, shown: seq<State>)
    requires ShownWith(view, failed, shown) && failed != {} && Failed !in shown
    ensures AggregateStatus(shown) == Placed
  {
    hide AggregateStatus;
    AggregateSummarises(shown);
    var i :| i in failed;
    assert shown[i] == Placed && Placed in shown;
    assert Rank(AggregateStatus(shown)) <= Rank(Placed);
  }

  lemma NoneFailed(view: seq<State>, shown: seq<State>)
    requires ShownWith(view, {}, shown)
    ensures shown == view
  {
  }

  lemma FailedShows(shown: seq<State>)
    ensures AggregateStatus(shown) == Failed <==> Failed in shown
  {
    AggregateSummarises(shown);
    hide AggregateStatus;
  }

  /** Exactly when a later tick of the live feed steps back, whichever reads of either tick fail: a read of
      the later one fails, no failed order is seen in it, and the earlier one was past placed. A
      terminal status stays exactly if no read fails or a failed order is seen. */
  lemma LiveFeedStepsBackIff(cfg: P.Config, run: seq<P.Step>, ids: seq<P.OrderId>,
                             at: seq<nat>, before: seq<State>, shown: seq<State>,
                             later: seq<nat>, after: seq<State>, failed: set<nat>, shown': seq<State>)
    requires P.ValidRun(cfg, P.INITIAL, run)
    requires ViewOf(cfg, run, ids, at, before) && ShownOf(before, shown) && ViewOf(cfg, run, ids, later, after)
    requires forall i :: 0 <= i < |ids| ==> at[i] <= later[i]
    requires ShownWith(after, failed, shown')
    ensures var was, now := AggregateStatus(shown), AggregateStatus(shown');
            && (Rank(now) < Rank(was) <==> failed != {} && Failed !in shown' && was != Placed)
            && (IsTerminal(was) ==> (now == was <==> failed == {} || Failed in shown'))
  {
    hide P.ValidRun, ViewOf, AggregateStatus, ShownOf, ShownWith;
    LiveFeedMonotone(cfg, run, ids, at, before, shown, later, after);
    FailedShows(shown');
    if failed == {} {
      NoneFailed(after, shown');
    } else if Failed !in shown' {
      FailedReadShowsPlaced(after, failed, shown');
    } else if IsTerminal(AggregateStatus(shown)) {
      FailedSeen(after, failed, shown');
    }
  }

  lemma FailedSeen(view: seq<State>, failed: set<nat>, shown: seq<State>)
    requires ShownWith(view, failed, shown) && Failed in shown
    ensures AggregateStatus(view) == Failed
  {
    hide AggregateStatus;
    AggregateSummarises(view);
    var i :| 0 <= i < |shown| && shown[i] == Failed;
    assert view[i] == Failed;
  }

  /** The tracker of a one-order cart shows confirmed and then, when a read fails, placed. */
  lemma ConfirmedThenPlaced(cfg: P.Config, o: P.OrderId, key: string, total: int) returns (run: seq<P.Step>)
    requires cfg.httpAttempts > 0 && total <= P.INT4_MAX
    ensures P.ValidRun(cfg, P.INITIAL, run)
    ensures ViewOf(cfg, run, [o], [|run|], [Confirmed]) && ShownWith([Confirmed], {0}, [Placed])
    ensures AggregateStatus([Confirmed]) == Confirmed && AggregateStatus([Placed]) == Placed
  {
    hide P.ValidRun, P.Exec, AggregateStatus;
    run := PipelineLimits.ConfirmOne(cfg, o, key, total);
    assert run[..|run|] == run;
    AggregateSummarises([Confirmed]);
    AggregateSummarises([Placed]);
    assert Confirmed in [Confirmed] && Placed in [Placed];
  }

  // ---- composeCartView ---------------------------------------------------------------------

  /** One order as the orchestrator answers for it. */
  datatype View = View(order: P.OrderId, restaurant: string, state: State, total: int, items: seq<Item>)

  datatype KitchenStatus =
    | KitchenPending | KitchenPlaced | KitchenPreparing | KitchenReady
    | KitchenFailed | KitchenCancelled

  datatype DeliveryStatus =
    | NotCreated | Created | PickedUp | Dropped
    | DeliveryFailed | DeliveryCancelled

  datatype ItemRow = ItemRow(order: P.OrderId, index: nat, restaurant: string, item: Item)
  datatype KitchenRow = KitchenRow(order: P.OrderId, restaurant: string, status: KitchenStatus, subtotal: int)
  datatype DeliveryRow = DeliveryRow(order: P.OrderId, restaurant: string, tracked: bool, status: DeliveryStatus)

  function KitchenOf(s: State): KitchenStatus {
    match s
    case Placed => KitchenPending
    case Confirmed => KitchenPlaced
    case Preparing => KitchenPreparing
    case Ready => KitchenReady
    case OutForDelivery => KitchenReady
    case Delivered => KitchenReady
    case Failed => KitchenFailed
    case Cancelled => KitchenCancelled
  }

  function DeliveryOf(s: State): DeliveryStatus {
    match s
    case Placed => NotCreated
    case Confirmed => NotCreated
    case Preparing => NotCreated
    case Ready => Created
    case OutForDelivery => PickedUp
    case Delivered => Dropped
    case Failed => DeliveryFailed
    case Cancelled => DeliveryCancelled
  }

  /** fetchOrder: an order that was not found or not read is a pending placeholder without items, labelled
      from the token. */
  function Fetched(e: Entry, answer: Option<View>): View {
    match answer
    case Some(view) => view
    case None => View(e.id, e.r, Placed, 0, [])
  }

  function StatesOf(views: seq<View>): seq<State> {
    seq(|views|, i requires 0 <= i < |views| => views[i].state)
  }

  function TotalOf(views: seq<View>): int {
    if |views| == 0 then 0 else TotalOf(views[..|views| - 1]) + views[|views| - 1].total
  }

  function Subtotals(rows: seq<KitchenRow>): int {
    if |rows| == 0 then 0 else Subtotals(rows[..|rows| - 1]) + rows[|rows| - 1].subtotal
  }

  function ItemsOf(view: View): seq<ItemRow> {
    seq(|view.items|, i requires 0 <= i < |view.items| => ItemRow(view.order, i, view.restaurant, view.items[i]))
  }

  function AllItems(views: seq<View>): seq<ItemRow> {
    if |views| == 0 then [] else AllItems(views[..|views| - 1]) + ItemsOf(views[|views| - 1])
  }

  function KitchenRowOf(v: View): KitchenRow {
    KitchenRow(v.order, v.restaurant, KitchenOf(v.state), v.total)
  }

  function DeliveryRowOf(v: View): DeliveryRow {
    DeliveryRow(v.order, v.restaurant, v.state != Placed, DeliveryOf(v.state))
  }

  /** One row per order, in the order of the token. */
  predicate KitchenRows(views: seq<View>, rows: seq<KitchenRow>) {
    |rows| == |views| && forall i :: 0 <= i < |views| ==> rows[i] == KitchenRowOf(views[i])
  }

  predicate DeliveryRows(views: seq<View>, rows: seq<DeliveryRow>) {
    |rows| == |views| && forall i :: 0 <= i < |views| ==> rows[i] == DeliveryRowOf(views[i])
  }

  function ViewsOf(token: seq<Entry>, answers: seq<Option<View>>): seq<View>
    requires |answers| == |token|
  {
    seq(|token|, i requires 0 <= i < |token| => Fetched(token[i], answers[i]))
  }

  /** What the loop over the orders has collected. */
  ghost predicate Collected(views: seq<View>, total: int, items: seq<ItemRow>, kitchens: seq<KitchenRow>,
                            deliveries: seq<DeliveryRow>)
  {
    && total == TotalOf(views) == Subtotals(kitchens) && items == AllItems(views)
    && KitchenRows(views, kitchens) && DeliveryRows(views, deliveries)
  }

  lemma CollectedNext(views: seq<View>, v: View, total: int, items: seq<ItemRow>, kitchens: seq<KitchenRow>,
                      deliveries: seq<DeliveryRow>)
    requires Collected(views, total, items, kitchens, deliveries)
    ensures Collected(views + [v], total + v.total, items + ItemsOf(v), kitchens + [KitchenRowOf(v)],
                      deliveries + [DeliveryRowOf(v)])
  {
    hide KitchenOf, DeliveryOf, ItemsOf;
    assert (views + [v])[..|views|] == views;
    assert (kitchens + [KitchenRowOf(v)])[..|kitchens|] == kitchens;
  }

  /** composeCartView on what the orchestrator answered for each order of the token; None is a 404 or a
      failed read. */
  method ComposeCartView(token: seq<Entry>, answers: seq<Option<View>>)
    returns (status: State, total: int, items: seq<ItemRow>, kitchens: seq<KitchenRow>, deliveries: seq<DeliveryRow>)
    requires |answers| == |token|
    ensures var views := ViewsOf(token, answers);
            && Summarises(status, StatesOf(views)) && status == AggregateStatus(StatesOf(views))
            && total == TotalOf(views) == Subtotals(kitchens)
            && items == AllItems(views) && KitchenRows(views, kitchens) && DeliveryRows(views, deliveries)
  {
    hide AggregateStatus, Summarises, ItemsOf, StatesOf, Fetched, KitchenOf, DeliveryOf;
    var views := ViewsOf(token, answers);
    total, items, kitchens, deliveries := 0, [], [], [];
    for i := 0 to |views|
      invariant Collected(views[..i], total, items, kitchens, deliveries)
    {
      hide *;
      var view := views[i];
      CollectedNext(views[..i], view, total, items, kitchens, deliveries);
      assert views[..i + 1] == views[..i] + [view];
      total, items := total + view.total, items + ItemsOf(view);
      kitchens, deliveries := kitchens + [KitchenRowOf(view)], deliveries + [DeliveryRowOf(view)];
    }
    assert views[..|views|] == views;
    status := AggregateStatus(StatesOf(views));
    AggregateSummarises(StatesOf(views));
  }

  /** The headline never contradicts the rows under it: it is failed exactly if a kitchen row is, and a
      delivery row is; cancelled exactly if all rows are; delivered exactly if every delivery that was
      not cancelled has been dropped off and there is one. */
  lemma RowsTellStatus(views: seq<View>, kitchens: seq<KitchenRow>, deliveries: seq<DeliveryRow>)
    requires KitchenRows(views, kitchens) && DeliveryRows(views, deliveries)
    ensures var status := AggregateStatus(StatesOf(views));
            && (status == Failed <==> exists i :: 0 <= i < |kitchens| && kitchens[i].status == KitchenFailed)
            && (status == Failed <==> exists i :: 0 <= i < |deliveries| && deliveries[i].status == DeliveryFailed)
            && (status == Cancelled <==> forall i :: 0 <= i < |kitchens| ==> kitchens[i].status == KitchenCancelled)
            && (status == Cancelled <==>
                forall i :: 0 <= i < |deliveries| ==> deliveries[i].status == DeliveryCancelled)
            && (status == Delivered <==>
                && (exists i :: 0 <= i < |deliveries| && deliveries[i].status == Dropped)
                && forall i :: 0 <= i < |deliveries| ==> deliveries[i].status in {Dropped, DeliveryCancelled})
  {
    hide AggregateStatus;
    var states := StatesOf(views);
    AggregateSummarises(states);
    assert forall i :: 0 <= i < |views| ==> states[i] == views[i].state && states[i] in states;
  }

  lemma {:induction false} ItemsBefore(views: seq<View>, n: nat)
    requires n <= |views|
    ensures AllItems(views[..n]) <= AllItems(views)
    decreases |views|
  {
    if n == |views| {
      assert views[..n] == views;
    } else {
      var front := views[..|views| - 1];
      ItemsBefore(front, n);
      assert front[..n] == views[..n];
      assert AllItems(views) == AllItems(front) + ItemsOf(views[|views| - 1]);
    }
  }

  /** Every item of every order is shown, behind exactly those of the orders before it, with its number in
      the order; and nothing else is. */
  lemma EveryItemShown(views: seq<View>, i: nat, j: nat)
    requires i < |views| && j < |views[i].items|
    ensures var before := |AllItems(views[..i])|;
            && |AllItems(views[..i + 1])| == before + |views[i].items|
            && before + j < |AllItems(views)|
            && AllItems(views)[before + j] == ItemRow(views[i].order, j, views[i].restaurant, views[i].items[j])
  {
    ItemsBefore(views, i + 1);
    assert views[..i + 1][..i] == views[..i];
    assert AllItems(views[..i + 1]) == AllItems(views[..i]) + ItemsOf(views[i]);
  }

  /** The row of an order says which stage it is in: a kitchen is done from ready to delivered, a delivery
      does not exist before ready, and every other status stands for one state. A provider's delivery id is
      shown as soon as the order has left placed. */
  lemma RowsTellStage(s: State)
    ensures KitchenOf(s) == KitchenReady <==> Rank(Ready) <= Rank(s) <= Rank(Delivered)
    ensures KitchenOf(s) == KitchenPending <==> s == Placed
    ensures KitchenOf(s) == KitchenPlaced <==> s == Confirmed
    ensures KitchenOf(s) == KitchenPreparing <==> s == Preparing
    ensures KitchenOf(s) == KitchenFailed <==> s == Failed
    ensures KitchenOf(s) == KitchenCancelled <==> s == Cancelled
    ensures DeliveryOf(s) == NotCreated <==> Rank(s) <= Rank(Preparing)
    ensures DeliveryOf(s) == Created <==> s == Ready
    ensures DeliveryOf(s) == PickedUp <==> s == OutForDelivery
    ensures DeliveryOf(s) == Dropped <==> s == Delivered
    ensures DeliveryOf(s) == DeliveryFailed <==> s == Failed
    ensures DeliveryOf(s) == DeliveryCancelled <==> s == Cancelled
    ensures forall v: View :: v.state == s ==>
              var kitchen, delivery := KitchenRowOf(v), DeliveryRowOf(v);
              && kitchen.order == delivery.order == v.order && kitchen.restaurant == delivery.restaurant == v.restaurant
              && kitchen.subtotal == v.total && (delivery.tracked <==> s != Placed)
  {
  }

  /** What the rows of an order promise is on record: the charge, the kitchen's ticket, the courier's trip. */
  predicate Backed(db: P.Db, o: P.OrderId, kitchen: KitchenStatus, delivery: DeliveryStatus) {
    var charge := P.Op(o, Placed, Confirmed);
    && (kitchen in {KitchenPlaced, KitchenPreparing, KitchenReady} ==>
          charge in db.charges && db.charges[charge].status == P.Succeeded)
    && (kitchen in {KitchenPreparing, KitchenReady} ==> P.Op(o, Confirmed, Preparing) in db.kitchen)
    && (delivery in {PickedUp, Dropped} ==> P.Op(o, Ready, OutForDelivery) in db.couriers)
    && (kitchen == KitchenFailed || delivery == DeliveryFailed ==>
          charge in db.charges && db.charges[charge].status == P.Declined)
  }

  lemma VisitedNow(db: P.Db, o: P.OrderId)
    requires PipelineInvariant.DbInv(db) && o in db.orders
    ensures PipelineInvariant.Visited(db, o, db.orders[o].state)
  {
    PipelineInvariant.OrderOf(db, o);
    hide PipelineInvariant.DbInv;
  }

  lemma StagesBehind(db: P.Db, o: P.OrderId)
    requires PipelineInvariant.DbInv(db) && o in db.orders
    ensures var s := db.orders[o].state;
            && (Rank(Confirmed) <= Rank(s) <= Rank(Delivered) ==> PipelineInvariant.Visited(db, o, Confirmed))
            && (Rank(Preparing) <= Rank(s) <= Rank(Delivered) ==> PipelineInvariant.Visited(db, o, Preparing))
            && (Rank(OutForDelivery) <= Rank(s) <= Rank(Delivered) ==> PipelineInvariant.Visited(db, o, OutForDelivery))
  {
    hide PipelineInvariant.DbInv, PipelineInvariant.Visited, PipelineInvariant.Justified;
    var s := db.orders[o].state;
    VisitedNow(db, o);
    if s == Delivered { PipelineTheorems.VisitedPrevious(db, o, OutForDelivery, Delivered); }
    if s == Delivered || s == OutForDelivery { PipelineTheorems.VisitedPrevious(db, o, Ready, OutForDelivery); }
    if s in {Delivered, OutForDelivery, Ready} { PipelineTheorems.VisitedPrevious(db, o, Preparing, Ready); }
    if s in {Delivered, OutForDelivery, Ready, Preparing} {
      PipelineTheorems.VisitedPrevious(db, o, Confirmed, Preparing);
    }
  }

  lemma BackedNow(db: P.Db, o: P.OrderId)
    requires PipelineInvariant.DbInv(db) && o in db.orders
    ensures Backed(db, o, KitchenOf(db.orders[o].state), DeliveryOf(db.orders[o].state))
  {
    hide PipelineInvariant.DbInv, PipelineInvariant.Visited, KitchenOf, DeliveryOf;
    var s := db.orders[o].state;
    VisitedNow(db, o);
    StagesBehind(db, o);
    PipelineTheorems.StageEffects(db, o);
    RowsTellStage(s);
    hide Rank;
  }

  /** In every reachable state the tracker's rows are backed by what the services recorded. */
  lemma RowsAreBacked(cfg: P.Config, run: seq<P.Step>, o: P.OrderId)
    requires P.ValidRun(cfg, P.INITIAL, run) && o in P.Exec(cfg, P.INITIAL, run).db.orders
    ensures var db := P.Exec(cfg, P.INITIAL, run).db;
            Backed(db, o, KitchenOf(db.orders[o].state), DeliveryOf(db.orders[o].state))
  {
    hide P.Exec, P.ValidRun, PipelineInvariant.DbInv, PipelineInvariant.TokensInv, PipelineInvariant.CallsInv, Backed;
    PipelineTheorems.Reached(cfg, run);
    BackedNow(P.Exec(cfg, P.INITIAL, run).db, o);
  }

  /** What the orchestrator answers for an order of the token. */
  predicate AnswersFor(db: P.Db, e: Entry, answer: Option<View>) {
    if e.id in db.orders then answer.Some? && answer.value.state == db.orders[e.id].state else answer == None
  }

  /** A successful read shows the order's state, and placed while it is not seeded: what Read says. */
  lemma FetchedIsRead(db: P.Db, e: Entry, answer: Option<View>)
    requires AnswersFor(db, e, answer)
    ensures Fetched(e, answer).state == Read(db, e.id)
  {
  }

  /** The states that composeCartView aggregates are those shown in the live feed's lemmas: those of the
      reads that succeed, and placed for those in `failed`. */
  lemma ComposedIsShown(token: seq<Entry>, answers: seq<Option<View>>, states: seq<State>, failed: set<nat>)
    requires |answers| == |token| == |states| && forall i :: i in failed ==> i < |token|
    requires forall i :: 0 <= i < |token| ==>
               if i in failed then answers[i] == None else Fetched(token[i], answers[i]).state == states[i]
    ensures ShownWith(states, failed, StatesOf(ViewsOf(token, answers)))
  {
  }

  /** Once every order was found, the view's total is the sum over the token's orders. */
  lemma {:induction false} ViewTotal(views: seq<View>, amounts: map<P.OrderId, int>, token: seq<Entry>)
    requires |views| == |token|
    requires forall i :: 0 <= i < |views| ==> token[i].id in amounts && views[i].total == amounts[token[i].id]
    ensures TotalOf(views) == CartMoney.SumOf(amounts, token)
  {
    if |views| > 0 {
      ViewTotal(views[..|views| - 1], amounts, token[..|token| - 1]);
    }
  }
}
