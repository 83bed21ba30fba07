/** Money from the cart to the charges: a checkout's total, the ingested orders, the orders that the
    tracker adds up, and the charges of the payment service. */
module CartMoney {
  import opened Ingestion
  import opened Storefront
  import opened Checkout
  import P = Pipeline
  import PipelineInvariant
  import PipelineTheorems

  // ---- one ingestion history inside a pipeline run ----------------------------------------

  function WireOf(p: Post): P.Step {
    P.Step.Post(KeyOf(p), p.order, Total(p.req.items))
  }

  /** The Post steps of a run are the posts of a history that got past validation, in order. */
  predicate Mirrors(steps: seq<P.Step>, posts: seq<Post>)
    decreases |steps| + |posts|
  {
    if |posts| > 0 && !WellFormed(posts[0].req) then Mirrors(steps, posts[1..])
    else if |steps| == 0 then |posts| == 0
    else if steps[0].Post? then |posts| > 0 && steps[0] == WireOf(posts[0]) && Mirrors(steps[1..], posts[1..])
    else Mirrors(steps[1..], posts)
  }

  /** Whatever else the pipeline does in between, its ingestion table is the history's. */
  lemma {:induction false} IngestMirrors(cfg: P.Config, s: P.Sys, steps: seq<P.Step>,
                                       before: seq<Post>, posts: seq<Post>)
    requires P.ValidRun(cfg, s, steps) && Mirrors(steps, posts) && s.db.ingest == Essence(PostAll(before))
    ensures P.Exec(cfg, s, steps).db.ingest == Essence(PostAll(before + posts))
    decreases |steps| + |posts|
  {
    hide Essence, Total, KeyOf, P.Enabled, P.Apply, WellFormed;
    if |posts| > 0 && !WellFormed(posts[0].req) {
      PostedNext(before, posts);
      NotPosted(PostAll(before), posts[0]);
      IngestMirrors(cfg, s, steps, before + [posts[0]], posts[1..]);
    } else if |steps| == 0 {
      assert before + posts == before;
    } else if steps[0].Post? {
      PostedNext(before, posts);
      PostStep(cfg, s, before, posts[0]);
      IngestMirrors(cfg, P.Apply(cfg, s, steps[0]), steps[1..], before + [posts[0]], posts[1..]);
    } else {
      PipelineTheorems.IngestUntouched(cfg, s, steps[0]);
      IngestMirrors(cfg, P.Apply(cfg, s, steps[0]), steps[1..], before, posts);
    }
  }

  lemma PostedNext(before: seq<Post>, posts: seq<Post>)
    requires |posts| > 0
    ensures PostAll(before + [posts[0]]) == PostTx(PostAll(before), posts[0])
    ensures (before + [posts[0]]) + posts[1..] == before + posts
  {
    hide PostTx;
    assert (before + [posts[0]])[..|before|] == before;
  }

  lemma NotPosted(t: Tables, p: Post)
    requires !WellFormed(p.req)
    ensures PostTx(t, p) == t
  {
  }

  lemma PostStep(cfg: P.Config, s: P.Sys, before: seq<Post>, p: Post)
    requires WellFormed(p.req) && s.db.ingest == Essence(PostAll(before)) && P.Enabled(cfg, s, WireOf(p))
    ensures P.Apply(cfg, s, WireOf(p)).db.ingest == Essence(PostTx(PostAll(before), p))
  {
    HistoryValid(before);
    PostIsPipelinePost(PostAll(before), p, s.db);
    hide Essence, Total, KeyOf, PostTx, PostAll, WellFormed;
  }

  // ---- adding up a cart ------------------------------------------------------------------------

  /** The amounts of the token's orders added up; an order without one counts for nothing. */
  function SumOf(amounts: map<P.OrderId, int>, token: seq<Entry>): int {
    if |token| == 0 then 0
    else
      var e := token[|token| - 1];
      SumOf(amounts, token[..|token| - 1]) + if e.id in amounts then amounts[e.id] else 0
  }

  /** What the orchestrator's rows show. */
  function Shown(db: P.Db): map<P.OrderId, int> {
    map o | o in db.orders :: db.orders[o].total
  }

  /** What was charged, by order. */
  function Charged(db: P.Db): map<P.OrderId, int> {
    map o | o in db.ingest && PipelineInvariant.ChargeKey(o) in db.charges
      :: db.charges[PipelineInvariant.ChargeKey(o)].amount
  }

  /** Amounts that agree with the cart's lines wherever they exist. */
  ghost predicate Priced(amounts: map<P.OrderId, int>, cart: Cart, token: seq<Entry>) {
    forall e :: e in token && e.id in amounts ==> amounts[e.id] == Total(Lines(cart, e.r))
  }

  lemma {:induction false} SumIsSubtotals(amounts: map<P.OrderId, int>, cart: Cart, token: seq<Entry>)
    requires Priced(amounts, cart, token) && forall e :: e in token ==> e.id in amounts
    ensures SumOf(amounts, token) == Subtotals(cart, RestaurantsOf(token))
    decreases |token|
  {
    hide Total, Lines;
    if |token| > 0 {
      var front, e := token[..|token| - 1], token[|token| - 1];
      assert token == front + [e];
      SumIsSubtotals(amounts, cart, front);
      assert RestaurantsOf(token)[..|token| - 1] == RestaurantsOf(front);
    }
  }

  lemma SumIsCartTotal(amounts: map<P.OrderId, int>, history: seq<Post>, c: string, cart: Cart, token: seq<Entry>)
    requires Complete(history, c, cart, token) && Priced(amounts, cart, token)
    requires forall e :: e in token ==> e.id in amounts
    ensures SumOf(amounts, token) == CartTotal(cart)
  {
    hide Told, Total, Lines, Restaurants, RestaurantsOf;
    SumIsSubtotals(amounts, cart, token);
    RestaurantsCover(cart);
    FanOutConserves(cart, RestaurantsOf(token));
  }

  lemma EntryRestaurant(token: seq<Entry>, e: Entry)
    requires e in token
    ensures e.r in RestaurantsOf(token)
  {
    var i :| 0 <= i < |token| && token[i] == e;
    assert RestaurantsOf(token)[i] == e.r;
  }

  /** An entry of a complete checkout is an ingested order priced by the cart's lines. */
  lemma EntryPriced(cfg: P.Config, steps: seq<P.Step>, history: seq<Post>, carts: map<string, Cart>, c: string,
                    token: seq<Entry>, e: Entry)
    requires P.ValidRun(cfg, P.INITIAL, steps) && Mirrors(steps, history)
    requires Traffic(history, carts) && ClashFree(carts) && c in carts
    requires Complete(history, c, carts[c], token) && e in token
    ensures var db := P.Exec(cfg, P.INITIAL, steps).db;
            e.id in db.ingest && db.ingest[e.id] == P.IngestRow(Key(c, e.r), Total(Lines(carts[c], e.r)))
  {
    hide P.ValidRun, P.Exec, Told, Total, Lines, Traffic, Mirrors, ClashFree, Restaurants;
    assert [] + history == history;
    EntryRestaurant(token, e);
    IngestMirrors(cfg, P.INITIAL, steps, [], history);
    CheckoutIdempotent(history, carts, c, e.r, e.id);
    HistoryValid(history);
  }

  /** Money is conserved end to end: in every reachable state of the pipeline, the rows that the
      tracker adds up and the charges agree with the cart's lines order by order, and once all the
      cart's orders are seeded (or charged) they add up to the total that the checkout returned. */
  lemma MoneyEndToEnd(cfg: P.Config, steps: seq<P.Step>, history: seq<Post>, carts: map<string, Cart>, c: string,
                      token: seq<Entry>)
    requires P.ValidRun(cfg, P.INITIAL, steps) && Mirrors(steps, history)
    requires Traffic(history, carts) && ClashFree(carts) && c in carts
    requires Complete(history, c, carts[c], token)
    ensures var db := P.Exec(cfg, P.INITIAL, steps).db;
            && Priced(Shown(db), carts[c], token) && Priced(Charged(db), carts[c], token)
            && ((forall e :: e in token ==> e.id in Shown(db)) ==> SumOf(Shown(db), token) == CartTotal(carts[c]))
            && ((forall e :: e in token ==> e.id in Charged(db)) ==> SumOf(Charged(db), token) == CartTotal(carts[c]))
  {
    hide P.ValidRun, P.Exec, Complete, Total, Lines, Traffic, Mirrors, CartTotal, SumOf, ClashFree;
    var db := P.Exec(cfg, P.INITIAL, steps).db;
    forall e | e in token
      ensures e.id in Shown(db) ==> Shown(db)[e.id] == Total(Lines(carts[c], e.r))
      ensures e.id in Charged(db) ==> Charged(db)[e.id] == Total(Lines(carts[c], e.r))
    {
      EntryPriced(cfg, steps, history, carts, c, token, e);
      AmountsAgree(cfg, steps, e.id);
    }
    if forall e :: e in token ==> e.id in Shown(db) {
      SumIsCartTotal(Shown(db), history, c, carts[c], token);
    }
    if forall e :: e in token ==> e.id in Charged(db) {
      SumIsCartTotal(Charged(db), history, c, carts[c], token);
    }
  }

  lemma AmountsAgree(cfg: P.Config, steps: seq<P.Step>, o: P.OrderId)
    requires P.ValidRun(cfg, P.INITIAL, steps)
    ensures var db := P.Exec(cfg, P.INITIAL, steps).db;
            && (o in Shown(db) ==> o in db.ingest && Shown(db)[o] == db.ingest[o].total)
            && (o in Charged(db) ==> o in db.ingest && Charged(db)[o] == db.ingest[o].total)
  {
    var s := P.Exec(cfg, P.INITIAL, steps);
    PipelineTheorems.Reached(cfg, steps);
    if o in s.db.orders {
      OrderTotal(cfg, s, o);
    }
    if o in Charged(s.db) {
      PipelineTheorems.MoneyConserved(cfg, steps, PipelineInvariant.ChargeKey(o));
    }
  }

  lemma OrderTotal(cfg: P.Config, s: P.Sys, o: P.OrderId)
    requires PipelineInvariant.Inv(cfg, s) && o in s.db.orders
    ensures o in s.db.ingest && s.db.ingest[o].total == s.db.orders[o].total
  {
    hide PipelineInvariant.DbInv, PipelineInvariant.TokensInv, PipelineInvariant.CallsInv;
    PipelineInvariant.OrderOf(s.db, o);
  }
}
