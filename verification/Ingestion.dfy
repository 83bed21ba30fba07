/** The front door (services/ingestion/app/main.py): one transaction that inserts an order under a
    unique idempotency key and enqueues its order.placed event. */
module Ingestion {
  import opened Lifecycle
  import P = Pipeline

  datatype Item = Item(name: string, qty: int, price: int)
  datatype Request = Request(key: Option<string>, customer: string, restaurant: string, items: seq<Item>)

  /** One POST /orders, with the two ids that new_uuid would draw for it. */
  datatype Post = Post(req: Request, order: P.OrderId, spare: string)

  datatype Row = Row(key: string, customer: string, restaurant: string, items: seq<Item>, total: int)
  datatype Event = Event(order: P.OrderId, row: Row)
  datatype Tables = Tables(
    orders: map<P.OrderId, Row>,      // primary key order_id
    index: map<string, P.OrderId>,    // the unique index on idempotency_key
    outbox: seq<Event>)

  /** 202, 200, 422 and 500. */
  datatype Answer = Accepted(order: P.OrderId) | Duplicate(order: P.OrderId) | Malformed | Broken

  const EMPTY := Tables(map[], map[], [])

  predicate Ok(a: Answer) {
    a.Accepted? || a.Duplicate?
  }

  /** total_cents. */
  function Total(items: seq<Item>): int {
    if |items| == 0 then 0
    else Total(items[..|items| - 1]) + items[|items| - 1].qty * items[|items| - 1].price
  }

  predicate WellFormed(req: Request) {
    |req.items| > 0 && forall i :: 0 <= i < |req.items| ==> req.items[i].qty >= 1 && req.items[i].price >= 0
  }

  /** An absent or empty key is replaced by a fresh one. */
  function KeyOf(p: Post): string {
    match p.req.key
    case Some(k) => if k != "" then k else p.spare
    case None => p.spare
  }

  function RowOf(p: Post): Row {
    Row(KeyOf(p), p.req.customer, p.req.restaurant, p.req.items, Total(p.req.items))
  }

  function AnswerOf(t: Tables, p: Post): Answer {
    if !WellFormed(p.req) then Malformed
    else if Total(p.req.items) > P.INT4_MAX then Broken
    else if KeyOf(p) in t.index then Duplicate(t.index[KeyOf(p)])
    else if p.order in t.orders then Broken
    else Accepted(p.order)
  }

  function PostTx(t: Tables, p: Post): Tables {
    if !AnswerOf(t, p).Accepted? then t
    else Tables(t.orders[p.order := RowOf(p)], t.index[KeyOf(p) := p.order], t.outbox + [Event(p.order, RowOf(p))])
  }

  /** What one POST comes to, spelled out: a request without items, or with a quantity below one or a negative
      price, is malformed; then a total over int4 is refused, a known key is answered with its order, a
      taken order id is refused, and anything else is recorded, with everything the client sent, in the
      orders and in the outbox alike. An absent or empty key is no key: the spare one stands in. */
  predicate PostEnds(t: Tables, t': Tables, p: Post, answer: Answer) {
    var key := if p.req.key.None? || p.req.key.value == "" then p.spare else p.req.key.value;
    var total := Total(p.req.items);
    var row := Row(key, p.req.customer, p.req.restaurant, p.req.items, total);
    && (answer == Malformed <==>
          p.req.items == [] || exists it :: it in p.req.items && (it.qty < 1 || it.price < 0))
    && (answer != Malformed ==> (answer == Broken <==> total > 0x7FFF_FFFF || (key !in t.index && p.order in t.orders)))
    && (answer.Duplicate? ==> key in t.index && answer.order == t.index[key])
    && (answer.Accepted? ==>
          && key !in t.index && p.order !in t.orders && answer.order == p.order
          && t' == Tables(t.orders[p.order := row], t.index[key := p.order], t.outbox + [Event(p.order, row)]))
    && (!answer.Accepted? ==> t' == t)
  }

  lemma PostOutcome(t: Tables, p: Post)
    ensures PostEnds(t, PostTx(t, p), p, AnswerOf(t, p))
  {
    var items := p.req.items;
    if !WellFormed(p.req) && items != [] {
      var i :| 0 <= i < |items| && !(items[i].qty >= 1 && items[i].price >= 0);
      assert items[i] in items;
    }
  }

  // ---- what every transaction keeps ---------------------------------------------

  /** The events of the outbox that announce order o. */
  function Announcements(outbox: seq<Event>, o: P.OrderId): nat {
    if |outbox| == 0 then 0
    else Announcements(outbox[..|outbox| - 1], o) + if outbox[|outbox| - 1].order == o then 1 else 0
  }

  ghost predicate IndexOk(t: Tables) {
    && (forall k :: k in t.index ==> t.index[k] in t.orders && t.orders[t.index[k]].key == k)
    && (forall o :: o in t.orders ==> t.orders[o].key in t.index && t.index[t.orders[o].key] == o)
  }

  /** Every order row has exactly one outbox row, which carries its content. */
  ghost predicate OutboxOk(t: Tables) {
    && (forall e :: e in t.outbox ==> e.order in t.orders && e.row == t.orders[e.order])
    && (forall o: P.OrderId :: Announcements(t.outbox, o) == if o in t.orders then 1 else 0)
  }

  ghost predicate Valid(t: Tables) {
    && IndexOk(t) && OutboxOk(t)
    && (forall o :: o in t.orders ==> t.orders[o].total == Total(t.orders[o].items) <= P.INT4_MAX)
  }

  lemma IndexKept(t: Tables, p: Post)
    requires IndexOk(t) && AnswerOf(t, p).Accepted?
    ensures IndexOk(PostTx(t, p))
  {
    hide Total, WellFormed, KeyOf;
  }

  lemma OutboxKept(t: Tables, p: Post)
    requires OutboxOk(t) && AnswerOf(t, p).Accepted?
    ensures OutboxOk(PostTx(t, p))
  {
    hide Total, WellFormed, KeyOf, RowOf;
    var t' := PostTx(t, p);
    assert t'.outbox[..|t'.outbox| - 1] == t.outbox;
  }

  lemma PostKeepsValid(t: Tables, p: Post)
    requires Valid(t)
    ensures Valid(PostTx(t, p))
  {
    hide Total, WellFormed, KeyOf, IndexOk, OutboxOk;
    if AnswerOf(t, p).Accepted? {
      IndexKept(t, p);
      OutboxKept(t, p);
    }
  }

  // ---- runs ------------------------------------------------------------------------

  /** The tables after a history of posts by any clients, in the order they committed. */
  function PostAll(posts: seq<Post>): Tables {
    if |posts| == 0 then EMPTY else PostTx(PostAll(posts[..|posts| - 1]), posts[|posts| - 1])
  }

  /** What the i-th post of a history was answered. */
  function AnswerAt(posts: seq<Post>, i: nat): Answer
    requires i < |posts|
  {
    AnswerOf(PostAll(posts[..i]), posts[i])
  }

  lemma {:induction false} HistoryValid(posts: seq<Post>)
    ensures Valid(PostAll(posts))
  {
    if |posts| > 0 {
      HistoryValid(posts[..|posts| - 1]);
      PostKeepsValid(PostAll(posts[..|posts| - 1]), posts[|posts| - 1]);
    }
  }

  lemma PrefixStep(posts: seq<Post>, n: nat)
    requires n < |posts|
    ensures PostAll(posts[..n + 1]) == PostTx(PostAll(posts[..n]), posts[n])
  {
    assert posts[..n + 1][..n] == posts[..n];
  }

  /** Nothing recorded is ever changed: the first writer of a key decides its order for good. */
  lemma {:induction false} RecordedForGood(posts: seq<Post>, i: nat, key: string)
    requires i <= |posts| && key in PostAll(posts[..i]).index
    ensures key in PostAll(posts).index && PostAll(posts).index[key] == PostAll(posts[..i]).index[key]
    ensures var o := PostAll(posts).index[key];
            && o in PostAll(posts[..i]).orders && o in PostAll(posts).orders
            && PostAll(posts).orders[o] == PostAll(posts[..i]).orders[o]
    decreases |posts| - i
  {
    HistoryValid(posts[..i]);
    if i == |posts| {
      assert posts[..i] == posts;
    } else {
      PrefixStep(posts, i);
      RecordedForGood(posts, i + 1, key);
    }
  }

  /** Whoever is told an order id for a key is told the one id the key ends up with. */
  lemma OneOrderPerKey(posts: seq<Post>, i: nat)
    requires i < |posts| && Ok(AnswerAt(posts, i))
    ensures var t := PostAll(posts); var key := KeyOf(posts[i]);
            key in t.index && AnswerAt(posts, i).order == t.index[key]
  {
    hide WellFormed, Total, KeyOf, Valid;
    PrefixStep(posts, i);
    RecordedForGood(posts, i + 1, KeyOf(posts[i]));
  }

  /** A recorded key was accepted once, by the post that wrote its content. */
  lemma {:induction false} RecordedWasAccepted(posts: seq<Post>, key: string) returns (i: nat)
    requires key in PostAll(posts).index
    ensures i < |posts| && KeyOf(posts[i]) == key && AnswerAt(posts, i) == Accepted(PostAll(posts).index[key])
    ensures var o := PostAll(posts).index[key];
            o in PostAll(posts).orders && PostAll(posts).orders[o] == RowOf(posts[i])
    ensures forall j :: 0 <= j < |posts| && KeyOf(posts[j]) == key && AnswerAt(posts, j).Accepted? ==> j == i
  {
    hide WellFormed, Total, KeyOf, RowOf, Valid;
    var n := |posts| - 1;
    var front := posts[..n];
    if key in PostAll(front).index {
      i := RecordedWasAccepted(front, key);
      RecordedForGood(posts, n, key);
      assert front[..i] == posts[..i];
    } else {
      i := n;
    }
    forall j | 0 <= j < |posts| && KeyOf(posts[j]) == key && AnswerAt(posts, j).Accepted? ensures j == i {
      if j < n {
        assert front[..j] == posts[..j];
        PrefixStep(posts, j);
        assert front[..j + 1] == posts[..j + 1];
        RecordedForGood(front, j + 1, key);
      }
    }
  }

  // ---- the class -------------------------------------------------------------------

  class Ingestion {
    var orders: map<P.OrderId, Row>
    var index: map<string, P.OrderId>
    var outbox: seq<Event>

    function Contents(): Tables
      reads this
    {
      Tables(orders, index, outbox)
    }

    constructor ()
      ensures Contents() == EMPTY
    {
      orders, index, outbox := map[], map[], [];
    }

    /** INSERT INTO orders .. ON CONFLICT (idempotency_key) DO NOTHING RETURNING order_id; None when
        the key is taken. */
    method Insert(order: P.OrderId, row: Row) returns (inserted: Option<P.OrderId>)
      requires row.key !in index ==> order !in orders
      modifies this`orders, this`index
      ensures inserted == if row.key in old(index) then None else Some(order)
      ensures inserted == None ==> orders == old(orders) && index == old(index)
      ensures inserted.Some? ==> orders == old(orders)[order := row] && index == old(index)[row.key := order]
    {
      if row.key in index {
        return None;
      }
      orders, index := orders[order := row], index[row.key := order];
      return Some(order);
    }

    /** place_order. The refusals of the database (an integer out of range, a taken order id) raise
        inside the transaction, which then leaves nothing behind. */
    method PlaceOrder(p: Post) returns (answer: Answer)
      modifies this
      ensures answer == AnswerOf(old(Contents()), p) && Contents() == PostTx(old(Contents()), p)
      ensures PostEnds(old(Contents()), Contents(), p, answer)
      ensures old(Valid(Contents())) ==> Valid(Contents())
    {
      if Valid(Contents()) {
        PostKeepsValid(Contents(), p);
      }
      PostOutcome(Contents(), p);
      hide PostEnds, Valid;
      if !WellFormed(p.req) {
        return Malformed;
      }
      var row := RowOf(p);
      if row.total > P.INT4_MAX || (row.key !in index && p.order in orders) {
        return Broken;
      }
      var inserted := Insert(p.order, row);
      if inserted == None {
        return Duplicate(index[row.key]);
      }
      outbox := outbox + [Event(p.order, row)];
      return Accepted(p.order);
    }
  }

  // ---- the pipeline's view ------------------------------------------------------------

  /** The columns that the pipeline model keeps. */
  function Essence(t: Tables): map<P.OrderId, P.IngestRow> {
    map o | o in t.orders :: P.IngestRow(t.orders[o].key, t.orders[o].total)
  }

  /** A well-formed request is the Post step of the pipeline: same outcome, same rows. */
  lemma PostIsPipelinePost(t: Tables, p: Post, db: P.Db)
    requires Valid(t) && WellFormed(p.req) && db.ingest == Essence(t)
    ensures var outcome := P.PostOf(db, KeyOf(p), p.order, Total(p.req.items));
            && (outcome == P.PostOutcome.Accepted <==> AnswerOf(t, p).Accepted?)
            && (outcome == P.PostOutcome.Duplicate <==> AnswerOf(t, p).Duplicate?)
    ensures P.PostTx(db, KeyOf(p), p.order, Total(p.req.items)).ingest == Essence(PostTx(t, p))
  {
    hide KeyOf, Total, WellFormed, OutboxOk;
    assert P.KeyTaken(db, KeyOf(p)) <==> KeyOf(p) in t.index by {
      if KeyOf(p) in t.index {
        assert t.index[KeyOf(p)] in db.ingest;
      }
    }
  }
}
