/** Retried checkouts end to end: placeCart against ingestion, any number of times, with requests or
    answers lost on the way, and the money down to the charges of the pipeline. */
module Checkout {
  import opened Lifecycle
  import opened Ingestion
  import opened Storefront
  import P = Pipeline

  // ---- one checkout ---------------------------------------------------------------------

  /** The two ids that ingestion would draw for a post. */
  datatype Draw = Draw(order: P.OrderId, spare: string)

  /** What happens around a checkout's parallel POSTs, in time: one reaches ingestion, somebody else's
      post does, or the storefront's wait for one ends, with ingestion's answer or without. */
  datatype Event = Arrives(r: string) | Other(p: Post) | Completes(r: string, heard: bool)

  /** What the tracker link carries: a version, the headcount and the orders. */
  datatype CartToken = CartToken(v: int, hc: int, o: seq<Entry>)

  datatype Outcome = EmptyCart | Rejected | Checked(token: CartToken, key: string, total: int)

  /** How far a checkout is: what reached ingestion since it began, the answers on their way, and what
      placeCart has collected. */
  datatype Progress = Progress(posts: seq<Post>, answers: map<string, Answer>, placed: seq<Entry>, failed: bool)

  const START := Progress([], map[], [], false)

  function PostFor(cartKey: string, customer: string, cart: Cart, r: string, draw: Draw): Post {
    Post(Request(Some(Key(cartKey, r)), customer, r, Lines(cart, r)), draw.order, draw.spare)
  }

  /** The restaurants in the order in which the storefront's waits end. */
  function Completions(schedule: seq<Event>): seq<string> {
    if |schedule| == 0 then []
    else
      var front, last := Completions(schedule[..|schedule| - 1]), schedule[|schedule| - 1];
      if last.Completes? then front + [last.r] else front
  }

  function Next(history: seq<Post>, cartKey: string, customer: string, cart: Cart, draws: string -> Draw,
                now: Progress, event: Event): Progress
  {
    match event
    case Arrives(r) =>
      var p := PostFor(cartKey, customer, cart, r, draws(r));
      now.(posts := now.posts + [p], answers := now.answers[r := AnswerOf(PostAll(history + now.posts), p)])
    case Other(p) => now.(posts := now.posts + [p])
    case Completes(r, heard) =>
      if heard && r in now.answers && Ok(now.answers[r])
      then now.(placed := now.placed + [Entry(now.answers[r].order, r)])
      else now.(failed := true)
  }

  function Play(history: seq<Post>, cartKey: string, customer: string, cart: Cart, draws: string -> Draw,
                schedule: seq<Event>): Progress
  {
    if |schedule| == 0 then START
    else
      Next(history, cartKey, customer, cart, draws,
           Play(history, cartKey, customer, cart, draws, schedule[..|schedule| - 1]), schedule[|schedule| - 1])
  }

  function RestaurantsOf(placed: seq<Entry>): seq<string> {
    seq(|placed|, i requires 0 <= i < |placed| => placed[i].r)
  }

  /** Some post with this key was answered with this order id. */
  ghost predicate Told(history: seq<Post>, key: string, id: P.OrderId) {
    exists i :: 0 <= i < |history| && KeyOf(history[i]) == key
                && Ok(AnswerAt(history, i)) && AnswerAt(history, i).order == id
  }

  ghost predicate AllTold(history: seq<Post>, cartKey: string, placed: seq<Entry>) {
    forall e :: e in placed ==> Told(history, Key(cartKey, e.r), e.id)
  }

  /** Every restaurant of the cart was answered. */
  ghost predicate Complete(history: seq<Post>, cartKey: string, cart: Cart, placed: seq<Entry>) {
    && Distinct(RestaurantsOf(placed))
    && (forall r :: r in RestaurantsOf(placed) <==> r in Restaurants(cart))
    && AllTold(history, cartKey, placed)
  }

  lemma ToldForGood(history: seq<Post>, more: seq<Post>, key: string, id: P.OrderId)
    requires Told(history, key, id)
    ensures Told(history + more, key, id)
  {
    hide KeyOf, AnswerOf;
    var i :| 0 <= i < |history| && KeyOf(history[i]) == key
             && Ok(AnswerAt(history, i)) && AnswerAt(history, i).order == id;
    assert (history + more)[..i] == history[..i];
    assert (history + more)[i] == history[i] && AnswerAt(history + more, i) == AnswerAt(history, i);
  }

  lemma ToldNow(history: seq<Post>, p: Post)
    requires Ok(AnswerOf(PostAll(history), p))
    ensures Told(history + [p], KeyOf(p), AnswerOf(PostAll(history), p).order)
  {
    hide KeyOf, AnswerOf;
    var longer := history + [p];
    assert longer[..|history|] == history && AnswerAt(longer, |history|) == AnswerOf(PostAll(history), p);
    assert longer[|history|] == p;
  }

  lemma AllToldForGood(history: seq<Post>, more: seq<Post>, cartKey: string, placed: seq<Entry>)
    requires AllTold(history, cartKey, placed)
    ensures AllTold(history + more, cartKey, placed)
  {
    hide Told;
    forall e | e in placed ensures Told(history + more, Key(cartKey, e.r), e.id) {
      ToldForGood(history, more, Key(cartKey, e.r), e.id);
    }
  }

  ghost predicate AnswersTold(history: seq<Post>, cartKey: string, answers: map<string, Answer>) {
    forall r :: r in answers && Ok(answers[r]) ==> Told(history, Key(cartKey, r), answers[r].order)
  }

  lemma AnswersToldForGood(history: seq<Post>, more: seq<Post>, cartKey: string, answers: map<string, Answer>)
    requires AnswersTold(history, cartKey, answers)
    ensures AnswersTold(history + more, cartKey, answers)
  {
    hide Told;
    forall r | r in answers && Ok(answers[r]) ensures Told(history + more, Key(cartKey, r), answers[r].order) {
      ToldForGood(history, more, Key(cartKey, r), answers[r].order);
    }
  }

  /** The answers on their way and the entries collected are what ingestion told. */
  ghost predicate Honest(history: seq<Post>, cartKey: string, now: Progress) {
    && AllTold(history + now.posts, cartKey, now.placed)
    && AnswersTold(history + now.posts, cartKey, now.answers)
  }

  lemma KeyOfCartPost(cartKey: string, customer: string, cart: Cart, r: string, draw: Draw)
    ensures KeyOf(PostFor(cartKey, customer, cart, r, draw)) == Key(cartKey, r)
  {
    assert |Key(cartKey, r)| > 0;
  }

  lemma OneMorePost(history: seq<Post>, cartKey: string, now: Progress, p: Post)
    requires Honest(history, cartKey, now)
    ensures Honest(history, cartKey, now.(posts := now.posts + [p]))
  {
    hide AllTold, AnswersTold;
    assert history + (now.posts + [p]) == (history + now.posts) + [p];
    AllToldForGood(history + now.posts, [p], cartKey, now.placed);
    AnswersToldForGood(history + now.posts, [p], cartKey, now.answers);
  }

  lemma NextHonest(history: seq<Post>, cartKey: string, customer: string, cart: Cart, draws: string -> Draw,
                   now: Progress, event: Event)
    requires Honest(history, cartKey, now)
    ensures Honest(history, cartKey, Next(history, cartKey, customer, cart, draws, now, event))
  {
    hide Told, AnswerOf, PostAll, KeyOf, PostFor;
    match event
    case Arrives(r) =>
      var p := PostFor(cartKey, customer, cart, r, draws(r));
      OneMorePost(history, cartKey, now, p);
      KeyOfCartPost(cartKey, customer, cart, r, draws(r));
      assert history + (now.posts + [p]) == (history + now.posts) + [p];
      if Ok(AnswerOf(PostAll(history + now.posts), p)) {
        ToldNow(history + now.posts, p);
      }
    case Other(p) => OneMorePost(history, cartKey, now, p);
    case Completes(r, heard) =>
  }

  lemma {:induction false} PlayHonest(history: seq<Post>, cartKey: string, customer: string, cart: Cart,
                                      draws: string -> Draw, schedule: seq<Event>)
    ensures Honest(history, cartKey, Play(history, cartKey, customer, cart, draws, schedule))
    ensures var end := Play(history, cartKey, customer, cart, draws, schedule);
            !end.failed ==> RestaurantsOf(end.placed) == Completions(schedule)
  {
    hide AllTold, AnswersTold;
    if |schedule| > 0 {
      var front, last := schedule[..|schedule| - 1], schedule[|schedule| - 1];
      var now := Play(history, cartKey, customer, cart, draws, front);
      PlayHonest(history, cartKey, customer, cart, draws, front);
      NextHonest(history, cartKey, customer, cart, draws, now, last);
    } else {
      NothingCollected(history, cartKey);
    }
  }

  lemma NothingCollected(history: seq<Post>, cartKey: string)
    ensures Honest(history, cartKey, START) && RestaurantsOf([]) == []
  {
  }

  lemma PlayNext(history: seq<Post>, cartKey: string, customer: string, cart: Cart, draws: string -> Draw,
                 schedule: seq<Event>, i: nat)
    requires i < |schedule|
    ensures Play(history, cartKey, customer, cart, draws, schedule[..i + 1])
            == Next(history, cartKey, customer, cart, draws,
                    Play(history, cartKey, customer, cart, draws, schedule[..i]), schedule[i])
    ensures Completions(schedule[..i + 1])
            == if schedule[i].Completes? then Completions(schedule[..i]) + [schedule[i].r]
               else Completions(schedule[..i])
  {
    assert schedule[..i + 1][..i] == schedule[..i];
  }

  // ---- what a checkout sends, and when it succeeds -------------------------------------------

  /** The request for one restaurant: the cart's key and the restaurant joined by a colon, the customer, and
      that restaurant's items. */
  ghost predicate OwnRequest(req: Request, cartKey: string, customer: string, cart: Cart, r: string) {
    && req.key == Some(cartKey + ":" + r) && req.customer == customer && req.restaurant == r
    && AreItemsOf(req.items, cart, r)
  }

  /** The posts that reach ingestion, in time. */
  function Arrivals(schedule: seq<Event>): seq<Event> {
    if |schedule| == 0 then []
    else
      var front, last := Arrivals(schedule[..|schedule| - 1]), schedule[|schedule| - 1];
      if last.Completes? then front else front + [last]
  }

  ghost predicate SentFor(p: Post, event: Event, cartKey: string, customer: string, cart: Cart) {
    if event.Arrives? then OwnRequest(p.req, cartKey, customer, cart, event.r) else event.Other? && p == event.p
  }

  /** These posts are the arrivals of the schedule, one by one. */
  ghost predicate Sends(posts: seq<Post>, cartKey: string, customer: string, cart: Cart, schedule: seq<Event>) {
    && |posts| == |Arrivals(schedule)|
    && forall i :: 0 <= i < |posts| ==> SentFor(posts[i], Arrivals(schedule)[i], cartKey, customer, cart)
  }

  /** Exactly the posts that arrive change ingestion, and the checkout's own ones ask for its restaurants'
      items and nothing else. */
  lemma {:induction false} PlaySends(history: seq<Post>, cartKey: string, customer: string, cart: Cart,
                                     draws: string -> Draw, schedule: seq<Event>)
    ensures Sends(Play(history, cartKey, customer, cart, draws, schedule).posts, cartKey, customer, cart, schedule)
  {
    hide SentFor, PostFor, AnswerOf, PostAll;
    if |schedule| > 0 {
      var front, last := schedule[..|schedule| - 1], schedule[|schedule| - 1];
      PlaySends(history, cartKey, customer, cart, draws, front);
      if last.Arrives? {
        SendsOwn(cartKey, customer, cart, last.r, draws(last.r));
      } else if last.Other? {
        assert SentFor(last.p, last, cartKey, customer, cart) by { OthersSend(last.p, cartKey, customer, cart); }
      }
    }
  }

  lemma SendsOwn(cartKey: string, customer: string, cart: Cart, r: string, draw: Draw)
    ensures SentFor(PostFor(cartKey, customer, cart, r, draw), Arrives(r), cartKey, customer, cart)
  {
    hide AreItemsOf, Lines;
    LinesAreItems(cart, r);
  }

  lemma OthersSend(p: Post, cartKey: string, customer: string, cart: Cart)
    ensures SentFor(p, Other(p), cartKey, customer, cart)
  {
  }

  /** The last arrival of r's post before the i-th event. */
  predicate LastArrival(schedule: seq<Event>, j: nat, i: nat, r: string) {
    j < i <= |schedule| && schedule[j] == Arrives(r) && forall k :: j < k < i ==> schedule[k] != Arrives(r)
  }

  /** What ingestion answered the post that arrived at event j. */
  function ArrivalAnswer(history: seq<Post>, cartKey: string, customer: string, cart: Cart, draws: string -> Draw,
                         schedule: seq<Event>, j: nat): Answer
    requires j < |schedule| && schedule[j].Arrives?
  {
    AnswerOf(PostAll(history + Play(history, cartKey, customer, cart, draws, schedule[..j]).posts),
             PostFor(cartKey, customer, cart, schedule[j].r, draws(schedule[j].r)))
  }

  /** The wait that ends at event i was worth it: the answer was heard, and it was a 200 or 202. */
  predicate WaitEndsWell(history: seq<Post>, cartKey: string, customer: string, cart: Cart, draws: string -> Draw,
                         schedule: seq<Event>, i: nat)
    requires i < |schedule| && schedule[i].Completes?
  {
    schedule[i].heard && exists j :: 0 <= j < i && LastArrival(schedule, j, i, schedule[i].r)
                                     && Ok(ArrivalAnswer(history, cartKey, customer, cart, draws, schedule, j))
  }

  lemma {:induction false} AnswersAre(history: seq<Post>, cartKey: string, customer: string, cart: Cart,
                                      draws: string -> Draw, schedule: seq<Event>, i: nat, r: string)
    requires i <= |schedule|
    ensures var answers := Play(history, cartKey, customer, cart, draws, schedule[..i]).answers;
            && (r !in answers ==> forall j :: 0 <= j < i ==> schedule[j] != Arrives(r))
            && (r in answers ==>
                  exists j :: 0 <= j < i && LastArrival(schedule, j, i, r)
                              && answers[r] == ArrivalAnswer(history, cartKey, customer, cart, draws, schedule, j))
    decreases i
  {
    hide PostFor, AnswerOf, PostAll, Play, Next;
    if i == 0 {
      PlayNothing(history, cartKey, customer, cart, draws);
      assert schedule[..0] == [];
    } else {
      var now := Play(history, cartKey, customer, cart, draws, schedule[..i - 1]);
      AnswersAre(history, cartKey, customer, cart, draws, schedule, i - 1, r);
      PlayNext(history, cartKey, customer, cart, draws, schedule, i - 1);
      NextIs(history, cartKey, customer, cart, draws, now, schedule[i - 1]);
      if schedule[i - 1] == Arrives(r) {
        assert LastArrival(schedule, i - 1, i, r);
      } else if r in now.answers {
        var j :| 0 <= j < i - 1 && LastArrival(schedule, j, i - 1, r)
                 && now.answers[r] == ArrivalAnswer(history, cartKey, customer, cart, draws, schedule, j);
        assert LastArrival(schedule, j, i, r);
      }
    }
  }

  lemma OnlyOneLast(schedule: seq<Event>, j: nat, j': nat, i: nat, r: string)
    requires LastArrival(schedule, j, i, r) && LastArrival(schedule, j', i, r)
    ensures j == j'
  {
  }

  lemma WaitFails(history: seq<Post>, cartKey: string, customer: string, cart: Cart, draws: string -> Draw,
                  schedule: seq<Event>, i: nat)
    requires i < |schedule|
    ensures var now, next := Play(history, cartKey, customer, cart, draws, schedule[..i]),
                             Play(history, cartKey, customer, cart, draws, schedule[..i + 1]);
            next.failed <==> now.failed || (schedule[i].Completes?
                             && !WaitEndsWell(history, cartKey, customer, cart, draws, schedule, i))
  {
    hide PostFor, AnswerOf, PostAll, Play, Next, ArrivalAnswer;
    var now := Play(history, cartKey, customer, cart, draws, schedule[..i]);
    PlayNext(history, cartKey, customer, cart, draws, schedule, i);
    NextIs(history, cartKey, customer, cart, draws, now, schedule[i]);
    if schedule[i].Completes? {
      var r := schedule[i].r;
      AnswersAre(history, cartKey, customer, cart, draws, schedule, i, r);
      if r in now.answers {
        var j :| 0 <= j < i && LastArrival(schedule, j, i, r)
                 && now.answers[r] == ArrivalAnswer(history, cartKey, customer, cart, draws, schedule, j);
        forall j' | 0 <= j' < i && LastArrival(schedule, j', i, r) ensures j' == j {
          OnlyOneLast(schedule, j, j', i, r);
        }
      } else {
        forall j | 0 <= j < i ensures !LastArrival(schedule, j, i, r) {
          NotLast(schedule, j, i, r);
        }
      }
    }
  }

  lemma NotLast(schedule: seq<Event>, j: nat, i: nat, r: string)
    requires j < i <= |schedule| && schedule[j] != Arrives(r)
    ensures !LastArrival(schedule, j, i, r)
  {
  }

  lemma {:induction false} FailsUpTo(history: seq<Post>, cartKey: string, customer: string, cart: Cart,
                                     draws: string -> Draw, schedule: seq<Event>, n: nat)
    requires n <= |schedule|
    ensures Play(history, cartKey, customer, cart, draws, schedule[..n]).failed <==>
            exists i :: 0 <= i < n && schedule[i].Completes?
                        && !WaitEndsWell(history, cartKey, customer, cart, draws, schedule, i)
    decreases n
  {
    hide Play, WaitEndsWell;
    if n == 0 {
      PlayNothing(history, cartKey, customer, cart, draws);
      assert schedule[..0] == [];
    } else {
      FailsUpTo(history, cartKey, customer, cart, draws, schedule, n - 1);
      WaitFails(history, cartKey, customer, cart, draws, schedule, n - 1);
    }
  }

  /** A checkout fails exactly if one of its waits does not end well. */
  lemma CheckoutFailsIff(history: seq<Post>, cartKey: string, customer: string, cart: Cart, draws: string -> Draw,
                         schedule: seq<Event>)
    ensures Play(history, cartKey, customer, cart, draws, schedule).failed <==>
            exists i :: 0 <= i < |schedule| && schedule[i].Completes?
                        && !WaitEndsWell(history, cartKey, customer, cart, draws, schedule, i)
  {
    hide Play, WaitEndsWell;
    FailsUpTo(history, cartKey, customer, cart, draws, schedule, |schedule|);
    assert schedule[..|schedule|] == schedule;
  }

  lemma SubtotalsStep(cart: Cart, done: seq<string>, r: string)
    ensures Subtotals(cart, done + [r]) == Subtotals(cart, done) + Total(Lines(cart, r))
  {
    assert (done + [r])[..|done|] == done;
  }

  lemma EmptyCartOnly(cart: Cart)
    ensures Restaurants(cart) == [] <==> cart == []
  {
    RestaurantsCover(cart);
    assert |cart| > 0 ==> cart[0].restaurant in Restaurants(cart);
  }

  /** Every restaurant of the cart is posted, and waited for once. */
  ghost predicate Scheduled(cart: Cart, schedule: seq<Event>) {
    && Distinct(Completions(schedule))
    && (forall r :: r in Completions(schedule) <==> r in Restaurants(cart))
    && (forall i :: 0 <= i < |schedule| && !schedule[i].Other? ==> schedule[i].r in Restaurants(cart))
  }

  /** The grouped lines of the cart. */
  predicate Grouped(cart: Cart, groups: map<string, seq<Item>>) {
    forall r :: r in Restaurants(cart) ==> r in groups && groups[r] == Lines(cart, r)
  }

  /** The parallel POSTs: each reaches ingestion at some time, or never, and is heard of at some later
      time, or never; other clients post in between. */
  method PostAllOrders(ingestion: Ingestion, cart: Cart, groups: map<string, seq<Item>>, cartKey: string,
                       customer: string, schedule: seq<Event>, draws: string -> Draw, ghost history: seq<Post>)
    returns (placed: seq<Entry>, total: int, failed: bool)
    requires ingestion.Contents() == PostAll(history) && Grouped(cart, groups)
    requires forall i :: 0 <= i < |schedule| && !schedule[i].Other? ==> schedule[i].r in Restaurants(cart)
    modifies ingestion
    ensures var end := Play(history, cartKey, customer, cart, draws, schedule);
            ingestion.Contents() == PostAll(history + end.posts) && placed == end.placed && failed == end.failed
    ensures !failed ==> total == Subtotals(cart, Completions(schedule))
  {
    hide Play, Next, PostAll, PostTx, AnswerOf, Subtotals, Total, Completions, Key, Lines, Restaurants, PostFor;
    placed, total, failed := [], 0, false;
    var answers: map<string, Answer> := map[];
    ghost var posts: seq<Post> := [];
    PlayNothing(history, cartKey, customer, cart, draws);
    for i := 0 to |schedule|
      invariant Play(history, cartKey, customer, cart, draws, schedule[..i]) == Progress(posts, answers, placed, failed)
      invariant ingestion.Contents() == PostAll(history + posts)
      invariant !failed ==> total == Subtotals(cart, Completions(schedule[..i]))
    {
      PlayNext(history, cartKey, customer, cart, draws, schedule, i);
      NextIs(history, cartKey, customer, cart, draws, Progress(posts, answers, placed, failed), schedule[i]);
      match schedule[i] {
        case Arrives(r) =>
          var p := Post(Request(Some(Key(cartKey, r)), customer, r, groups[r]), draws(r).order, draws(r).spare);
          PostForIs(cartKey, customer, cart, r, draws(r));
          PostedOne(history + posts, p);
          assert history + (posts + [p]) == (history + posts) + [p];
          var answer := ingestion.PlaceOrder(p);
          answers := answers[r := answer];
          posts := posts + [p];
        case Other(p) =>
          PostedOne(history + posts, p);
          assert history + (posts + [p]) == (history + posts) + [p];
          var _ := ingestion.PlaceOrder(p);
          posts := posts + [p];
        case Completes(r, heard) =>
          SubtotalsStep(cart, Completions(schedule[..i]), r);
          if heard && r in answers && Ok(answers[r]) {
            placed, total := placed + [Entry(answers[r].order, r)], total + Total(groups[r]);
          } else {
            failed := true;
          }
      }
    }
    assert schedule[..|schedule|] == schedule;
  }

  lemma PlayNothing(history: seq<Post>, cartKey: string, customer: string, cart: Cart, draws: string -> Draw)
    ensures Play(history, cartKey, customer, cart, draws, []) == START && history + [] == history
    ensures Subtotals(cart, Completions([])) == 0
  {
  }

  lemma NextIs(history: seq<Post>, cartKey: string, customer: string, cart: Cart, draws: string -> Draw,
               now: Progress, event: Event)
    ensures Next(history, cartKey, customer, cart, draws, now, event) ==
            match event
            case Arrives(r) =>
              var p := PostFor(cartKey, customer, cart, r, draws(r));
              now.(posts := now.posts + [p], answers := now.answers[r := AnswerOf(PostAll(history + now.posts), p)])
            case Other(p) => now.(posts := now.posts + [p])
            case Completes(r, heard) =>
              if heard && r in now.answers && Ok(now.answers[r])
              then now.(placed := now.placed + [Entry(now.answers[r].order, r)])
              else now.(failed := true)
  {
  }

  lemma PostForIs(cartKey: string, customer: string, cart: Cart, r: string, draw: Draw)
    ensures PostFor(cartKey, customer, cart, r, draw)
            == Post(Request(Some(Key(cartKey, r)), customer, r, Lines(cart, r)), draw.order, draw.spare)
  {
  }

  lemma PostedOne(history: seq<Post>, p: Post)
    ensures PostAll(history + [p]) == PostTx(PostAll(history), p)
  {
    assert (history + [p])[..|history|] == history;
  }

  /** placeCart. The schedule says when each POST reaches ingestion, if it does, and when its wait ends,
      with other clients' posts in between. Exactly the posts that arrive change ingestion. The result
      is a token and a total exactly when every wait ended with a 200 or 202; a failed checkout may have
      placed any of its orders. */
  method PlaceCart(ingestion: Ingestion, le: (string, string) -> bool, cart: Cart, cartKey: string, customer: string,
                   headcount: int, schedule: seq<Event>, draws: string -> Draw, ghost history: seq<Post>)
    returns (outcome: Outcome)
    requires ingestion.Contents() == PostAll(history) && Scheduled(cart, schedule)
    modifies ingestion
    ensures outcome.EmptyCart? <==> cart == []
    ensures cart == [] ==> ingestion.Contents() == PostAll(history)
    ensures cart != [] ==>
              var end := Play(history, cartKey, customer, cart, draws, schedule);
              && ingestion.Contents() == PostAll(history + end.posts)
              && Sends(end.posts, cartKey, customer, cart, schedule)
              && (outcome.Checked? <==>
                    forall i :: 0 <= i < |schedule| && schedule[i].Completes? ==>
                      WaitEndsWell(history, cartKey, customer, cart, draws, schedule, i))
              && (outcome.Checked? ==> outcome.token == CartToken(1, headcount, SortedBy(le, end.placed))
                                       && outcome.key == cartKey && outcome.total == CartTotal(cart)
                                       && Complete(history + end.posts, cartKey, cart, end.placed))
  {
    hide CartTotal, Subtotals, Total, SortedBy, AllTold, AnswersTold, PostAll, Lines, Play, Completions;
    hide Sends, WaitEndsWell;
    var names, groups := GroupByRestaurant(cart);
    EmptyCartOnly(cart);
    if |names| == 0 {
      return EmptyCart;
    }
    PlayHonest(history, cartKey, customer, cart, draws, schedule);
    PlaySends(history, cartKey, customer, cart, draws, schedule);
    CheckoutFailsIff(history, cartKey, customer, cart, draws, schedule);
    var placed, total, failed := PostAllOrders(ingestion, cart, groups, cartKey, customer, schedule, draws, history);
    if failed {
      return Rejected;
    }
    RestaurantsCover(cart);
    FanOutConserves(cart, Completions(schedule));
    outcome := Checked(CartToken(1, headcount, SortedBy(le, placed)), cartKey, total);
  }

  // ---- any number of checkouts -----------------------------------------------------------

  predicate CartPost(p: Post, cartKey: string, r: string, cart: Cart) {
    && r in Restaurants(cart) && KeyOf(p) == Key(cartKey, r)
    && p.req.restaurant == r && p.req.items == Lines(cart, r)
  }

  ghost predicate FromCart(p: Post, carts: map<string, Cart>) {
    exists c, r :: c in carts && CartPost(p, c, r, carts[c])
  }

  ghost predicate UnderCartKey(p: Post, carts: map<string, Cart>) {
    exists c, r :: c in carts && r in Restaurants(carts[c]) && KeyOf(p) == Key(c, r)
  }

  /** All traffic: checkouts of carts whose keys stand for one fixed cart each, in any number and
      interleaving, and any other posts under keys that no cart uses. */
  ghost predicate Traffic(history: seq<Post>, carts: map<string, Cart>) {
    forall p :: p in history ==> FromCart(p, carts) || !UnderCartKey(p, carts)
  }

  lemma TrafficMore(history: seq<Post>, p: Post, carts: map<string, Cart>)
    requires Traffic(history, carts) && (FromCart(p, carts) || !UnderCartKey(p, carts))
    ensures Traffic(history + [p], carts)
  {
    hide FromCart, UnderCartKey;
  }

  /** A checkout adds only such traffic, if the others do. */
  lemma {:induction false} CheckoutIsTraffic(history: seq<Post>, carts: map<string, Cart>, c: string, customer: string,
                                             draws: string -> Draw, schedule: seq<Event>)
    requires Traffic(history, carts) && c in carts
    requires forall i :: 0 <= i < |schedule| && schedule[i].Arrives? ==> schedule[i].r in Restaurants(carts[c])
    requires forall i :: 0 <= i < |schedule| && schedule[i].Other? ==>
               FromCart(schedule[i].p, carts) || !UnderCartKey(schedule[i].p, carts)
    ensures Traffic(history + Play(history, c, customer, carts[c], draws, schedule).posts, carts)
  {
    hide KeyOf, Lines, Key, PostAll, AnswerOf, UnderCartKey, Restaurants, Traffic, PostFor;
    if |schedule| == 0 {
      assert history + [] == history;
    } else {
      var front, last := schedule[..|schedule| - 1], schedule[|schedule| - 1];
      CheckoutIsTraffic(history, carts, c, customer, draws, front);
      var before := Play(history, c, customer, carts[c], draws, front).posts;
      if last.Arrives? {
        var p := PostFor(c, customer, carts[c], last.r, draws(last.r));
        PostForIs(c, customer, carts[c], last.r, draws(last.r));
        KeyOfCartPost(c, customer, carts[c], last.r, draws(last.r));
        assert CartPost(p, c, last.r, carts[c]);
        TrafficMore(history + before, p, carts);
        assert history + (before + [p]) == (history + before) + [p];
      } else if last.Other? {
        TrafficMore(history + before, last.p, carts);
        assert history + (before + [last.p]) == (history + before) + [last.p];
      }
    }
  }

  /** Ingestion accepts an order with these lines. */
  predicate Orderable(items: seq<Item>) {
    WellFormed(Request(None, "", "", items)) && Total(items) <= P.INT4_MAX
  }

  /** No restaurant of one cart shares its key with an orderable restaurant of another. */
  ghost predicate ClashFree(carts: map<string, Cart>) {
    forall c, r, c', r' ::
      (c in carts && c' in carts && r in Restaurants(carts[c]) && r' in Restaurants(carts[c'])
       && Orderable(Lines(carts[c'], r')) && Key(c, r) == Key(c', r'))
      ==> c == c' && r == r'
  }

  /** Carts whose keys have no colon never clash. */
  lemma ColonFreeCartsDoNotClash(carts: map<string, Cart>)
    requires forall c :: c in carts ==> ':' !in c
    ensures ClashFree(carts)
  {
    hide Key, Orderable, Lines, Restaurants;
    forall c, r, c', r' | c in carts && c' in carts && Key(c, r) == Key(c', r') ensures c == c' && r == r' {
      KeyInjective(c, r, c', r');
    }
  }

  lemma AcceptedIsOrderable(t: Tables, p: Post)
    requires AnswerOf(t, p).Accepted?
    ensures Orderable(p.req.items)
  {
  }

  /** A recorded post under a cart's key is that cart's post. */
  lemma KeyNamesCart(t: Tables, p: Post, carts: map<string, Cart>, c: string, r: string)
    requires (FromCart(p, carts) || !UnderCartKey(p, carts)) && ClashFree(carts)
    requires c in carts && r in Restaurants(carts[c]) && KeyOf(p) == Key(c, r) && AnswerOf(t, p).Accepted?
    ensures CartPost(p, c, r, carts[c])
  {
    AcceptedIsOrderable(t, p);
    hide KeyOf, Lines, Key, Orderable, AnswerOf, Restaurants;
    var c', r' :| c' in carts && CartPost(p, c', r', carts[c']);
  }

  /** What the tables hold for one restaurant of a cart: one order with that restaurant's items, each with
      its own quantity and price, and their total, no other order under the key, and one order.placed row. */
  ghost predicate PlacedOnce(t: Tables, key: string, r: string, cart: Cart) {
    && key in t.index && t.index[key] in t.orders
    && var o := t.index[key];
    && t.orders[o].restaurant == r && t.orders[o].items == Lines(cart, r) && AreItemsOf(t.orders[o].items, cart, r)
    && t.orders[o].total == Total(Lines(cart, r)) <= P.INT4_MAX
    && Announcements(t.outbox, o) == 1
    && (forall other :: other in t.orders && t.orders[other].key == key ==> other == o)
  }

  /** Whatever was retried, lost or interleaved, a restaurant of the cart that was ever answered has
      exactly one order, and it is the one every answer named. */
  lemma CheckoutIdempotent(history: seq<Post>, carts: map<string, Cart>, c: string, r: string, id: P.OrderId)
    requires Traffic(history, carts) && ClashFree(carts) && c in carts && r in Restaurants(carts[c])
    requires Told(history, Key(c, r), id)
    ensures PlacedOnce(PostAll(history), Key(c, r), r, carts[c])
    ensures PostAll(history).index[Key(c, r)] == id
  {
    hide KeyOf, Total, Announcements, Lines, AnswerOf, Key, FromCart, UnderCartKey, ClashFree, Restaurants, AreItemsOf;
    var t, key := PostAll(history), Key(c, r);
    var i :| 0 <= i < |history| && KeyOf(history[i]) == key
             && Ok(AnswerAt(history, i)) && AnswerAt(history, i).order == id;
    OneOrderPerKey(history, i);
    HistoryValid(history);
    hide PostAll;
    var first := RecordedWasAccepted(history, key);
    assert history[first] in history;
    KeyNamesCart(PostAll(history[..first]), history[first], carts, c, r);
    LinesAreItems(carts[c], r);
  }

  /** Every answered restaurant of every cart has its order once, in every history of their traffic. */
  ghost predicate AlwaysIdempotent(carts: map<string, Cart>) {
    forall history, c, r, id ::
      (Traffic(history, carts) && c in carts && r in Restaurants(carts[c]) && Told(history, Key(c, r), id))
      ==> PlacedOnce(PostAll(history), Key(c, r), r, carts[c])
  }

  /** The only post of a history is accepted, and recorded for its restaurant. */
  lemma OnePost(p: Post)
    requires Orderable(p.req.items)
    ensures Told([p], KeyOf(p), p.order)
    ensures var t := PostAll([p]);
            && KeyOf(p) in t.index && t.index[KeyOf(p)] == p.order
            && p.order in t.orders && t.orders[p.order].restaurant == p.req.restaurant
  {
    hide KeyOf, Total, PostAll, Told;
    assert [] + [p] == [p];
    PostedOne([], p);
    NothingPosted();
    ToldNow([], p);
  }

  lemma NothingPosted()
    ensures PostAll([]) == EMPTY
  {
  }

  lemma OwnTraffic(p: Post, carts: map<string, Cart>, c: string, r: string)
    requires c in carts && CartPost(p, c, r, carts[c])
    ensures Traffic([p], carts)
  {
    hide CartPost;
  }

  lemma ClashMisleads(carts: map<string, Cart>, c: string, r: string, c': string, r': string)
    requires c in carts && c' in carts && r in Restaurants(carts[c]) && r' in Restaurants(carts[c'])
    requires Orderable(Lines(carts[c'], r')) && Key(c, r) == Key(c', r') && !(c == c' && r == r')
    ensures !AlwaysIdempotent(carts)
  {
    hide Key, Traffic, Restaurants, KeyOf, Total, Lines, Told, PostAll, Orderable, AreItemsOf;
    var p := PostFor(c', "", carts[c'], r', Draw("o", ""));
    KeyOfCartPost(c', "", carts[c'], r', Draw("o", ""));
    OwnTraffic(p, carts, c', r');
    SameSuffix(c, r, c', r');
    OnePost(p);
    assert !PlacedOnce(PostAll([p]), Key(c, r), r, carts[c]);
  }

  lemma SameSuffix(c: string, r: string, c': string, r': string)
    requires Key(c, r) == Key(c', r') && !(c == c' && r == r')
    ensures r != r'
  {
    assert c == Key(c, r)[..|c|] && c' == Key(c', r')[..|c'|];
    assert |Key(c, r)| == |c| + 1 + |r| && |Key(c', r')| == |c'| + 1 + |r'|;
  }

  /** Retried checkouts are idempotent for every traffic of a set of carts if and only if their keys do
      not clash; KeyClash says when two keys do. */
  lemma IdempotentIff(carts: map<string, Cart>)
    ensures AlwaysIdempotent(carts) <==> ClashFree(carts)
  {
    hide Traffic, Told, PlacedOnce, PostAll, Key, Orderable, Lines, Restaurants;
    if ClashFree(carts) {
      forall history, c, r, id | Traffic(history, carts) && c in carts && r in Restaurants(carts[c])
                                 && Told(history, Key(c, r), id)
        ensures PlacedOnce(PostAll(history), Key(c, r), r, carts[c])
      {
        CheckoutIdempotent(history, carts, c, r, id);
      }
    } else {
      var c, r, c', r' :| c in carts && c' in carts && r in Restaurants(carts[c]) && r' in Restaurants(carts[c'])
                          && Orderable(Lines(carts[c'], r')) && Key(c, r) == Key(c', r') && !(c == c' && r == r');
      ClashMisleads(carts, c, r, c', r');
    }
  }

  lemma CompletePermutes(history: seq<Post>, c: string, cart: Cart, a: seq<Entry>, b: seq<Entry>)
    requires Complete(history, c, cart, a) && multiset(a) == multiset(b)
    ensures Complete(history, c, cart, b)
  {
    hide Told, Restaurants;
    assert forall e :: e in a <==> e in multiset(a);
    assert forall e :: e in b <==> e in multiset(b);
    EntriesDistinct(a);
    forall i, j | 0 <= i < j < |b| ensures RestaurantsOf(b)[i] != RestaurantsOf(b)[j] {
      if b[i].r == b[j].r {
        SameRestaurantSameEntry(a, b[i], b[j]);
        TwiceInSeq(b, i, j);
        OnceInDistinct(a, b[i]);
      }
    }
    SameRestaurants(a, b);
  }

  lemma EntriesDistinct(a: seq<Entry>)
    requires Distinct(RestaurantsOf(a))
    ensures Distinct(a)
  {
    forall i, j | 0 <= i < j < |a| ensures a[i] != a[j] {
      assert RestaurantsOf(a)[i] != RestaurantsOf(a)[j];
    }
  }

  lemma SameRestaurantSameEntry(a: seq<Entry>, x: Entry, y: Entry)
    requires Distinct(RestaurantsOf(a)) && x in a && y in a && x.r == y.r
    ensures x == y
  {
    var i :| 0 <= i < |a| && a[i] == x;
    var j :| 0 <= j < |a| && a[j] == y;
    assert RestaurantsOf(a)[i] == RestaurantsOf(a)[j];
  }

  lemma SameRestaurants(a: seq<Entry>, b: seq<Entry>)
    requires forall e :: e in a <==> e in b
    ensures forall r :: r in RestaurantsOf(a) <==> r in RestaurantsOf(b)
  {
    RestaurantsSubset(a, b);
    RestaurantsSubset(b, a);
  }

  lemma RestaurantsSubset(a: seq<Entry>, b: seq<Entry>)
    requires forall e :: e in a ==> e in b
    ensures forall r :: r in RestaurantsOf(a) ==> r in RestaurantsOf(b)
  {
    forall r | r in RestaurantsOf(a) ensures r in RestaurantsOf(b) {
      var i :| 0 <= i < |a| && RestaurantsOf(a)[i] == r;
      assert a[i] in b;
      var j :| 0 <= j < |b| && b[j] == a[i];
      assert RestaurantsOf(b)[j] == r;
    }
  }

  /** Two complete checkouts of one cart got the same entries, in whatever order. */
  lemma SameEntries(history: seq<Post>, c: string, cart: Cart, a: seq<Entry>, b: seq<Entry>)
    requires Complete(history, c, cart, a) && Complete(history, c, cart, b)
    ensures multiset(a) == multiset(b)
  {
    EntriesDistinct(a);
    EntriesDistinct(b);
    EntriesAgree(history, c, cart, a, b);
    EntriesAgree(history, c, cart, b, a);
    forall e: Entry ensures multiset(a)[e] == multiset(b)[e] {
      OnceInDistinct(a, e);
      OnceInDistinct(b, e);
      assert e in a <==> e in multiset(a);
      assert e in b <==> e in multiset(b);
    }
  }

  lemma EntriesAgree(history: seq<Post>, c: string, cart: Cart, a: seq<Entry>, b: seq<Entry>)
    requires Complete(history, c, cart, a) && Complete(history, c, cart, b)
    ensures forall e :: e in a ==> e in b
  {
    hide Told, Restaurants, Distinct, Key;
    forall e | e in a ensures e in b {
      var i :| 0 <= i < |a| && a[i] == e;
      assert RestaurantsOf(a)[i] == e.r;
      assert e.r in Restaurants(cart) && e.r in RestaurantsOf(b);
      var j :| 0 <= j < |b| && RestaurantsOf(b)[j] == e.r;
      ToldOnce(history, Key(c, e.r), e.id, b[j].id);
    }
  }

  lemma ToldOnce(history: seq<Post>, key: string, id: P.OrderId, id': P.OrderId)
    requires Told(history, key, id) && Told(history, key, id')
    ensures id == id'
  {
    hide KeyOf, AnswerOf, PostTx;
    var i :| 0 <= i < |history| && KeyOf(history[i]) == key
             && Ok(AnswerAt(history, i)) && AnswerAt(history, i).order == id;
    var j :| 0 <= j < |history| && KeyOf(history[j]) == key
             && Ok(AnswerAt(history, j)) && AnswerAt(history, j).order == id';
    OneOrderPerKey(history, i);
    OneOrderPerKey(history, j);
  }

  /** No two restaurant ids of the cart compare as equal. */
  ghost predicate ToldApart(le: (string, string) -> bool, cart: Cart) {
    forall r, r' :: r in Restaurants(cart) && r' in Restaurants(cart) && le(r, r') && le(r', r) ==> r == r'
  }

  /** Every successful checkout of a cart returns the same token, over all retries and completion
      orders, exactly when localeCompare tells the cart's restaurant ids apart. */
  lemma SameTokenIff(history: seq<Post>, le: (string, string) -> bool, c: string, cart: Cart, a: seq<Entry>)
    requires Collation(le) && Complete(history, c, cart, a)
    ensures ToldApart(le, cart)
            <==> forall b :: Complete(history, c, cart, b) ==> SortedBy(le, b) == SortedBy(le, a)
  {
    EntriesDistinct(a);
    TokenDeterministicIff(le, a);
    TiesAreRestaurants(history, le, c, cart, a);
    hide Complete, ToldApart, Collation, NoTies, SortedBy, Distinct;
    if ToldApart(le, cart) {
      forall b | Complete(history, c, cart, b) ensures SortedBy(le, b) == SortedBy(le, a) {
        SameEntries(history, c, cart, a, b);
      }
    } else {
      var b: seq<Entry> :| multiset(b) == multiset(a) && SortedBy(le, b) != SortedBy(le, a);
      CompletePermutes(history, c, cart, a, b);
    }
  }

  lemma TiesAreRestaurants(history: seq<Post>, le: (string, string) -> bool, c: string, cart: Cart, a: seq<Entry>)
    requires Complete(history, c, cart, a)
    ensures NoTies(le, a) <==> ToldApart(le, cart)
  {
    hide Told, Restaurants, Distinct;
    forall e | e in a ensures e.r in RestaurantsOf(a) {
      var i :| 0 <= i < |a| && a[i] == e;
      assert RestaurantsOf(a)[i] == e.r;
    }
    if ToldApart(le, cart) {
      forall x, y | x in a && y in a && Tie(le, x, y) ensures x == y {
        SameRestaurantSameEntry(a, x, y);
      }
    } else {
      var r, r' :| r in Restaurants(cart) && r' in Restaurants(cart) && le(r, r') && le(r', r) && r != r';
      var i :| 0 <= i < |a| && RestaurantsOf(a)[i] == r;
      var j :| 0 <= j < |a| && RestaurantsOf(a)[j] == r';
      assert Tie(le, a[i], a[j]);
    }
  }
}
