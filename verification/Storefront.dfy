/** The storefront's checkout (customer-web/src/lib/dr.ts, placeCart): a cart fans out into one order
    per restaurant, posted in parallel under per-restaurant idempotency keys. */
module Storefront {
  import opened Lifecycle
  import opened Ingestion
  import P = Pipeline

  datatype CartItem = CartItem(restaurant: string, dish: string, name: Option<string>, qty: int, price: int)

  type Cart = seq<CartItem>

  // ---- grouping ----------------------------------------------------------------------

  function Line(it: CartItem): Item {
    Item(if it.name.Some? then it.name.value else it.dish, it.qty, it.price)
  }

  /** The lines of one restaurant, in cart order. */
  function Lines(cart: Cart, r: string): seq<Item> {
    if |cart| == 0 then []
    else
      var front, last := Lines(cart[..|cart| - 1], r), cart[|cart| - 1];
      if last.restaurant == r then front + [Line(last)] else front
  }

  /** The restaurants of a cart, in order of first appearance. */
  function Restaurants(cart: Cart): seq<string> {
    if |cart| == 0 then []
    else
      var front, last := Restaurants(cart[..|cart| - 1]), cart[|cart| - 1];
      if last.restaurant in front then front else front + [last.restaurant]
  }

  ghost predicate Distinct<T(!new)>(s: seq<T>) {
    forall i, j :: 0 <= i < j < |s| ==> s[i] != s[j]
  }

  ghost predicate Serves(cart: Cart, done: seq<string>) {
    forall it :: it in cart ==> it.restaurant in done
  }

  lemma {:induction false} RestaurantsCover(cart: Cart)
    ensures Distinct(Restaurants(cart)) && Serves(cart, Restaurants(cart))
    ensures forall r :: r in Restaurants(cart) ==> exists it :: it in cart && it.restaurant == r
  {
    if |cart| > 0 {
      var front, last := cart[..|cart| - 1], cart[|cart| - 1];
      RestaurantsCover(front);
      assert cart == front + [last];
      forall r | r in Restaurants(cart) ensures exists it :: it in cart && it.restaurant == r {
        if r in Restaurants(front) {
          var it :| it in front && it.restaurant == r;
          assert it in cart;
        } else {
          assert last in cart;
        }
      }
    }
  }

  lemma {:induction false} LinesPresent(cart: Cart, it: CartItem)
    requires it in cart
    ensures |Lines(cart, it.restaurant)| > 0
  {
    var front, last := cart[..|cart| - 1], cart[|cart| - 1];
    if last.restaurant != it.restaurant {
      assert cart == front + [last];
      LinesPresent(front, it);
    }
  }

  /** The line orders what the cart item says: its own quantity and price, under its name, or its dish id
      if it has none. */
  predicate Orders(line: Item, it: CartItem) {
    && line.qty == it.qty && line.price == it.price
    && match it.name case Some(name) => line.name == name case None => line.name == it.dish
  }

  predicate Increasing(at: seq<nat>) {
    forall i, j :: 0 <= i < j < |at| ==> at[i] < at[j]
  }

  /** The positions in the cart of this restaurant's items, in cart order. */
  ghost predicate Picks(cart: Cart, r: string, at: seq<nat>) {
    Increasing(at) && forall i: nat :: i in at <==> i < |cart| && cart[i].restaurant == r
  }

  ghost predicate LinesAt(lines: seq<Item>, cart: Cart, r: string, at: seq<nat>) {
    && Picks(cart, r, at) && |lines| == |at|
    && forall j :: 0 <= j < |lines| ==> at[j] < |cart| && Orders(lines[j], cart[at[j]])
  }

  /** The lines are this restaurant's items, each once, in cart order. */
  ghost predicate AreItemsOf(lines: seq<Item>, cart: Cart, r: string) {
    exists at: seq<nat> :: LinesAt(lines, cart, r, at)
  }

  lemma LineAdded(lines: seq<Item>, cart: Cart, r: string, at: seq<nat>, it: CartItem)
    requires LinesAt(lines, cart, r, at)
    ensures it.restaurant == r ==> LinesAt(lines + [Line(it)], cart + [it], r, at + [|cart|])
    ensures it.restaurant != r ==> LinesAt(lines, cart + [it], r, at)
  {
    hide Orders;
    assert Orders(Line(it), it) by { LineOrders(it); }
    assert forall i :: i in at + [|cart|] <==> i in at || i == |cart|;
    if it.restaurant == r {
      assert Picks(cart + [it], r, at + [|cart|]);
    } else {
      assert Picks(cart + [it], r, at);
    }
  }

  lemma LineOrders(it: CartItem)
    ensures Orders(Line(it), it)
  {
  }

  lemma {:induction false} LinesAreItems(cart: Cart, r: string)
    ensures AreItemsOf(Lines(cart, r), cart, r)
  {
    hide LinesAt, Line;
    if |cart| == 0 {
      NoLines(r);
    } else {
      var front, last := cart[..|cart| - 1], cart[|cart| - 1];
      LinesAreItems(front, r);
      var at: seq<nat> :| LinesAt(Lines(front, r), front, r, at);
      LineAdded(Lines(front, r), front, r, at, last);
      assert cart == front + [last];
    }
  }

  lemma NoLines(r: string)
    ensures LinesAt([], [], r, [])
  {
  }

  predicate FirstNamed(cart: Cart, i: nat, r: string) {
    i < |cart| && cart[i].restaurant == r && forall k :: 0 <= k < i ==> cart[k].restaurant != r
  }

  predicate NamedAt(names: seq<string>, cart: Cart, at: seq<nat>) {
    && |at| == |names| && Increasing(at)
    && forall j :: 0 <= j < |names| ==> FirstNamed(cart, at[j], names[j])
  }

  /** The restaurants are in the order in which the cart first names them. */
  ghost predicate InFirstOrder(names: seq<string>, cart: Cart) {
    exists at: seq<nat> :: NamedAt(names, cart, at)
  }

  lemma NameAdded(names: seq<string>, cart: Cart, at: seq<nat>, it: CartItem)
    requires NamedAt(names, cart, at)
    ensures NamedAt(names, cart + [it], at)
    ensures (forall k :: 0 <= k < |cart| ==> cart[k].restaurant != it.restaurant) ==>
              NamedAt(names + [it.restaurant], cart + [it], at + [|cart|])
  {
    assert forall j :: 0 <= j < |names| ==> FirstNamed(cart + [it], at[j], names[j]);
  }

  lemma RestaurantsNext(cart: Cart, it: CartItem)
    ensures Restaurants(cart + [it])
            == if it.restaurant in Restaurants(cart) then Restaurants(cart) else Restaurants(cart) + [it.restaurant]
    ensures it.restaurant !in Restaurants(cart) ==> forall k :: 0 <= k < |cart| ==> cart[k].restaurant != it.restaurant
  {
    assert (cart + [it])[..|cart|] == cart;
    RestaurantsCover(cart);
    assert forall k :: 0 <= k < |cart| ==> cart[k] in cart;
  }

  lemma {:induction false} NamesInFirstOrder(cart: Cart)
    ensures InFirstOrder(Restaurants(cart), cart)
  {
    hide NamedAt, Restaurants;
    if |cart| == 0 {
      NoNames();
    } else {
      var front, last := cart[..|cart| - 1], cart[|cart| - 1];
      assert cart == front + [last];
      NamesInFirstOrder(front);
      RestaurantsNext(front, last);
      var at: seq<nat> :| NamedAt(Restaurants(front), front, at);
      NameAdded(Restaurants(front), front, at, last);
    }
  }

  lemma NoNames()
    ensures Restaurants([]) == [] && NamedAt([], [], [])
  {
  }

  /** The Map that the grouping loop of placeCart fills: a restaurant is in it exactly if the cart has an
      item of it, its lines are these items in cart order, and the restaurants are in the order in which
      the cart first names them. */
  method GroupByRestaurant(cart: Cart) returns (names: seq<string>, groups: map<string, seq<Item>>)
    ensures names == Restaurants(cart) && InFirstOrder(names, cart)
    ensures forall r :: r in groups <==> r in names
    ensures forall it :: it in cart ==> it.restaurant in names
    ensures forall r :: r in groups ==> groups[r] == Lines(cart, r) && |groups[r]| > 0 && AreItemsOf(groups[r], cart, r)
  {
    names, groups := [], map[];
    for i := 0 to |cart|
      invariant names == Restaurants(cart[..i])
      invariant forall r :: r in groups <==> r in names
      invariant forall r: string :: Lines(cart[..i], r) == if r in groups then groups[r] else []
    {
      var it := cart[i];
      assert cart[..i + 1][..i] == cart[..i];
      var list := if it.restaurant in groups then groups[it.restaurant] else [];
      if it.restaurant !in groups {
        names := names + [it.restaurant];
      }
      groups := groups[it.restaurant := list + [Line(it)]];
    }
    assert cart[..|cart|] == cart;
    RestaurantsCover(cart);
    NamesInFirstOrder(cart);
    forall r | r in groups ensures |groups[r]| > 0 && AreItemsOf(groups[r], cart, r) {
      var it :| it in cart && it.restaurant == r;
      LinesPresent(cart, it);
      LinesAreItems(cart, r);
    }
  }

  // ---- money -------------------------------------------------------------------------

  function CartTotal(cart: Cart): int {
    if |cart| == 0 then 0
    else CartTotal(cart[..|cart| - 1]) + cart[|cart| - 1].qty * cart[|cart| - 1].price
  }

  /** The sum of the orders' totals, in the order in which their POSTs completed. */
  function Subtotals(cart: Cart, done: seq<string>): int {
    if |done| == 0 then 0
    else Subtotals(cart, done[..|done| - 1]) + Total(Lines(cart, done[|done| - 1]))
  }

  lemma TotalAppend(items: seq<Item>, it: Item)
    ensures Total(items + [it]) == Total(items) + it.qty * it.price
  {
  }

  /** One more cart line goes into exactly one order. */
  lemma {:induction false} SubtotalsAppend(cart: Cart, it: CartItem, done: seq<string>)
    requires Distinct(done)
    ensures Subtotals(cart + [it], done)
            == Subtotals(cart, done) + if it.restaurant in done then it.qty * it.price else 0
    decreases |done|
  {
    if |done| > 0 {
      var front, r := done[..|done| - 1], done[|done| - 1];
      SubtotalsAppend(cart, it, front);
      assert (cart + [it])[..|cart|] == cart;
      TotalAppend(Lines(cart, r), Line(it));
      assert done == front + [r];
    }
  }

  /** No cent is lost or counted twice by the fan-out, in whatever order the POSTs complete. */
  lemma {:induction false} FanOutConserves(cart: Cart, done: seq<string>)
    requires Distinct(done) && Serves(cart, done)
    ensures Subtotals(cart, done) == CartTotal(cart)
  {
    if |cart| == 0 {
      NothingToCharge(done);
    } else {
      var front, last := cart[..|cart| - 1], cart[|cart| - 1];
      assert cart == front + [last];
      FanOutConserves(front, done);
      SubtotalsAppend(front, last, done);
    }
  }

  lemma {:induction false} NothingToCharge(done: seq<string>)
    ensures Subtotals([], done) == 0
    decreases |done|
  {
    if |done| > 0 {
      NothingToCharge(done[..|done| - 1]);
    }
  }

  // ---- keys --------------------------------------------------------------------------

  function Key(cartKey: string, r: string): string {
    cartKey + ":" + r
  }

  /** One key continues into the restaurant id of the other. */
  ghost predicate Overlaps(c: string, r: string, c': string, r': string) {
    exists x: string :: c == c' + ":" + x && r' == x + ":" + r
  }

  /** Two keys are the same exactly when they name the same cart and restaurant or one cart key
      runs into the other's restaurant id across a colon. */
  lemma KeyClash(c: string, r: string, c': string, r': string)
    ensures Key(c, r) == Key(c', r') <==>
            (c == c' && r == r') || Overlaps(c, r, c', r') || Overlaps(c', r', c, r)
  {
    if Key(c, r) == Key(c', r') {
      if |c| == |c'| {
        assert c == Key(c, r)[..|c|] && r == Key(c, r)[|c| + 1..];
        assert c' == Key(c', r')[..|c'|] && r' == Key(c', r')[|c'| + 1..];
      } else if |c| > |c'| {
        LongerCartKey(c, r, c', r');
      } else {
        LongerCartKey(c', r', c, r);
      }
    }
    if Overlaps(c, r, c', r') {
      var x: string :| c == c' + ":" + x && r' == x + ":" + r;
      assert Key(c, r) == c' + ":" + (x + ":" + r);
    }
    if Overlaps(c', r', c, r) {
      var x: string :| c' == c + ":" + x && r == x + ":" + r';
      assert Key(c', r') == c + ":" + (x + ":" + r');
    }
  }

  lemma LongerCartKey(c: string, r: string, c': string, r': string)
    requires Key(c, r) == Key(c', r') && |c| > |c'|
    ensures Overlaps(c, r, c', r')
  {
    var k := Key(c, r);
    var x := c[|c'| + 1..];
    assert k[..|c|] == c && k[|c|] == ':' && k[|c| + 1..] == r;
    assert k[..|c'|] == c' && k[|c'|] == ':' && k[|c'| + 1..] == r';
    assert c == c[..|c'|] + [c[|c'|]] + x;
    assert c[..|c'|] == k[..|c'|] && c[|c'|] == k[|c'|];
    assert c == c' + ":" + x;
    assert r' == x + ":" + r;
  }

  /** Cart keys without a colon never share a per-restaurant key. */
  lemma KeyInjective(c: string, r: string, c': string, r': string)
    requires ':' !in c && ':' !in c' && Key(c, r) == Key(c', r')
    ensures c == c' && r == r'
  {
    assert Key(c, r) == c + [':'] + r && Key(c', r') == c' + [':'] + r';
    SplitAtFirst(c, r, c', r', ':');
  }

  // ---- the token ---------------------------------------------------------------------

  datatype Entry = Entry(id: P.OrderId, r: string)

  /** What is used of localeCompare: a <= 0 result is total and transitive; distinct ids may tie. */
  ghost predicate Collation(le: (string, string) -> bool) {
    && (forall a, b :: le(a, b) || le(b, a))
    && (forall a, b, c :: le(a, b) && le(b, c) ==> le(a, c))
  }

  /** A stable insertion: behind everything that does not sort after x. */
  function Insert(le: (string, string) -> bool, x: Entry, s: seq<Entry>): seq<Entry> {
    if |s| == 0 || le(s[|s| - 1].r, x.r) then s + [x]
    else Insert(le, x, s[..|s| - 1]) + [s[|s| - 1]]
  }

  /** placed.sort by restaurant: JavaScript's sort is stable (section 23.1.3.30 of ECMA-262). */
  function SortedBy(le: (string, string) -> bool, placed: seq<Entry>): seq<Entry> {
    if |placed| == 0 then []
    else Insert(le, placed[|placed| - 1], SortedBy(le, placed[..|placed| - 1]))
  }

  ghost predicate InOrder(le: (string, string) -> bool, s: seq<Entry>) {
    forall i, j :: 0 <= i < j < |s| ==> le(s[i].r, s[j].r)
  }

  lemma {:induction false} InsertSorts(le: (string, string) -> bool, x: Entry, s: seq<Entry>)
    requires Collation(le) && InOrder(le, s)
    ensures InOrder(le, Insert(le, x, s))
    ensures multiset(Insert(le, x, s)) == multiset(s) + multiset{x}
    decreases |s|
  {
    if |s| > 0 {
      var front, last := s[..|s| - 1], s[|s| - 1];
      assert s == front + [last];
      if !le(last.r, x.r) {
        InsertSorts(le, x, front);
        var t := Insert(le, x, front);
        forall i | 0 <= i < |t| ensures le(t[i].r, last.r) {
          assert t[i] in multiset(t);
          assert t[i] == x || t[i] in front;
        }
      }
    }
  }

  lemma {:induction false} SortSorts(le: (string, string) -> bool, placed: seq<Entry>)
    requires Collation(le)
    ensures InOrder(le, SortedBy(le, placed)) && multiset(SortedBy(le, placed)) == multiset(placed)
  {
    if |placed| > 0 {
      var front, last := placed[..|placed| - 1], placed[|placed| - 1];
      assert placed == front + [last];
      SortSorts(le, front);
      InsertSorts(le, last, SortedBy(le, front));
    }
  }

  ghost predicate Tie(le: (string, string) -> bool, x: Entry, y: Entry) {
    le(x.r, y.r) && le(y.r, x.r)
  }

  ghost predicate NoTies(le: (string, string) -> bool, s: seq<Entry>) {
    forall x, y :: x in s && y in s && Tie(le, x, y) ==> x == y
  }

  lemma WithoutLast(le: (string, string) -> bool, s: seq<Entry>)
    requires |s| > 0
    ensures multiset(s) == multiset(s[..|s| - 1]) + multiset{s[|s| - 1]}
    ensures InOrder(le, s) ==> InOrder(le, s[..|s| - 1])
    ensures NoTies(le, s) ==> NoTies(le, s[..|s| - 1])
  {
    assert s == s[..|s| - 1] + [s[|s| - 1]];
  }

  /** Without ties the sorted arrangement of a collection is unique. */
  lemma {:induction false} SortedOnlyOneWay(le: (string, string) -> bool, a: seq<Entry>, b: seq<Entry>)
    requires InOrder(le, a) && InOrder(le, b) && multiset(a) == multiset(b)
    requires Collation(le) && NoTies(le, a)
    ensures a == b
    decreases |a|
  {
    hide InOrder, Collation;
    assert |multiset(a)| == |a| && |multiset(b)| == |b|;
    if |a| > 0 {
      var x, y := a[|a| - 1], b[|b| - 1];
      WithoutLast(le, a);
      WithoutLast(le, b);
      assert x in multiset(b) && y in multiset(a);
      LastIsGreatest(le, a, y);
      LastIsGreatest(le, b, x);
      assert Tie(le, x, y);
      SameWithoutLast(multiset(a[..|a| - 1]), multiset(b[..|b| - 1]), x);
      SortedOnlyOneWay(le, a[..|a| - 1], b[..|b| - 1]);
      assert a == a[..|a| - 1] + [x] && b == b[..|b| - 1] + [y];
    }
  }

  lemma SameWithoutLast(a: multiset<Entry>, b: multiset<Entry>, x: Entry)
    requires a + multiset{x} == b + multiset{x}
    ensures a == b
  {
    assert a == (a + multiset{x}) - multiset{x} && b == (b + multiset{x}) - multiset{x};
  }

  lemma LastIsGreatest(le: (string, string) -> bool, s: seq<Entry>, x: Entry)
    requires Collation(le) && InOrder(le, s) && x in s
    ensures le(x.r, s[|s| - 1].r)
  {
    var i :| 0 <= i < |s| && s[i] == x;
  }

  ghost predicate Before(s: seq<Entry>, x: Entry, y: Entry) {
    exists i, j :: 0 <= i < j < |s| && s[i] == x && s[j] == y
  }

  lemma {:induction false} InsertKeepsOrder(le: (string, string) -> bool, z: Entry, s: seq<Entry>, x: Entry, y: Entry)
    requires Before(s, x, y) || (x in s && y == z && le(x.r, y.r))
    ensures Before(Insert(le, z, s), x, y)
    decreases |s|
  {
    var front, last := s[..|s| - 1], s[|s| - 1];
    if le(last.r, z.r) {
      BeforeAppend(s, z, x, y);
    } else {
      assert s == front + [last];
      if Before(s, x, y) {
        var i, j :| 0 <= i < j < |s| && s[i] == x && s[j] == y;
        if j == |s| - 1 {
          assert front[i] == x;
          InsertHolds(le, z, front, x);
        } else {
          assert front[i] == x && front[j] == y;
          InsertKeepsOrder(le, z, front, x, y);
        }
      } else {
        InsertKeepsOrder(le, z, front, x, y);
      }
      BeforeAppend(Insert(le, z, front), last, x, y);
    }
  }

  lemma BeforeAppend(s: seq<Entry>, z: Entry, x: Entry, y: Entry)
    requires Before(s, x, y) || (x in s && y == z)
    ensures Before(s + [z], x, y)
  {
    if Before(s, x, y) {
      var i, j :| 0 <= i < j < |s| && s[i] == x && s[j] == y;
      assert (s + [z])[i] == x && (s + [z])[j] == y;
    } else {
      var i :| 0 <= i < |s| && s[i] == x;
      assert (s + [z])[i] == x && (s + [z])[|s|] == y;
    }
  }

  lemma {:induction false} InsertHolds(le: (string, string) -> bool, z: Entry, s: seq<Entry>, x: Entry)
    requires x in s || x == z
    ensures x in Insert(le, z, s)
    decreases |s|
  {
    if |s| > 0 && !le(s[|s| - 1].r, z.r) {
      assert s == s[..|s| - 1] + [s[|s| - 1]];
      if x != s[|s| - 1] {
        InsertHolds(le, z, s[..|s| - 1], x);
      }
    }
  }

  lemma {:induction false} SortHolds(le: (string, string) -> bool, placed: seq<Entry>, x: Entry)
    requires x in placed
    ensures x in SortedBy(le, placed)
  {
    var front, last := placed[..|placed| - 1], placed[|placed| - 1];
    assert placed == front + [last];
    if x != last {
      SortHolds(le, front, x);
    }
    InsertHolds(le, last, SortedBy(le, front), x);
  }

  /** Stability: entries that tie keep the order in which their POSTs completed. */
  lemma {:induction false} SortStable(le: (string, string) -> bool, placed: seq<Entry>, x: Entry, y: Entry)
    requires Before(placed, x, y) && le(x.r, y.r)
    ensures Before(SortedBy(le, placed), x, y)
    decreases |placed|
  {
    var front, last := placed[..|placed| - 1], placed[|placed| - 1];
    var i, j :| 0 <= i < j < |placed| && placed[i] == x && placed[j] == y;
    if j < |front| {
      assert front[i] == x && front[j] == y;
      SortStable(le, front, x, y);
    } else {
      assert front[i] == x;
      SortHolds(le, front, x);
    }
    InsertKeepsOrder(le, last, SortedBy(le, front), x, y);
  }

  /** Every completion order of the parallel POSTs gives this token. */
  ghost predicate Deterministic(le: (string, string) -> bool, placed: seq<Entry>) {
    forall other: seq<Entry> :: multiset(other) == multiset(placed) ==> SortedBy(le, other) == SortedBy(le, placed)
  }

  lemma SameTokenWithoutTies(le: (string, string) -> bool, a: seq<Entry>, b: seq<Entry>)
    requires Collation(le) && multiset(a) == multiset(b) && NoTies(le, a)
    ensures SortedBy(le, a) == SortedBy(le, b)
  {
    SortSorts(le, a);
    SortSorts(le, b);
    forall x | x in SortedBy(le, a) ensures x in a {
      assert x in multiset(a);
    }
    SortedOnlyOneWay(le, SortedBy(le, a), SortedBy(le, b));
  }

  /** If two entries tie, swapping the completion of their POSTs changes the token. */
  lemma TwoTokensWithTie(le: (string, string) -> bool, placed: seq<Entry>, i: nat, j: nat)
    requires Collation(le) && Distinct(placed)
    requires i < j < |placed| && Tie(le, placed[i], placed[j])
    ensures !Deterministic(le, placed)
  {
    hide Collation, Distinct, InOrder, SortedBy, Before;
    var swapped := placed[i := placed[j]][j := placed[i]];
    SwapReverses(placed, i, j);
    SortSorts(le, placed);
    SortStable(le, placed, placed[i], placed[j]);
    SortStable(le, swapped, placed[j], placed[i]);
    OnlyOneBefore(placed, SortedBy(le, placed), placed[i], placed[j]);
  }

  lemma SwapReverses(placed: seq<Entry>, i: nat, j: nat)
    requires i < j < |placed|
    ensures var swapped := placed[i := placed[j]][j := placed[i]];
            && multiset(swapped) == multiset(placed)
            && Before(placed, placed[i], placed[j]) && Before(swapped, placed[j], placed[i])
  {
    var swapped := placed[i := placed[j]][j := placed[i]];
    assert swapped[i] == placed[j] && swapped[j] == placed[i];
  }

  lemma OnlyOneBefore(placed: seq<Entry>, token: seq<Entry>, x: Entry, y: Entry)
    requires Distinct(placed) && multiset(token) == multiset(placed)
    ensures Before(token, x, y) ==> !Before(token, y, x)
  {
    OnceInDistinct(placed, x);
    OnceInDistinct(placed, y);
    forall i, j, k, l | 0 <= i < j < |token| && 0 <= k < l < |token|
      ensures !(token[i] == x && token[j] == y && token[k] == y && token[l] == x)
    {
      if token[i] == x && token[j] == y && token[k] == y && token[l] == x {
        if i != l { TwiceInSeq(token, i, l); } else { TwiceInSeq(token, j, k); }
      }
    }
  }

  lemma {:induction false} OnceInDistinct(s: seq<Entry>, x: Entry)
    requires Distinct(s)
    ensures multiset(s)[x] <= 1
  {
    if |s| > 0 {
      var front, last := s[..|s| - 1], s[|s| - 1];
      assert s == front + [last];
      OnceInDistinct(front, x);
      if x == last && x in front {
        assert false;
      }
    }
  }

  lemma TwiceInSeq(s: seq<Entry>, i: nat, j: nat)
    requires i < |s| && j < |s| && i != j && s[i] == s[j]
    ensures multiset(s)[s[i]] >= 2
  {
    var a, b := if i < j then i else j, if i < j then j else i;
    assert s == s[..a] + [s[a]] + s[a + 1..b] + [s[b]] + s[b + 1..];
  }

  /** The token is the same for every completion order exactly when no two of the cart's
      restaurant ids compare as equal. */
  lemma TokenDeterministicIff(le: (string, string) -> bool, placed: seq<Entry>)
    requires Collation(le) && Distinct(placed)
    ensures Deterministic(le, placed) <==> NoTies(le, placed)
  {
    if NoTies(le, placed) {
      forall other: seq<Entry> | multiset(other) == multiset(placed)
        ensures SortedBy(le, other) == SortedBy(le, placed)
      {
        SameTokenWithoutTies(le, placed, other);
      }
    } else {
      var x, y :| x in placed && y in placed && Tie(le, x, y) && x != y;
      var i :| 0 <= i < |placed| && placed[i] == x;
      var j :| 0 <= j < |placed| && placed[j] == y;
      TwoTokensWithTie(le, placed, if i < j then i else j, if i < j then j else i);
    }
  }
}
