/** The order lifecycle (states.py) and the operation id of one lifecycle step (models.py). */
module Lifecycle {

  datatype Option<+T> = None | Some(value: T)

  datatype State =
    | Placed | Confirmed | Preparing | Ready | OutForDelivery | Delivered
    | Cancelled | Failed

  datatype Downstream = Payment | Restaurant | Courier

  const HAPPY_PATH: seq<State> := [Placed, Confirmed, Preparing, Ready, OutForDelivery, Delivered]

  function Allowed(s: State): set<State> {
    match s
    case Placed => {Confirmed, Cancelled, Failed}
    case Confirmed => {Preparing, Cancelled, Failed}
    case Preparing => {Ready, Cancelled, Failed}
    case Ready => {OutForDelivery, Failed}
    case OutForDelivery => {Delivered, Failed}
    case Delivered => {}
    case Cancelled => {}
    case Failed => {}
  }

  predicate CanTransition(from: State, to: State) {
    to in Allowed(from)
  }

  predicate IsTerminal(s: State) {
    s == Delivered || s == Cancelled || s == Failed
  }

  function NextHappy(s: State): Option<State> {
    match s
    case Placed => Some(Confirmed)
    case Confirmed => Some(Preparing)
    case Preparing => Some(Ready)
    case Ready => Some(OutForDelivery)
    case OutForDelivery => Some(Delivered)
    case _ => None
  }

  /** The downstream that the step entering `target` depends on. */
  function StageDownstream(target: State): Option<Downstream> {
    match target
    case Confirmed => Some(Payment)
    case Preparing => Some(Restaurant)
    case OutForDelivery => Some(Courier)
    case _ => None
  }

  /** The stages from which the orchestrator may roll a customer cancellation. */
  predicate Cancellable(s: State) {
    s == Placed || s == Confirmed || s == Preparing
  }

  /** Position in the lifecycle; every legal move raises it. */
  function Rank(s: State): nat {
    match s
    case Placed => 0
    case Confirmed => 1
    case Preparing => 2
    case Ready => 3
    case OutForDelivery => 4
    case Delivered => 5
    case Cancelled => 6
    case Failed => 7
  }

  /** The allowed transitions: one step along the happy path, a cancellation in the three early stages, which
      are those in which the orchestrator may roll one, and a failure anywhere before the end. */
  lemma AllowedMeans(from: State, to: State)
    ensures CanTransition(from, to) <==>
            || NextHappy(from) == Some(to)
            || (to == Cancelled && Rank(from) <= Rank(Preparing))
            || (to == Failed && !IsTerminal(from))
    ensures CanTransition(from, Cancelled) <==> Cancellable(from)
  {
  }

  /** NextHappy is the successor on HAPPY_PATH, and no state has a successor in two places. */
  lemma NextHappyFollowsPath(s: State, t: State)
    ensures NextHappy(s) == Some(t) <==>
            exists i :: 0 <= i < |HAPPY_PATH| - 1 && HAPPY_PATH[i] == s && HAPPY_PATH[i + 1] == t
    ensures NextHappy(s) == None <==> IsTerminal(s)
  {
    assert HAPPY_PATH[0] == Placed && HAPPY_PATH[1] == Confirmed && HAPPY_PATH[2] == Preparing;
    assert HAPPY_PATH[3] == Ready && HAPPY_PATH[4] == OutForDelivery && HAPPY_PATH[5] == Delivered;
  }

  /** A walk along allowed moves, given by the states it visits. */
  ghost predicate Walk(states: seq<State>) {
    && |states| > 0
    && forall i :: 0 < i < |states| ==> CanTransition(states[i - 1], states[i])
  }

  /** The lifecycle has no cycles: a walk never revisits a state, and nothing follows a terminal one. */
  lemma {:induction false} WalkNeverRevisits(states: seq<State>, i: nat, j: nat)
    requires Walk(states) && i < j < |states|
    ensures states[i] != states[j] && Rank(states[i]) < Rank(states[j])
    ensures !IsTerminal(states[i])
    decreases j
  {
    assert CanTransition(states[i], states[i + 1]);
    assert CanTransition(states[j - 1], states[j]);
    if i < j - 1 {
      WalkNeverRevisits(states, i, j - 1);
    }
  }

  // ---- operation ids -------------------------------------------------------

  /** The wire name of a state (State.value). */
  function Name(s: State): string {
    match s
    case Placed => "placed"
    case Confirmed => "confirmed"
    case Preparing => "preparing"
    case Ready => "ready"
    case OutForDelivery => "out_for_delivery"
    case Delivered => "delivered"
    case Cancelled => "cancelled"
    case Failed => "failed"
  }

  /** State(text): the state of this wire name. */
  function Parse(text: string): Option<State> {
    if text == "placed" then Some(Placed)
    else if text == "confirmed" then Some(Confirmed)
    else if text == "preparing" then Some(Preparing)
    else if text == "ready" then Some(Ready)
    else if text == "out_for_delivery" then Some(OutForDelivery)
    else if text == "delivered" then Some(Delivered)
    else if text == "cancelled" then Some(Cancelled)
    else if text == "failed" then Some(Failed)
    else None
  }

  /** What is written to a row or a command is read back as the same state, and nothing else is. */
  lemma NameParses(text: string, s: State)
    ensures Parse(text) == Some(s) <==> text == Name(s)
  {
    if text == Name(s) {
      match s
      case Placed =>
      case Confirmed =>
      case Preparing =>
      case Ready =>
      case OutForDelivery =>
      case Delivered =>
      case Cancelled =>
      case Failed =>
    }
  }

  function StepName(from: State, to: State): string {
    Name(from) + "->" + Name(to)
  }

  function OpIdFor(order: string, from: State, to: State): string {
    order + ":" + StepName(from, to)
  }

  lemma NamesAvoidSeparators(s: State)
    ensures ':' !in Name(s) && '-' !in Name(s)
  {
  }

  /** State names are told apart by their first two letters, except the two that end differently. */
  lemma NameInjective(s: State, t: State)
    requires Name(s) == Name(t)
    ensures s == t
  {
  }

  /** Splitting at the last occurrence of a separator is unique. */
  lemma SplitAtLast(a: string, b: string, a': string, b': string, c: char)
    requires c !in b && c !in b'
    requires a + [c] + b == a' + [c] + b'
    ensures a == a' && b == b'
  {
    var s := a + [c] + b;
    assert s[|a|] == c && s[|a'|] == c;
    assert forall i :: |a| < i < |s| ==> s[i] in b;
    assert forall i :: |a'| < i < |s| ==> s[i] in b';
    assert a == s[..|a|] && b == s[|a| + 1..];
    assert a' == s[..|a'|] && b' == s[|a'| + 1..];
  }

  /** Splitting at the first occurrence of a separator is unique. */
  lemma SplitAtFirst(a: string, b: string, a': string, b': string, c: char)
    requires c !in a && c !in a'
    requires a + [c] + b == a' + [c] + b'
    ensures a == a' && b == b'
  {
    var s := a + [c] + b;
    assert s[|a|] == c && s[|a'|] == c;
    assert forall i :: 0 <= i < |a| ==> s[i] in a;
    assert forall i :: 0 <= i < |a'| ==> s[i] in a';
    assert a == s[..|a|] && b == s[|a| + 1..];
    assert a' == s[..|a'|] && b' == s[|a'| + 1..];
  }

  lemma SplitAtArrow(n: string, m: string, n': string, m': string)
    requires '-' !in n && '-' !in n'
    requires n + "->" + m == n' + "->" + m'
    ensures n == n' && m == m'
  {
    assert n + "->" + m == n + ['-'] + (['>'] + m);
    assert n' + "->" + m' == n' + ['-'] + (['>'] + m');
    SplitAtFirst(n, ['>'] + m, n', ['>'] + m', '-');
    assert m == (['>'] + m)[1..] && m' == (['>'] + m')[1..];
  }

  lemma StepNameInjective(f: State, t: State, f': State, t': State)
    requires StepName(f, t) == StepName(f', t')
    ensures f == f' && t == t'
  {
    var n, m, n', m' := Name(f), Name(t), Name(f'), Name(t');
    assert n + "->" + m == n' + "->" + m';
    NamesAvoidSeparators(f);
    NamesAvoidSeparators(f');
    SplitAtArrow(n, m, n', m');
    NameInjective(f, f');
    NameInjective(t, t');
  }

  lemma StepNameAvoidsColon(f: State, t: State)
    ensures ':' !in StepName(f, t)
  {
    NamesAvoidSeparators(f);
    NamesAvoidSeparators(t);
  }

  /** Distinct lifecycle steps never share an operation id, whatever the order ids look like
      (they may themselves contain ':' or '->'). */
  lemma OpIdInjective(o: string, f: State, t: State, o': string, f': State, t': State)
    requires OpIdFor(o, f, t) == OpIdFor(o', f', t')
    ensures o == o' && f == f' && t == t'
  {
    StepNameAvoidsColon(f, t);
    StepNameAvoidsColon(f', t');
    assert OpIdFor(o, f, t) == o + [':'] + StepName(f, t);
    assert OpIdFor(o', f', t') == o' + [':'] + StepName(f', t');
    SplitAtLast(o, StepName(f, t), o', StepName(f', t'), ':');
    StepNameInjective(f, t, f', t');
  }
}
