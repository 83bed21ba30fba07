/** The transactional outbox (outbox.py) drained by any number of relays at once. */
module OutboxRelay {

  /** A relay's open transaction: the rows it holds locked, and how many it has published. */
  datatype Batch = Batch(ids: seq<nat>, done: nat)

  datatype Outbox = Outbox(
    rows: map<nat, bool>,         // by id; true once published_at is set
    open: map<nat, Batch>,        // by relay
    published: multiset<nat>,     // every publish of a row that reached the broker
    aborted: multiset<nat>)       // once per aborted batch for each row it had published

  const EMPTY := Outbox(map[], map[], multiset{}, multiset{})

  datatype Step =
    | Insert(id: nat)                         // a service's transaction commits a new row
    | Begin(relay: nat, ids: seq<nat>)        // SELECT .. ORDER BY id LIMIT n FOR UPDATE SKIP LOCKED
    | Publish(relay: nat)                     // the next row, confirmed by the broker
    | PublishFails(relay: nat, sent: bool)    // an exception; the broker may have the message anyway
    | Commit(relay: nat)                      // stamp the batch
    | Abort(relay: nat)                       // crash: the transaction rolls back

  predicate Locked(s: Outbox, id: nat) {
    exists r :: r in s.open && id in s.open[r].ids
  }

  predicate Free(s: Outbox, id: nat) {
    id in s.rows && !s.rows[id] && !Locked(s, id)
  }

  predicate Increasing(ids: seq<nat>) {
    forall i, j :: 0 <= i < j < |ids| ==> ids[i] < ids[j]
  }

  /** What the relay's query may return: the first `limit` unstamped rows nobody has locked. */
  predicate Selects(s: Outbox, limit: nat, ids: seq<nat>) {
    && Increasing(ids) && 0 < |ids| <= limit
    && (forall id :: id in ids ==> Free(s, id))
    && (forall id :: id in s.rows && Free(s, id) && id !in ids ==> |ids| == limit && ids[|ids| - 1] < id)
  }

  predicate Enabled(limit: nat, s: Outbox, step: Step) {
    match step
    case Insert(id) => id !in s.rows
    case Begin(r, ids) => r !in s.open && Selects(s, limit, ids)
    case Publish(r) => r in s.open && s.open[r].done < |s.open[r].ids|
    case PublishFails(r, _) => r in s.open && s.open[r].done < |s.open[r].ids|
    case Commit(r) => r in s.open && s.open[r].done == |s.open[r].ids|
    case Abort(r) => r in s.open && s.open[r].done <= |s.open[r].ids|
  }

  function Stamp(rows: map<nat, bool>, ids: seq<nat>): map<nat, bool> {
    map id | id in rows :: rows[id] || id in ids
  }

  function Take(limit: nat, s: Outbox, step: Step): Outbox
    requires Enabled(limit, s, step)
  {
    match step
    case Insert(id) => s.(rows := s.rows[id := false])
    case Begin(r, ids) => s.(open := s.open[r := Batch(ids, 0)])
    case Publish(r) =>
      var b := s.open[r];
      s.(open := s.open[r := b.(done := b.done + 1)], published := s.published + multiset{b.ids[b.done]})
    case PublishFails(r, sent) =>
      var b := s.open[r];
      var n := if sent then b.done + 1 else b.done;
      s.(open := s.open - {r},
         published := if sent then s.published + multiset{b.ids[b.done]} else s.published,
         aborted := s.aborted + multiset(b.ids[..n]))
    case Commit(r) => s.(rows := Stamp(s.rows, s.open[r].ids), open := s.open - {r})
    case Abort(r) => s.(open := s.open - {r}, aborted := s.aborted + multiset(s.open[r].ids[..s.open[r].done]))
  }

  // ---- invariant ---------------------------------------------------------------

  /** Published by a batch that is still open. */
  predicate Pending(s: Outbox, id: nat) {
    exists r :: r in s.open && s.open[r].done <= |s.open[r].ids| && id in s.open[r].ids[..s.open[r].done]
  }

  function Bit(b: bool): nat {
    if b then 1 else 0
  }

  predicate Stamped(s: Outbox, id: nat) {
    id in s.rows && s.rows[id]
  }

  /** Every publish of a row is accounted for. */
  predicate Accounted(s: Outbox, id: nat) {
    s.published[id] == s.aborted[id] + Bit(Stamped(s, id)) + Bit(Pending(s, id))
  }

  predicate BatchOk(s: Outbox, r: nat)
    requires r in s.open
  {
    && Increasing(s.open[r].ids) && s.open[r].done <= |s.open[r].ids|
    && (forall id :: id in s.open[r].ids ==> id in s.rows && !s.rows[id])
  }

  /** A row is in at most one open batch. */
  predicate Disjoint(s: Outbox) {
    forall r, r' :: r in s.open && r' in s.open && r != r' ==>
      forall id :: id in s.open[r].ids ==> id !in s.open[r'].ids
  }

  ghost predicate Inv(s: Outbox) {
    && Disjoint(s)
    && (forall r :: r in s.open ==> BatchOk(s, r))
    && (forall id: nat :: Accounted(s, id))
  }

  lemma {:induction false} CountOnce(ids: seq<nat>, n: nat, id: nat)
    requires Increasing(ids) && n <= |ids|
    ensures multiset(ids[..n])[id] == Bit(id in ids[..n])
    decreases n
  {
    if n > 0 {
      CountOnce(ids, n - 1, id);
      assert ids[..n] == ids[..n - 1] + [ids[n - 1]];
    }
  }

  /** Only the batch of relay r bears on its rows. */
  lemma PendingHere(s: Outbox, r: nat, id: nat)
    requires Disjoint(s) && r in s.open && s.open[r].done <= |s.open[r].ids| && id in s.open[r].ids
    ensures Pending(s, id) <==> id in s.open[r].ids[..s.open[r].done]
  {
  }

  /** A batch does not bear on rows it does not hold. */
  lemma PendingElsewhere(s: Outbox, s': Outbox, r: nat, id: nat)
    requires forall q :: q != r && q in s.open ==> q in s'.open && s'.open[q] == s.open[q]
    requires forall q :: q != r && q in s'.open ==> q in s.open
    requires r in s.open ==> id !in s.open[r].ids
    requires r in s'.open ==> id !in s'.open[r].ids
    ensures Pending(s, id) <==> Pending(s', id)
  {
  }

  lemma NotPendingWhenClosed(s: Outbox, s': Outbox, r: nat, id: nat)
    requires Disjoint(s) && r in s.open && id in s.open[r].ids && s'.open == s.open - {r}
    ensures !Pending(s', id)
  {
  }

  lemma TakeStructure(limit: nat, s: Outbox, step: Step)
    requires Enabled(limit, s, step) && Inv(s)
    ensures var s' := Take(limit, s, step);
            Disjoint(s') && forall r :: r in s'.open ==> BatchOk(s', r)
  {
    hide Accounted;
    var s' := Take(limit, s, step);
    forall r | r in s'.open ensures BatchOk(s', r) {
      if r in s.open {
        assert BatchOk(s, r);
      }
    }
  }

  lemma TakeAccount(limit: nat, s: Outbox, step: Step, id: nat)
    requires Enabled(limit, s, step) && Disjoint(s) && (forall r :: r in s.open ==> BatchOk(s, r)) && Accounted(s, id)
    ensures Accounted(Take(limit, s, step), id)
  {
    var s' := Take(limit, s, step);
    match step
    case Insert(_) => assert s'.open == s.open;
    case Begin(r, ids) => BeginAccount(limit, s, r, ids, id);
    case Publish(r) => PublishAccount(limit, s, r, id);
    case PublishFails(r, sent) => FailAccount(limit, s, r, sent, id);
    case Commit(r) => CommitAccount(limit, s, r, id);
    case Abort(r) => AbortAccount(limit, s, r, id);
  }

  lemma BeginAccount(limit: nat, s: Outbox, r: nat, ids: seq<nat>, id: nat)
    requires Enabled(limit, s, Begin(r, ids)) && Accounted(s, id)
    ensures Accounted(Take(limit, s, Begin(r, ids)), id)
  {
    BeginPending(limit, s, r, ids, id);
  }

  lemma PublishAccount(limit: nat, s: Outbox, r: nat, id: nat)
    requires Enabled(limit, s, Publish(r)) && Disjoint(s) && BatchOk(s, r) && Accounted(s, id)
    ensures Accounted(Take(limit, s, Publish(r)), id)
  {
    var s', b := Take(limit, s, Publish(r)), s.open[r];
    if id in b.ids {
      PendingHere(s, r, id);
      PendingHere(s', r, id);
      CountOnce(b.ids, b.done, id);
      CountOnce(b.ids, b.done + 1, id);
      assert b.ids[..b.done + 1] == b.ids[..b.done] + [b.ids[b.done]];
    } else {
      PendingElsewhere(s, s', r, id);
    }
  }

  lemma FailAccount(limit: nat, s: Outbox, r: nat, sent: bool, id: nat)
    requires Enabled(limit, s, PublishFails(r, sent)) && Disjoint(s) && BatchOk(s, r) && Accounted(s, id)
    ensures Accounted(Take(limit, s, PublishFails(r, sent)), id)
  {
    var s', b := Take(limit, s, PublishFails(r, sent)), s.open[r];
    if id in b.ids {
      PendingHere(s, r, id);
      NotPendingWhenClosed(s, s', r, id);
      CountOnce(b.ids, b.done, id);
      CountOnce(b.ids, b.done + 1, id);
      assert b.ids[..b.done + 1] == b.ids[..b.done] + [b.ids[b.done]];
    } else {
      PendingElsewhere(s, s', r, id);
      CountOnce(b.ids, b.done, id);
      CountOnce(b.ids, b.done + 1, id);
    }
  }

  lemma CommitAccount(limit: nat, s: Outbox, r: nat, id: nat)
    requires Enabled(limit, s, Commit(r)) && Disjoint(s) && BatchOk(s, r) && Accounted(s, id)
    ensures Accounted(Take(limit, s, Commit(r)), id)
  {
    var s', b := Take(limit, s, Commit(r)), s.open[r];
    if id in b.ids {
      PendingHere(s, r, id);
      NotPendingWhenClosed(s, s', r, id);
      assert b.ids[..b.done] == b.ids;
    } else {
      PendingElsewhere(s, s', r, id);
    }
  }

  lemma AbortAccount(limit: nat, s: Outbox, r: nat, id: nat)
    requires Enabled(limit, s, Abort(r)) && Disjoint(s) && BatchOk(s, r) && Accounted(s, id)
    ensures Accounted(Take(limit, s, Abort(r)), id)
  {
    var s', b := Take(limit, s, Abort(r)), s.open[r];
    CountOnce(b.ids, b.done, id);
    if id in b.ids {
      PendingHere(s, r, id);
      NotPendingWhenClosed(s, s', r, id);
    } else {
      PendingElsewhere(s, s', r, id);
    }
  }

  lemma TakeInv(limit: nat, s: Outbox, step: Step)
    requires Enabled(limit, s, step) && Inv(s)
    ensures Inv(Take(limit, s, step))
  {
    TakeStructure(limit, s, step);
    forall id: nat ensures Accounted(Take(limit, s, step), id) {
      assert Accounted(s, id);
      TakeAccount(limit, s, step, id);
    }
  }

  // ---- runs ----------------------------------------------------------------------

  predicate Valid(limit: nat, s: Outbox, steps: seq<Step>)
    decreases |steps|
  {
    |steps| > 0 ==> Enabled(limit, s, steps[0]) && Valid(limit, Take(limit, s, steps[0]), steps[1..])
  }

  function Exec(limit: nat, s: Outbox, steps: seq<Step>): Outbox
    requires Valid(limit, s, steps)
    decreases |steps|
  {
    if |steps| == 0 then s else Exec(limit, Take(limit, s, steps[0]), steps[1..])
  }

  lemma {:induction false} ExecInv(limit: nat, s: Outbox, steps: seq<Step>)
    requires Inv(s) && Valid(limit, s, steps)
    ensures Inv(Exec(limit, s, steps))
    decreases |steps|
  {
    hide Take, Enabled, Inv;
    if |steps| > 0 {
      TakeInv(limit, s, steps[0]);
      ExecInv(limit, Take(limit, s, steps[0]), steps[1..]);
    }
  }

  lemma EmptyInv()
    ensures Inv(EMPTY)
  {
  }

  /** After every run of any number of relays: a row is in at most one open batch and open rows are
      not stamped; a stamped row was confirmed by the broker; and the publishes of a row are the
      aborted batches that had published it, plus one if it is stamped, plus one if an open batch has
      published it. So a stamped row that no aborted batch had published went out exactly once. */
  lemma PublishesAccountedFor(limit: nat, steps: seq<Step>, id: nat)
    requires Valid(limit, EMPTY, steps)
    ensures var s := Exec(limit, EMPTY, steps);
            && (forall r, r' :: r in s.open && r' in s.open && id in s.open[r].ids && id in s.open[r'].ids ==> r == r')
            && (Locked(s, id) ==> !Stamped(s, id))
            && s.published[id] == s.aborted[id] + Bit(Stamped(s, id)) + Bit(Pending(s, id))
            && (Stamped(s, id) ==> s.published[id] >= 1)
            && (Stamped(s, id) && s.aborted[id] == 0 ==> s.published[id] == 1)
  {
    EmptyInv();
    ExecInv(limit, EMPTY, steps);
    var s := Exec(limit, EMPTY, steps);
    hide Exec, Valid;
    assert Accounted(s, id);
    hide Accounted;
    if Locked(s, id) {
      var r :| r in s.open && id in s.open[r].ids;
      assert BatchOk(s, r);
      assert !Stamped(s, id);
    } else {
      NotPendingIfFree(s, id);
    }
  }

  lemma NotPendingIfFree(s: Outbox, id: nat)
    requires !Locked(s, id)
    ensures !Pending(s, id)
  {
  }

  // ---- one row at a time ----------------------------------------------------------------

  /** What one row goes through; the pipeline model relays rows by these moves. */
  datatype RowView = Absent | Waiting | Sent | Done

  function View(s: Outbox, id: nat): RowView {
    if id !in s.rows then Absent else if s.rows[id] then Done else if Pending(s, id) then Sent else Waiting
  }

  /** A move of one row and the number of copies it puts on the broker: Sent rows have one copy out
      that their open batch will stamp or give back. */
  predicate RowMove(v: RowView, v': RowView, copies: int) {
    || (v == v' && copies == 0)
    || (v == Absent && v' == Waiting && copies == 0)
    || (v == Waiting && v' == Sent && copies == 1)
    || (v == Sent && v' == Done && copies == 0)
    || (v == Sent && v' == Waiting && copies == 0)
    || (v == Waiting && v' == Waiting && copies == 1)
  }

  /** Batches refine row-by-row relaying: whatever any relay does, each row publishes one copy, is
      stamped after a copy went out, or goes back to waiting. */
  lemma BatchesRefineRows(limit: nat, s: Outbox, step: Step, id: nat)
    requires Inv(s) && Enabled(limit, s, step)
    ensures var s' := Take(limit, s, step);
            RowMove(View(s, id), View(s', id), s'.published[id] - s.published[id])
  {
    hide Accounted, Selects;
    match step
    case Insert(_) => InsertRow(limit, s, step, id);
    case Begin(r, ids) => BeginPending(limit, s, r, ids, id);
    case _ =>
      assert BatchOk(s, step.relay);
      hide Inv, Disjoint, BatchOk, Take, Enabled, RowMove, View;
      if id in s.open[step.relay].ids {
        HeldRow(limit, s, step, id);
      } else {
        OtherRow(limit, s, step, id);
      }
  }

  lemma InsertRow(limit: nat, s: Outbox, step: Step, id: nat)
    requires Inv(s) && step.Insert? && Enabled(limit, s, step)
    ensures var s' := Take(limit, s, step);
            RowMove(View(s, id), View(s', id), s'.published[id] - s.published[id])
  {
  }

  lemma HeldRow(limit: nat, s: Outbox, step: Step, id: nat)
    requires step.Publish? || step.PublishFails? || step.Commit? || step.Abort?
    requires Inv(s) && Enabled(limit, s, step) && id in s.open[step.relay].ids
    ensures var s' := Take(limit, s, step);
            RowMove(View(s, id), View(s', id), s'.published[id] - s.published[id])
  {
  }

  lemma OtherRow(limit: nat, s: Outbox, step: Step, id: nat)
    requires step.Publish? || step.PublishFails? || step.Commit? || step.Abort?
    requires Enabled(limit, s, step) && id !in s.open[step.relay].ids
    ensures var s' := Take(limit, s, step);
            RowMove(View(s, id), View(s', id), s'.published[id] - s.published[id])
  {
  }

  lemma BeginPending(limit: nat, s: Outbox, r: nat, ids: seq<nat>, id: nat)
    requires Enabled(limit, s, Begin(r, ids))
    ensures Pending(s, id) <==> Pending(Take(limit, s, Begin(r, ids)), id)
  {
    var s' := Take(limit, s, Begin(r, ids));
    hide Selects;
    if Pending(s, id) {
      var q :| q in s.open && s.open[q].done <= |s.open[q].ids| && id in s.open[q].ids[..s.open[q].done];
      assert q in s'.open && s'.open[q] == s.open[q];
    }
    if Pending(s', id) {
      var q :| q in s'.open && s'.open[q].done <= |s'.open[q].ids| && id in s'.open[q].ids[..s'.open[q].done];
      assert q in s.open && s'.open[q] == s.open[q];
    }
  }

  // ---- the relay itself -------------------------------------------------------------

  /** Relay r has published the first n rows of its batch; t0 is the table before it began. */
  predicate Midway(t0: Outbox, t: Outbox, r: nat, rows: seq<nat>, n: nat) {
    && r !in t0.open && n <= |rows|
    && t == t0.(open := t0.open[r := Batch(rows, n)], published := t0.published + multiset(rows[..n]))
  }

  lemma MidwayBegin(limit: nat, t0: Outbox, r: nat, rows: seq<nat>)
    requires r !in t0.open && Selects(t0, limit, rows)
    ensures Enabled(limit, t0, Begin(r, rows)) && Midway(t0, Take(limit, t0, Begin(r, rows)), r, rows, 0)
  {
    assert multiset(rows[..0]) == multiset{};
  }

  lemma NothingToStamp(rows: map<nat, bool>)
    ensures Stamp(rows, []) == rows
  {
  }

  lemma MidwayPublish(limit: nat, t0: Outbox, t: Outbox, r: nat, rows: seq<nat>, n: nat)
    requires Midway(t0, t, r, rows, n) && n < |rows|
    ensures Enabled(limit, t, Publish(r)) && Midway(t0, Take(limit, t, Publish(r)), r, rows, n + 1)
  {
    assert rows[..n + 1] == rows[..n] + [rows[n]];
    assert t0.open[r := Batch(rows, n)][r := Batch(rows, n + 1)] == t0.open[r := Batch(rows, n + 1)];
  }

  lemma MidwayFails(limit: nat, t0: Outbox, t: Outbox, r: nat, rows: seq<nat>, n: nat, sent: bool)
    requires Midway(t0, t, r, rows, n) && n < |rows|
    ensures Enabled(limit, t, PublishFails(r, sent))
    ensures var gone := rows[..if sent then n + 1 else n];
            Take(limit, t, PublishFails(r, sent))
            == t0.(published := t0.published + multiset(gone), aborted := t0.aborted + multiset(gone))
  {
    assert rows[..n + 1] == rows[..n] + [rows[n]];
    assert t0.open[r := Batch(rows, n)] - {r} == t0.open;
  }

  lemma MidwayCommit(limit: nat, t0: Outbox, t: Outbox, r: nat, rows: seq<nat>)
    requires Midway(t0, t, r, rows, |rows|)
    ensures Enabled(limit, t, Commit(r))
    ensures Take(limit, t, Commit(r)) == t0.(rows := Stamp(t0.rows, rows), published := t0.published + multiset(rows))
  {
    assert rows[..|rows|] == rows;
    assert t0.open[r := Batch(rows, |rows|)] - {r} == t0.open;
  }

  /** One service's outbox table and the broker's side of it, as the relay loop works on them. */
  class Relay {
    const id: nat
    const batchSize: nat
    var table: Outbox

    constructor (id: nat, batchSize: nat, table: Outbox)
      ensures this.id == id && this.batchSize == batchSize && this.table == table
    {
      this.id, this.batchSize, this.table := id, batchSize, table;
    }

    /** _drain_once for the rows the query returned. `failAt` is the row whose publish raises, and
        `sent` whether the broker got it nevertheless. Rows go out in id order; the stamp covers
        exactly the rows published, and nothing is stamped unless all were. */
    method DrainOnce(rows: seq<nat>, failAt: nat, sent: bool) returns (moved: nat, ok: bool)
      requires id !in table.open && (rows != [] ==> Selects(table, batchSize, rows))
      requires rows == [] ==> batchSize == 0 || forall row :: row in table.rows ==> !Free(table, row)
      modifies this
      ensures ok == (failAt >= |rows|) && moved == (if ok then |rows| else 0)
      ensures ok ==> table == old(table).(rows := Stamp(old(table).rows, rows),
                                          published := old(table).published + multiset(rows))
      ensures !ok ==> var n := if sent then failAt + 1 else failAt;
                      table == old(table).(published := old(table).published + multiset(rows[..n]),
                                           aborted := old(table).aborted + multiset(rows[..n]))
    {
      hide Take, Enabled, Selects, Midway, Stamp, Free;
      if |rows| == 0 {
        NothingToStamp(table.rows);
        return 0, true;
      }
      MidwayBegin(batchSize, table, id, rows);
      table := Take(batchSize, table, Begin(id, rows));
      var publishedIds: seq<nat> := [];
      for i := 0 to |rows|
        invariant i <= failAt && publishedIds == rows[..i]
        invariant Midway(old(table), table, id, rows, i)
      {
        if i == failAt {
          MidwayFails(batchSize, old(table), table, id, rows, i, sent);
          table := Take(batchSize, table, PublishFails(id, sent));
          return 0, false;
        }
        MidwayPublish(batchSize, old(table), table, id, rows, i);
        table := Take(batchSize, table, Publish(id));
        publishedIds := publishedIds + [rows[i]];
      }
      MidwayCommit(batchSize, old(table), table, id, rows);
      table := Take(batchSize, table, Commit(id));
      return |publishedIds|, true;
    }
  }
}
