/** The order pipeline as one distributed protocol: the ingestion and orchestrator databases with
    their outboxes, the broker queues, the message handlers in flight, the HTTP requests in flight
    at the payment, restaurant and courier services, and the tables of those services.

    A step is one atomic action of one participant: one SQL statement or transaction, one confirmed
    publish, one ack, one HTTP request or answer, a crash, an expired timer. Any participant may
    take the next step, so a run is an arbitrary interleaving of any number of handlers, relays and
    requests. */
module Pipeline {
  import opened Lifecycle

  type OrderId = string

  /** BROKER_MAX_ATTEMPTS, HTTP_MAX_RETRIES + 1, and whether CANCEL_RATE > 0. */
  datatype Config = Config(maxAttempts: int, httpAttempts: int, cancels: bool)

  // ---- tables ---------------------------------------------------------------

  /** The key of the operations, charges and dispatches tables. Lifecycle.OpIdInjective says that
      the text op_id_for(order, from, to) identifies the three parts. */
  datatype Op = Op(order: OrderId, from: State, to: State)

  datatype IngestRow = IngestRow(key: string, total: int)
  datatype OrderRow = OrderRow(state: State, total: int)
  datatype Cause = Advanced | CustomerCancelled | Refused
  datatype Trans = Trans(from: State, to: State, cause: Cause, attempt: int)
  datatype ChargeStatus = Succeeded | Declined
  datatype Charge = Charge(order: OrderId, amount: int, status: ChargeStatus, intent: string)
  datatype Dispatch = Dispatch(order: OrderId, stage: State)

  datatype Db = Db(
    ingest: map<OrderId, IngestRow>,     // ingestion.orders, primary key order_id
    orders: map<OrderId, OrderRow>,      // orchestrator.orders
    log: map<OrderId, seq<Trans>>,       // orchestrator.transitions of one order, by id
    ops: set<Op>,                        // orchestrator.operations
    charges: map<Op, Charge>,            // payment.charges
    kitchen: map<Op, Dispatch>,          // restaurant.dispatches
    couriers: map<Op, Dispatch>,         // courier.dispatches
    redis: set<Op>                       // done:{op_id} marks; may be forgotten at any time
  )

  // ---- messages, rows and handlers ------------------------------------------

  datatype Payload = PlacedEvent(total: int) | AdvanceCommand(from: State)
  datatype Envelope = Envelope(order: OrderId, attempt: int, data: Payload)

  datatype PlacedPc = Start | Committed | Parked

  /** Where an order.advance handler stands. */
  datatype Pc =
    | Begin                                                    // body decoded, nothing read yet
    | Snap(total: int)                                         // read a row whose state is `from`
    | Calling(total: int, tries: nat, call: Option<nat>)       // inside post_json
    | Cleared                                                  // downstream said ok, or none needed
    | Rejected                                                 // downstream said a definitive no
    | Cancelling                                               // the cancellation was rolled
    | Bounce                                                   // about to _retry_or_dlq
    | Marking                                                  // committed, about to mark_done
    | Acking                                                   // about to ack

  /** One durable thing that carries an envelope. */
  datatype Token =
    | Outbox(env: Envelope, published: bool)         // unstamped row; published by its open batch
    | PlacedReady(env: Envelope, redelivered: bool)  // in q.orch.placed
    | PlacedBusy(env: Envelope, redelivered: bool, ppc: PlacedPc)   // unacked in on_placed
    | Work(env: Envelope)                            // in q.order.advance
    | Busy(env: Envelope, att: int, faulted: bool, pc: Pc)  // unacked in on_advance; att = env.attempt in memory
    | Retry(env: Envelope)                           // in q.order.advance.retry
    | Dlq(env: Envelope, replayed: bool)             // in q.order.dlq; replayed = unacked, copy published

  // ---- HTTP requests at the downstream services -----------------------------

  datatype Answer =
    | Approved(amount: int, intent: string)       // 200 payment intent
    | CardDeclined(amount: int, intent: string)   // 402
    | Fulfilled                                   // 200 from /fulfill
    | Busy429
    | Unavailable                                 // 5xx

  datatype CallPc = Arrived | Missed | Answered(answer: Answer)
  datatype Call = Call(op: Op, amount: int, cpc: CallPc)

  datatype Sys = Sys(db: Db, tokens: map<nat, Token>, calls: map<nat, Call>, next: nat)

  const EMPTY_DB := Db(map[], map[], map[], {}, map[], map[], map[], {})
  const INITIAL := Sys(EMPTY_DB, map[], map[], 0)

  // ---- transactions ----------------------------------------------------------

  /** INSERT .. ON CONFLICT DO NOTHING: the first writer of a key wins. */
  function InsertIfAbsent<K, V>(table: map<K, V>, key: K, row: V): map<K, V> {
    if key in table then table else table[key := row]
  }

  datatype PostOutcome = Accepted | Duplicate | Refusal

  /** total_cents is an int4 column; a larger value is an encoding error. */
  const INT4_MAX := 0x7FFF_FFFF

  predicate KeyTaken(db: Db, key: string) {
    exists o :: o in db.ingest && db.ingest[o].key == key
  }

  /** place_order's transaction: the request fails outright when the total does not fit or the
      new order id is taken, and is answered from the table when the key is. */
  function PostOf(db: Db, key: string, order: OrderId, total: int): PostOutcome {
    if total > INT4_MAX then Refusal
    else if KeyTaken(db, key) then Duplicate
    else if order in db.ingest then Refusal
    else Accepted
  }

  function PostTx(db: Db, key: string, order: OrderId, total: int): Db {
    if PostOf(db, key, order, total) != Accepted then db
    else db.(ingest := db.ingest[order := IngestRow(key, total)])
  }

  /** on_placed: the order row, unless it is there already. */
  function SeedTx(db: Db, order: OrderId, total: int): Db {
    if order in db.orders then db
    else db.(orders := db.orders[order := OrderRow(Placed, total)], log := db.log[order := []])
  }

  datatype TxOutcome = Applied | Dedup | Raced

  /** What _commit_transition, _cancel and _fail_order come to: the claim is lost, the
      compare-and-set finds another state (raise, roll back), or the step is applied. */
  function TxOf(db: Db, op: Op): TxOutcome {
    if op in db.ops then Dedup
    else if op.order in db.orders && db.orders[op.order].state == op.from then Applied
    else Raced
  }

  function RowsOf(db: Db, order: OrderId): seq<Trans> {
    if order in db.log then db.log[order] else []
  }

  function TransitionTx(db: Db, op: Op, cause: Cause, attempt: int): Db {
    if TxOf(db, op) != Applied then db
    else db.(
      ops := db.ops + {op},
      orders := db.orders[op.order := db.orders[op.order].(state := op.to)],
      log := db.log[op.order := RowsOf(db, op.order) + [Trans(op.from, op.to, cause, attempt)]])
  }

  /** _intent_response: the answer is a function of the recorded row. */
  function IntentResponse(charge: Charge): Answer {
    if charge.status == Succeeded then Approved(charge.amount, charge.intent)
    else CardDeclined(charge.amount, charge.intent)
  }

  /** The recorded answer for a request's key, if the effect was applied before. */
  function Recorded(db: Db, op: Op): Option<Answer> {
    match StageDownstream(op.to)
    case Some(Payment) => if op in db.charges then Some(IntentResponse(db.charges[op])) else None
    case Some(Restaurant) => if op in db.kitchen then Some(Fulfilled) else None
    case Some(Courier) => if op in db.couriers then Some(Fulfilled) else None
    case None => None
  }

  /** The insert that claims a request's effect. */
  function EffectTx(db: Db, call: Call, declined: bool, intent: string): Db {
    var op := call.op;
    match StageDownstream(op.to)
    case Some(Payment) =>
      var status := if declined then Declined else Succeeded;
      db.(charges := InsertIfAbsent(db.charges, op, Charge(op.order, call.amount, status, intent)))
    case Some(Restaurant) => db.(kitchen := InsertIfAbsent(db.kitchen, op, Dispatch(op.order, op.to)))
    case Some(Courier) => db.(couriers := InsertIfAbsent(db.couriers, op, Dispatch(op.order, op.to)))
    case None => db
  }

  // ---- steps -----------------------------------------------------------------

  datatype Step =
    // client and relays
    | Post(key: string, order: OrderId, total: int)
    | RelayPublish(k: nat)
    | RelayStamp(k: nat)
    | RelayAbort(k: nat)
    // on_placed
    | PlacedDeliver(k: nat)
    | PlacedCommit(k: nat)
    | PlacedFault(k: nat)
    | PlacedAck(k: nat)
    // on_advance
    | Deliver(k: nat)
    | Read(k: nat)
    | RollCancel(k: nat)
    | DedupSkip(k: nat)
    | Proceed(k: nat)
    | BreakerReject(k: nat)
    | Send(k: nat)
    | TakeAnswer(k: nat)
    | TimeOut(k: nat)
    | GiveUp(k: nat)
    | Commit(k: nat)
    | FailOrder(k: nat)
    | Cancel(k: nat)
    | MarkDone(k: nat, stored: bool)
    | BouncePublish(k: nat)
    | Fault(k: nat)
    | Ack(k: nat)
    // broker
    | RetryExpire(k: nat)
    | ReplayPublish(k: nat)
    | ReplayAck(k: nat)
    | Redeliver(k: nat)
    | Discard(k: nat)
    | RedisForget(marks: set<Op>)
    // downstream services
    | CallRefuse(c: nat)
    | CallLookup(c: nat)
    | CallFlake(c: nat, limited: bool)
    | CallClaim(c: nat, declined: bool, intent: string)

  function TargetOf(env: Envelope): Option<State> {
    match env.data
    case AdvanceCommand(from) => NextHappy(from)
    case PlacedEvent(_) => None
  }

  /** The step an order.advance envelope asks for. */
  function HappyOp(env: Envelope): Op
    requires TargetOf(env).Some?
  {
    Op(env.order, env.data.from, TargetOf(env).value)
  }

  predicate At(s: Sys, k: nat) {
    k in s.tokens
  }

  predicate BusyAt(s: Sys, k: nat) {
    k in s.tokens && s.tokens[k].Busy?
  }

  predicate CallAt(s: Sys, c: nat) {
    c in s.calls
  }

  predicate Enabled(cfg: Config, s: Sys, step: Step) {
    match step
    case Post(key, order, total) => true
    case RelayPublish(k) => At(s, k) && s.tokens[k].Outbox? && !s.tokens[k].published
    case RelayStamp(k) => At(s, k) && s.tokens[k].Outbox? && s.tokens[k].published
    case RelayAbort(k) => At(s, k) && s.tokens[k].Outbox? && s.tokens[k].published
    case PlacedDeliver(k) => At(s, k) && s.tokens[k].PlacedReady?
    case PlacedCommit(k) => At(s, k) && s.tokens[k].PlacedBusy? && s.tokens[k].ppc == Start
    case PlacedFault(k) => At(s, k) && s.tokens[k].PlacedBusy? && s.tokens[k].ppc != Parked
    case PlacedAck(k) => At(s, k) && s.tokens[k].PlacedBusy? && s.tokens[k].ppc != Start
    case Deliver(k) => At(s, k) && s.tokens[k].Work?
    case Read(k) => BusyAt(s, k) && s.tokens[k].pc == Begin
    case RollCancel(k) =>
      BusyAt(s, k) && s.tokens[k].pc.Snap? && cfg.cancels
      && s.tokens[k].env.data.AdvanceCommand? && Cancellable(s.tokens[k].env.data.from)
    case DedupSkip(k) =>
      BusyAt(s, k) && s.tokens[k].pc.Snap? && TargetOf(s.tokens[k].env).Some?
      && HappyOp(s.tokens[k].env) in s.db.redis && HappyOp(s.tokens[k].env) in s.db.ops
    case Proceed(k) => BusyAt(s, k) && s.tokens[k].pc.Snap?
    case BreakerReject(k) =>
      BusyAt(s, k) && s.tokens[k].pc.Calling? && s.tokens[k].pc.tries == 0 && s.tokens[k].pc.call == None
    case Send(k) =>
      BusyAt(s, k) && s.tokens[k].pc.Calling? && s.tokens[k].pc.call == None
      && s.tokens[k].pc.tries < cfg.httpAttempts && TargetOf(s.tokens[k].env).Some?
    case TakeAnswer(k) =>
      BusyAt(s, k) && s.tokens[k].pc.Calling? && s.tokens[k].pc.call.Some?
      && s.tokens[k].pc.call.value in s.calls && s.calls[s.tokens[k].pc.call.value].cpc.Answered?
    case TimeOut(k) => BusyAt(s, k) && s.tokens[k].pc.Calling? && s.tokens[k].pc.call.Some?
    case GiveUp(k) =>
      BusyAt(s, k) && s.tokens[k].pc.Calling? && s.tokens[k].pc.call == None
      && s.tokens[k].pc.tries >= cfg.httpAttempts
    case Commit(k) => BusyAt(s, k) && s.tokens[k].pc == Cleared && TargetOf(s.tokens[k].env).Some?
    case FailOrder(k) => BusyAt(s, k) && s.tokens[k].pc == Rejected && s.tokens[k].env.data.AdvanceCommand?
    case Cancel(k) => BusyAt(s, k) && s.tokens[k].pc == Cancelling && s.tokens[k].env.data.AdvanceCommand?
    case MarkDone(k, stored) => BusyAt(s, k) && s.tokens[k].pc == Marking && TargetOf(s.tokens[k].env).Some?
    case BouncePublish(k) => BusyAt(s, k) && s.tokens[k].pc == Bounce
    case Fault(k) => BusyAt(s, k) && !s.tokens[k].faulted
    case Ack(k) => BusyAt(s, k) && s.tokens[k].pc == Acking
    case RetryExpire(k) => At(s, k) && s.tokens[k].Retry?
    case ReplayPublish(k) => At(s, k) && s.tokens[k].Dlq? && !s.tokens[k].replayed
    case ReplayAck(k) => At(s, k) && s.tokens[k].Dlq? && s.tokens[k].replayed
    case Redeliver(k) =>
      At(s, k) && (s.tokens[k].Busy? || s.tokens[k].PlacedBusy? || (s.tokens[k].Dlq? && s.tokens[k].replayed))
    case Discard(k) => BusyAt(s, k) && s.tokens[k].faulted && s.tokens[k].pc == Bounce
    case RedisForget(marks) => true
    case CallRefuse(c) => CallAt(s, c) && s.calls[c].cpc == Arrived
    case CallLookup(c) => CallAt(s, c) && s.calls[c].cpc == Arrived
    case CallFlake(c, limited) => CallAt(s, c) && s.calls[c].cpc == Missed
    case CallClaim(c, declined, intent) => CallAt(s, c) && s.calls[c].cpc == Missed
  }

  function Move(s: Sys, k: nat, t: Token): Sys {
    s.(tokens := s.tokens[k := t])
  }

  function Drop(s: Sys, k: nat): Sys {
    s.(tokens := s.tokens - {k})
  }

  /** A new durable message or row. */
  function Spawn(s: Sys, t: Token): Sys {
    s.(tokens := s.tokens[s.next := t], next := s.next + 1)
  }

  function SetCall(s: Sys, c: nat, cpc: CallPc): Sys
    requires c in s.calls
  {
    s.(calls := s.calls[c := s.calls[c].(cpc := cpc)])
  }

  /** Where the relay's publish of a row lands. */
  function Routed(env: Envelope): Token {
    if env.data.PlacedEvent? then PlacedReady(env, false) else Work(env)
  }

  function AdvanceRow(order: OrderId, from: State): Token {
    Outbox(Envelope(order, 1, AdvanceCommand(from)), false)
  }

  /** _advance up to the stale check. A parked order.placed that was replayed onto the work queue
      has no `from`, so decoding it raises. */
  function AfterRead(db: Db, t: Token): Token
    requires t.Busy?
  {
    match t.env.data
    case PlacedEvent(_) => t.(faulted := true, pc := Bounce)
    case AdvanceCommand(from) =>
      if t.env.order !in db.orders then t.(pc := Bounce)
      else
        var row := db.orders[t.env.order];
        if row.state != from || IsTerminal(row.state) then t.(pc := Acking)
        else t.(pc := Snap(row.total))
  }

  function AfterSnap(t: Token): Token
    requires t.Busy? && t.pc.Snap?
  {
    match TargetOf(t.env)
    case None => t.(pc := Acking)
    case Some(target) =>
      t.(pc := if StageDownstream(target).Some? then Calling(t.pc.total, 0, None) else Cleared)
  }

  /** post_json's classification of one answer. */
  function AfterAnswer(t: Token, answer: Answer): Token
    requires t.Busy? && t.pc.Calling?
  {
    match answer
    case Approved(_, _) => t.(pc := Cleared)
    case Fulfilled => t.(pc := Cleared)
    case CardDeclined(_, _) => t.(pc := Rejected)
    case Busy429 => t.(pc := Calling(t.pc.total, t.pc.tries + 1, None))
    case Unavailable => t.(pc := Calling(t.pc.total, t.pc.tries + 1, None))
  }

  /** An exception reached on_advance's except clause. If it came out of schedule_retry's publish,
      env.attempt has been incremented already. */
  function AfterFault(cfg: Config, t: Token): Token
    requires t.Busy?
  {
    t.(faulted := true, pc := Bounce,
       att := if t.pc == Bounce && t.att < cfg.maxAttempts then t.att + 1 else t.att)
  }

  /** One of the three transactions, run by the handler in token k. */
  function RunTx(cfg: Config, s: Sys, k: nat, op: Op, cause: Cause, done: Pc): Sys
    requires BusyAt(s, k)
  {
    var t := s.tokens[k];
    match TxOf(s.db, op)
    case Dedup => Move(s, k, t.(pc := Acking))
    case Raced => Move(s, k, AfterFault(cfg, t))
    case Applied =>
      var s' := Move(s.(db := TransitionTx(s.db, op, cause, t.att)), k, t.(pc := done));
      if cause == Advanced && !IsTerminal(op.to) then Spawn(s', AdvanceRow(op.order, op.to)) else s'
  }

  function PublishBounce(cfg: Config, s: Sys, k: nat): Sys
    requires BusyAt(s, k)
  {
    var t := s.tokens[k];
    if t.att >= cfg.maxAttempts
    then Spawn(Move(s, k, t.(pc := Acking)), Dlq(t.env.(attempt := t.att), false))
    else Spawn(Move(s, k, t.(pc := Acking, att := t.att + 1)), Retry(t.env.(attempt := t.att + 1)))
  }

  function PlacedException(s: Sys, k: nat): Sys
    requires k in s.tokens && s.tokens[k].PlacedBusy?
  {
    var t := s.tokens[k];
    if t.redelivered then Spawn(Move(s, k, t.(ppc := Parked)), Dlq(t.env, false))
    else Move(s, k, PlacedReady(t.env, true))
  }

  function Returned(t: Token): Token {
    match t
    case Busy(env, _, _, _) => Work(env)
    case PlacedBusy(env, _, _) => PlacedReady(env, true)
    case Dlq(env, _) => Dlq(env, false)
    case _ => t
  }

  function Apply(cfg: Config, s: Sys, step: Step): Sys
    requires Enabled(cfg, s, step)
  {
    match step
    case Post(key, order, total) =>
      if PostOf(s.db, key, order, total) != Accepted then s
      else Spawn(s.(db := PostTx(s.db, key, order, total)), Outbox(Envelope(order, 1, PlacedEvent(total)), false))
    case RelayPublish(k) => Spawn(Move(s, k, s.tokens[k].(published := true)), Routed(s.tokens[k].env))
    case RelayStamp(k) => Drop(s, k)
    case RelayAbort(k) => Move(s, k, s.tokens[k].(published := false))
    case PlacedDeliver(k) => Move(s, k, PlacedBusy(s.tokens[k].env, s.tokens[k].redelivered, Start))
    case PlacedCommit(k) =>
      var t := s.tokens[k];
      var total := if t.env.data.PlacedEvent? then t.env.data.total else 0;
      var s' := Move(s.(db := SeedTx(s.db, t.env.order, total)), k, t.(ppc := Committed));
      if t.env.order in s.db.orders then s' else Spawn(s', AdvanceRow(t.env.order, Placed))
    case PlacedFault(k) => PlacedException(s, k)
    case PlacedAck(k) => Drop(s, k)
    case Deliver(k) => Move(s, k, Busy(s.tokens[k].env, s.tokens[k].env.attempt, false, Begin))
    case Read(k) => Move(s, k, AfterRead(s.db, s.tokens[k]))
    case RollCancel(k) => Move(s, k, s.tokens[k].(pc := Cancelling))
    case DedupSkip(k) => Move(s, k, s.tokens[k].(pc := Acking))
    case Proceed(k) => Move(s, k, AfterSnap(s.tokens[k]))
    case BreakerReject(k) => Move(s, k, s.tokens[k].(pc := Bounce))
    case Send(k) =>
      var t := s.tokens[k];
      Move(s, k, t.(pc := Calling(t.pc.total, t.pc.tries, Some(s.next))))
        .(calls := s.calls[s.next := Call(HappyOp(t.env), t.pc.total, Arrived)], next := s.next + 1)
    case TakeAnswer(k) =>
      Move(s, k, AfterAnswer(s.tokens[k], s.calls[s.tokens[k].pc.call.value].cpc.answer))
    case TimeOut(k) => Move(s, k, AfterAnswer(s.tokens[k], Unavailable))
    case GiveUp(k) => Move(s, k, s.tokens[k].(pc := Bounce))
    case Commit(k) => RunTx(cfg, s, k, HappyOp(s.tokens[k].env), Advanced, Marking)
    case FailOrder(k) =>
      var env := s.tokens[k].env;
      RunTx(cfg, s, k, Op(env.order, env.data.from, Failed), Refused, Acking)
    case Cancel(k) =>
      var env := s.tokens[k].env;
      RunTx(cfg, s, k, Op(env.order, env.data.from, Cancelled), CustomerCancelled, Acking)
    case MarkDone(k, stored) =>
      var db := if stored then s.db.(redis := s.db.redis + {HappyOp(s.tokens[k].env)}) else s.db;
      Move(s.(db := db), k, s.tokens[k].(pc := Acking))
    case BouncePublish(k) => PublishBounce(cfg, s, k)
    case Fault(k) => Move(s, k, AfterFault(cfg, s.tokens[k]))
    case Ack(k) => Drop(s, k)
    case RetryExpire(k) => Move(s, k, Work(s.tokens[k].env))
    case ReplayPublish(k) =>
      Spawn(Move(s, k, s.tokens[k].(replayed := true)), Work(s.tokens[k].env.(attempt := 1)))
    case ReplayAck(k) => Drop(s, k)
    case Redeliver(k) => Move(s, k, Returned(s.tokens[k]))
    case Discard(k) => Drop(s, k)
    case RedisForget(marks) => s.(db := s.db.(redis := s.db.redis - marks))
    case CallRefuse(c) => SetCall(s, c, Answered(Unavailable))
    case CallLookup(c) =>
      SetCall(s, c, match Recorded(s.db, s.calls[c].op) case Some(a) => Answered(a) case None => Missed)
    case CallFlake(c, limited) => SetCall(s, c, Answered(if limited then Busy429 else Unavailable))
    case CallClaim(c, declined, intent) =>
      var db := EffectTx(s.db, s.calls[c], declined, intent);
      match Recorded(db, s.calls[c].op)
      case Some(a) => SetCall(s.(db := db), c, Answered(a))
      case None => SetCall(s, c, Answered(Unavailable))
  }

  // ---- runs ------------------------------------------------------------------

  /** A run: every step is enabled where it is taken. */
  predicate ValidRun(cfg: Config, s: Sys, steps: seq<Step>)
    decreases |steps|
  {
    |steps| > 0 ==> Enabled(cfg, s, steps[0]) && ValidRun(cfg, Apply(cfg, s, steps[0]), steps[1..])
  }

  function Exec(cfg: Config, s: Sys, steps: seq<Step>): Sys
    requires ValidRun(cfg, s, steps)
    decreases |steps|
  {
    if |steps| == 0 then s else Exec(cfg, Apply(cfg, s, steps[0]), steps[1..])
  }
}
