/** The requests of the pipeline are those of the services: what CreatePaymentIntent and Fulfill reply is
    what the pipeline's request steps answer, with the same row claimed, and what the HTTP client
    classifies. */
module PipelineServices {
  import opened Lifecycle
  import opened Pipeline
  import opened PipelineLimits
  import opened PipelineHandler
  import D = Downstreams
  import O = OrchestratorDb
  import H = HttpClient

  // ---- replies on the wire --------------------------------------------------------------------

  /** What the orchestrator learns from a reply of the payment service. */
  function PayAnswer(reply: D.PayReply): Answer {
    match reply
    case Outcome(charge, _) =>
      if charge.status == Succeeded then Approved(charge.amount, charge.intent)
      else CardDeclined(charge.amount, charge.intent)
    case TooMany => Busy429
    case _ => Unavailable
  }

  function PayStatus(reply: D.PayReply): int {
    match reply
    case KeyRequired => 400
    case Down => 503
    case TooMany => 429
    case Faulted(code) => code
    case Outcome(charge, _) => if charge.status == Succeeded then 200 else 402
  }

  function FulfillAnswer(reply: D.FulfillReply): Answer {
    match reply
    case Done(_, _) => Fulfilled
    case OverLimit => Busy429
    case _ => Unavailable
  }

  function FulfillStatus(reply: D.FulfillReply): int {
    match reply
    case Unavailable => 503
    case OverLimit => 429
    case Broken(code) => code
    case Done(_, _) => 200
  }

  /** The answer that the pipeline takes from a request is what the client makes of the service's status. */
  lemma RepliesOnTheWire(down: bool, passes: bool, was: map<string, Charge>, now: map<string, Charge>, key: string,
                         order: OrderId, amount: int, roll: D.Roll, others: map<string, Charge>, intent: string,
                         reply: D.PayReply)
    requires D.PayEnds(down, passes, was, now, key, order, amount, roll, others, intent, reply) && key != ""
    ensures OnTheWire(PayAnswer(reply), H.Status(PayStatus(reply)))
  {
  }

  lemma FulfillOnTheWire(down: bool, passes: bool, was: map<string, D.DispatchRow>, now: map<string, D.DispatchRow>,
                         opId: string, order: OrderId, stage: State, roll: D.Roll, others: map<string, D.DispatchRow>,
                         detail: string, reply: D.FulfillReply)
    requires D.FulfillEnds(down, passes, was, now, opId, order, stage, roll, others, detail, reply)
    ensures OnTheWire(FulfillAnswer(reply), H.Status(FulfillStatus(reply)))
  {
  }

  // ---- payment ----------------------------------------------------------------------------------

  predicate AtService(s: Sys, c: nat, d: Downstream, cpc: CallPc) {
    c in s.calls && s.calls[c].cpc == cpc && StageDownstream(s.calls[c].op.to) == Some(d)
  }

  lemma KeyNotEmpty(op: Op)
    ensures O.OpId(op) != ""
  {
    assert |O.OpId(op)| >= 1;
  }

  lemma LookupFinds(charges: map<string, Charge>, s: Sys, c: nat)
    requires AtService(s, c, Payment, Arrived) && D.Represents(charges, s.db)
    ensures var key := O.OpId(s.calls[c].op);
            Recorded(s.db, s.calls[c].op)
            == if key in charges then Some(PayAnswer(D.Outcome(charges[key], true))) else None
  {
  }

  /** Where a request stands after these steps, with nothing else touched. */
  predicate OnlyAnswered(s: Sys, s': Sys, c: nat, answer: Answer)
    requires c in s.calls
  {
    s' == s.(calls := s.calls[c := s.calls[c].(cpc := Answered(answer))])
  }

  lemma AnsweredAtOnce(cfg: Config, s: Sys, c: nat, refused: bool)
    requires c in s.calls && s.calls[c].cpc == Arrived
    ensures var step := if refused then CallRefuse(c) else CallLookup(c);
            && ValidRun(cfg, s, [step])
            && (refused ==> OnlyAnswered(s, Exec(cfg, s, [step]), c, Answer.Unavailable))
            && (!refused && Recorded(s.db, s.calls[c].op).Some? ==>
                  OnlyAnswered(s, Exec(cfg, s, [step]), c, Recorded(s.db, s.calls[c].op).value))
  {
    hide ValidRun, Exec, Recorded;
    RunOne(cfg, s, if refused then CallRefuse(c) else CallLookup(c));
  }

  lemma FlakedAfterLookup(cfg: Config, s: Sys, c: nat, limited: bool)
    requires c in s.calls && s.calls[c].cpc == Arrived && Recorded(s.db, s.calls[c].op) == None
    ensures var steps := [CallLookup(c), CallFlake(c, limited)];
            && ValidRun(cfg, s, steps)
            && OnlyAnswered(s, Exec(cfg, s, steps), c, if limited then Busy429 else Answer.Unavailable)
  {
    hide ValidRun, Exec, Recorded;
    RunTwo(cfg, s, CallLookup(c), CallFlake(c, limited));
    var call := s.calls[c];
    var last := call.(cpc := Answered(if limited then Busy429 else Answer.Unavailable));
    assert s.calls[c := call.(cpc := Missed)][c := last] == s.calls[c := last];
  }

  /** A reply that is decided before the claim is a run of the request's steps that gives its answer and
      touches nothing else. */
  lemma PayBeforeClaim(cfg: Config, s: Sys, c: nat, down: bool, passes: bool, was: map<string, Charge>,
                       now: map<string, Charge>, roll: D.Roll, others: map<string, Charge>, intent: string,
                       reply: D.PayReply) returns (steps: seq<Step>)
    requires AtService(s, c, Payment, Arrived) && D.Represents(was, s.db)
    requires var call := s.calls[c];
             && D.PayEnds(down, passes, was, now, O.OpId(call.op), call.op.order, call.amount, roll, others, intent,
                          reply)
             && (reply.Outcome? ==> O.OpId(call.op) in was)
    ensures ValidRun(cfg, s, steps) && OnlyAnswered(s, Exec(cfg, s, steps), c, PayAnswer(reply))
  {
    hide ValidRun, Exec, Recorded, O.OpId, D.Represents, OnlyAnswered;
    KeyNotEmpty(s.calls[c].op);
    LookupFinds(was, s, c);
    if reply.Down? || reply.Outcome? {
      steps := [if reply.Down? then CallRefuse(c) else CallLookup(c)];
      AnsweredAtOnce(cfg, s, c, reply.Down?);
    } else {
      steps := [CallLookup(c), CallFlake(c, reply.TooMany?)];
      FlakedAfterLookup(cfg, s, c, reply.TooMany?);
    }
  }

  /** A reply that reaches the claim is the claiming step, whatever other requests recorded since the
      lookup: the same row, and the answer of the row that is there. */
  lemma PayClaim(cfg: Config, s: Sys, c: nat, down: bool, passes: bool, was: map<string, Charge>,
                 now: map<string, Charge>, roll: D.Roll, others: map<string, Charge>, intent: string, reply: D.PayReply)
    requires AtService(s, c, Payment, Missed) && D.Represents(D.Joined(was, others), s.db)
    requires var call := s.calls[c];
             && D.PayEnds(down, passes, was, now, O.OpId(call.op), call.op.order, call.amount, roll, others, intent,
                          reply)
             && reply.Outcome? && O.OpId(call.op) !in was
    ensures var step := CallClaim(c, roll == D.Decline, intent);
            && Enabled(cfg, s, step)
            && var s' := Apply(cfg, s, step);
               && s'.calls == s.calls[c := s.calls[c].(cpc := Answered(PayAnswer(reply)))]
               && D.Represents(now, s'.db) && s'.tokens == s.tokens && s'.next == s.next
  {
    hide O.OpId, D.Joined, EffectTx, Recorded, D.Represents, Apply, Enabled;
    var call := s.calls[c];
    var db := EffectTx(s.db, call, roll == D.Decline, intent);
    D.ClaimIsEffect(D.Joined(was, others), s.db, call, roll == D.Decline, intent);
    RecordedCharge(now, db, call.op);
    ClaimStep(cfg, s, c, roll == D.Decline, intent, PayAnswer(reply));
  }

  lemma ClaimStep(cfg: Config, s: Sys, c: nat, declined: bool, intent: string, a: Answer)
    requires c in s.calls && s.calls[c].cpc == Missed
    requires Recorded(EffectTx(s.db, s.calls[c], declined, intent), s.calls[c].op) == Some(a)
    ensures var step := CallClaim(c, declined, intent);
            && Enabled(cfg, s, step)
            && Apply(cfg, s, step) == SetCall(s.(db := EffectTx(s.db, s.calls[c], declined, intent)), c, Answered(a))
  {
    hide EffectTx, Recorded;
  }

  lemma RecordedCharge(charges: map<string, Charge>, db: Db, op: Op)
    requires D.Represents(charges, db) && O.OpId(op) in charges && StageDownstream(op.to) == Some(Payment)
    ensures Recorded(db, op) == Some(PayAnswer(D.Outcome(charges[O.OpId(op)], true)))
  {
    hide O.OpId;
  }

  // ---- restaurant and courier ---------------------------------------------------------------------

  predicate AtKitchenOrCourier(s: Sys, c: nat, cpc: CallPc) {
    AtService(s, c, Restaurant, cpc) || AtService(s, c, Courier, cpc)
  }

  lemma RecordedDispatch(table: map<string, D.DispatchRow>, db: Db, op: Op)
    requires StageDownstream(op.to) == Some(Restaurant) || StageDownstream(op.to) == Some(Courier)
    requires D.RepresentsDispatches(table, D.DispatchesOf(db, op.to))
    ensures Recorded(db, op) == if O.OpId(op) in table then Some(Fulfilled) else None
  {
    hide O.OpId;
  }

  lemma FulfillBeforeClaim(cfg: Config, s: Sys, c: nat, down: bool, passes: bool, was: map<string, D.DispatchRow>,
                           now: map<string, D.DispatchRow>, roll: D.Roll, others: map<string, D.DispatchRow>,
                           detail: string, reply: D.FulfillReply) returns (steps: seq<Step>)
    requires AtKitchenOrCourier(s, c, Arrived)
    requires var op := s.calls[c].op;
             && D.RepresentsDispatches(was, D.DispatchesOf(s.db, op.to))
             && D.FulfillEnds(down, passes, was, now, O.OpId(op), op.order, op.to, roll, others, detail, reply)
             && (reply.Done? ==> O.OpId(op) in was)
    ensures ValidRun(cfg, s, steps) && OnlyAnswered(s, Exec(cfg, s, steps), c, FulfillAnswer(reply))
  {
    hide ValidRun, Exec, Recorded, O.OpId, D.RepresentsDispatches, OnlyAnswered;
    RecordedDispatch(was, s.db, s.calls[c].op);
    if reply.Unavailable? || reply.Done? {
      steps := [if reply.Unavailable? then CallRefuse(c) else CallLookup(c)];
      AnsweredAtOnce(cfg, s, c, reply.Unavailable?);
    } else {
      steps := [CallLookup(c), CallFlake(c, reply.OverLimit?)];
      FlakedAfterLookup(cfg, s, c, reply.OverLimit?);
    }
  }

  lemma FulfillClaim(cfg: Config, s: Sys, c: nat, down: bool, passes: bool, was: map<string, D.DispatchRow>,
                     now: map<string, D.DispatchRow>, roll: D.Roll, others: map<string, D.DispatchRow>, detail: string,
                     reply: D.FulfillReply)
    requires AtKitchenOrCourier(s, c, Missed)
    requires var op := s.calls[c].op;
             && D.RepresentsDispatches(D.Joined(was, others), D.DispatchesOf(s.db, op.to))
             && D.FulfillEnds(down, passes, was, now, O.OpId(op), op.order, op.to, roll, others, detail, reply)
             && reply.Done? && O.OpId(op) !in was
    ensures var step := CallClaim(c, false, "");
            && Enabled(cfg, s, step)
            && var s' := Apply(cfg, s, step);
               && s'.calls == s.calls[c := s.calls[c].(cpc := Answered(FulfillAnswer(reply)))]
               && D.RepresentsDispatches(now, D.DispatchesOf(s'.db, s.calls[c].op.to))
               && s'.tokens == s.tokens && s'.next == s.next
  {
    hide O.OpId, D.Joined, EffectTx, Recorded, D.RepresentsDispatches, Apply, Enabled;
    var call := s.calls[c];
    var db := EffectTx(s.db, call, false, "");
    D.DispatchIsEffect(D.Joined(was, others), s.db, call, false, "", detail);
    RecordedDispatch(now, db, call.op);
    ClaimStep(cfg, s, c, false, "", Fulfilled);
  }
}
