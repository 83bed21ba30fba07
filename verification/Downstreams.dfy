/** The simulated downstreams (payment.py, downstream.py): handlers that look a request's key up,
    admit it, and claim its effect, while other requests run between their statements. */
module Downstreams {
  import opened Lifecycle
  import opened RateLimiter
  import opened OrchestratorDb
  import P = Pipeline

  /** FlakyCore.roll. */
  datatype Roll = Fine | Error | Hang | Decline

  /** Rows that other requests inserted in the meantime; rows already there win. */
  function Joined<V>(table: map<string, V>, others: map<string, V>): map<string, V> {
    others + table
  }

  predicate Int4(amount: int) {
    -0x8000_0000 <= amount <= P.INT4_MAX
  }

  // ---- payment ----------------------------------------------------------------------------

  datatype PayReply =
    | KeyRequired                                        // 400
    | Down                                               // 503
    | TooMany                                            // 429
    | Faulted(code: int)                                 // 500, 502 or 504
    | Outcome(charge: P.Charge, duplicate: bool)         // 200 or 402, _intent_response of the row

  /** What one create_payment_intent comes to: which reply exactly when, and what is in the table then.
      `others` are the charges that concurrent requests record between the lookup and the claim. */
  predicate PayEnds(down: bool, passes: bool, was: map<string, P.Charge>, now: map<string, P.Charge>,
                    key: string, order: P.OrderId, amount: int, roll: Roll, others: map<string, P.Charge>,
                    intent: string, reply: PayReply)
  {
    && (reply == KeyRequired <==> key == "")
    && (reply == Down <==> key != "" && down)
    && (reply == TooMany <==> key != "" && !down && key !in was && !passes)
    && (reply.Faulted? <==> key != "" && !down && key !in was && passes
                            && (roll == Error || roll == Hang || !(-0x8000_0000 <= amount <= 0x7FFF_FFFF)))
    && (reply.Faulted? ==> reply.code == match roll case Error => 502 case Hang => 504 case _ => 500)
    // a known key is answered from its row
    && (reply.Outcome? && key in was ==> reply == Outcome(was[key], true) && now == was)
    // a new one is answered from the row that is there after the claim
    && (reply.Outcome? && key !in was ==>
          && now == P.InsertIfAbsent(Joined(was, others), key,
                      P.Charge(order, amount, if roll == Decline then P.Declined else P.Succeeded, intent))
          && reply == Outcome(now[key], key in others))
    // no other reply records anything of its own, and a processor fault nothing at all
    && (!reply.Outcome? ==> now == was || (now == Joined(was, others) && reply == Faulted(500)))
    && (roll == Error || roll == Hang ==> now == was)
    && (forall k :: k in was ==> k in now && now[k] == was[k])
  }

  class PaymentService {
    const core: FlakyCore
    var charges: map<string, P.Charge>

    constructor (core: FlakyCore)
      ensures this.core == core && charges == map[]
    {
      this.core, charges := core, map[];
    }

    /** INSERT .. ON CONFLICT (idempotency_key) DO NOTHING RETURNING: the charge of the pipeline's
        EffectTx, at most once per key. */
    method Claim(key: string, row: P.Charge) returns (claimed: bool)
      modifies this`charges
      ensures claimed == (key !in old(charges))
      ensures charges == P.InsertIfAbsent(old(charges), key, row)
    {
      claimed := key !in charges;
      if claimed {
        charges := charges[key := row];
      }
    }

    /** create_payment_intent. Only a key that is not recorded yet costs a rate-limit token. */
    method CreatePaymentIntent(key: string, order: P.OrderId, amount: int, now: real, roll: Roll,
                               others: map<string, P.Charge>, intent: string) returns (reply: PayReply)
      modifies this`charges, core`winStart, core`winCount
      ensures PayEnds(core.forcedDown || now < core.autoDownUntil, Passes(core.rateLimit, old(core.Win()), now),
                      old(charges), charges, key, order, amount, roll, others, intent, reply)
      ensures core.Win() == if reply.KeyRequired? || reply.Down? || key in old(charges) then old(core.Win())
                            else Tick(old(core.Win()), now)
    {
      if key == "" {
        return KeyRequired;
      }
      var down := core.IsDown(now);
      if down {
        return Down;
      }
      if key in charges {
        return Outcome(charges[key], true);
      }
      var limited := core.RateLimited(now);
      if limited {
        return TooMany;
      }
      if roll == Error {
        return Faulted(502);
      }
      if roll == Hang {
        return Faulted(504);
      }
      charges := Joined(charges, others);
      if !Int4(amount) {
        return Faulted(500);
      }
      var row := P.Charge(order, amount, if roll == Decline then P.Declined else P.Succeeded, intent);
      var claimed := Claim(key, row);
      if !claimed {
        return Outcome(charges[key], true);
      }
      return Outcome(row, false);
    }
  }

  /** The charges table is the one of the pipeline model, keyed by operation ids. */
  ghost predicate Represents(charges: map<string, P.Charge>, db: P.Db) {
    && (forall op: P.Op :: op in db.charges <==> OpId(op) in charges)
    && (forall op: P.Op :: op in db.charges ==> db.charges[op] == charges[OpId(op)])
  }

  /** A claim under the operation id of a payment step is the effect of the pipeline model. */
  lemma ClaimIsEffect(charges: map<string, P.Charge>, db: P.Db, call: P.Call, declined: bool, intent: string)
    requires Represents(charges, db) && StageDownstream(call.op.to) == Some(Payment)
    ensures var row := P.Charge(call.op.order, call.amount, if declined then P.Declined else P.Succeeded, intent);
            Represents(P.InsertIfAbsent(charges, OpId(call.op), row), P.EffectTx(db, call, declined, intent))
  {
    hide OpId;
    var row := P.Charge(call.op.order, call.amount, if declined then P.Declined else P.Succeeded, intent);
    var charges', db' := P.InsertIfAbsent(charges, OpId(call.op), row), P.EffectTx(db, call, declined, intent);
    forall op: P.Op
      ensures op in db'.charges <==> OpId(op) in charges'
      ensures op in db'.charges ==> db'.charges[op] == charges'[OpId(op)]
    {
      if op != call.op { OtherOpId(call.op, op); }
    }
  }

  // ---- restaurant and courier -----------------------------------------------------------------

  datatype DispatchRow = DispatchRow(order: P.OrderId, stage: State, detail: string)

  datatype FulfillReply =
    | Unavailable                                       // 503
    | OverLimit                                         // 429
    | Broken(code: int)                                 // 500 or 504
    | Done(duplicate: bool, detail: string)             // 200

  /** What one fulfill comes to. A 200 means that the effect of this op_id is recorded, once; a known
      duplicate gets the stored detail; one that loses the race for the claim is told it is a duplicate
      but gets its own detail, not the stored one. */
  predicate FulfillEnds(down: bool, passes: bool, was: map<string, DispatchRow>, now: map<string, DispatchRow>,
                        opId: string, order: P.OrderId, stage: State, roll: Roll, others: map<string, DispatchRow>,
                        detail: string, reply: FulfillReply)
  {
    && (reply == Unavailable <==> down)
    && (reply == OverLimit <==> !down && opId !in was && !passes)
    && (reply.Broken? <==> !down && opId !in was && passes && (roll == Error || roll == Hang))
    && (reply.Broken? ==> reply.code == if roll == Error then 500 else 504)
    && (reply.Done? && opId in was ==> reply == Done(true, was[opId].detail) && now == was)
    && (reply.Done? && opId !in was ==>
          && now == P.InsertIfAbsent(Joined(was, others), opId, DispatchRow(order, stage, detail))
          && reply == Done(opId in others, detail))
    && (!reply.Done? || roll == Error || roll == Hang ==> now == was)
    && (forall k :: k in was ==> k in now && now[k] == was[k])
  }

  class FulfillService {
    const core: FlakyCore
    var dispatches: map<string, DispatchRow>

    constructor (core: FlakyCore)
      ensures this.core == core && dispatches == map[]
    {
      this.core, dispatches := core, map[];
    }

    /** fulfill. Only an op_id that is not recorded yet costs a rate-limit token. */
    method Fulfill(opId: string, order: P.OrderId, stage: State, now: real, roll: Roll,
                   others: map<string, DispatchRow>, detail: string) returns (reply: FulfillReply)
      modifies this`dispatches, core`winStart, core`winCount
      ensures FulfillEnds(core.forcedDown || now < core.autoDownUntil, Passes(core.rateLimit, old(core.Win()), now),
                          old(dispatches), dispatches, opId, order, stage, roll, others, detail, reply)
      ensures core.Win() == if reply.Unavailable? || opId in old(dispatches) then old(core.Win())
                            else Tick(old(core.Win()), now)
    {
      var down := core.IsDown(now);
      if down {
        return Unavailable;
      }
      if opId in dispatches {
        return Done(true, dispatches[opId].detail);
      }
      var limited := core.RateLimited(now);
      if limited {
        return OverLimit;
      }
      if roll == Error {
        return Broken(500);
      }
      if roll == Hang {
        return Broken(504);
      }
      dispatches := Joined(dispatches, others);
      var claimed := opId !in dispatches;
      dispatches := P.InsertIfAbsent(dispatches, opId, DispatchRow(order, stage, detail));
      return Done(!claimed, detail);
    }
  }

  /** The pipeline's table of the service that this step calls. */
  function DispatchesOf(db: P.Db, to: State): map<P.Op, P.Dispatch> {
    if StageDownstream(to) == Some(Restaurant) then db.kitchen else db.couriers
  }

  /** A dispatches table is that one, keyed by operation ids; the stored detail is not modelled there. */
  ghost predicate RepresentsDispatches(table: map<string, DispatchRow>, dispatches: map<P.Op, P.Dispatch>) {
    && (forall op: P.Op :: op in dispatches <==> OpId(op) in table)
    && (forall op: P.Op :: op in dispatches ==>
          table[OpId(op)].order == dispatches[op].order && table[OpId(op)].stage == dispatches[op].stage)
  }

  /** Fulfill's claim under the operation id of a restaurant or courier step is the effect of the
      pipeline model. */
  lemma DispatchIsEffect(table: map<string, DispatchRow>, db: P.Db, call: P.Call, declined: bool, intent: string,
                         detail: string)
    requires StageDownstream(call.op.to) == Some(Restaurant) || StageDownstream(call.op.to) == Some(Courier)
    requires RepresentsDispatches(table, DispatchesOf(db, call.op.to))
    ensures var row := DispatchRow(call.op.order, call.op.to, detail);
            RepresentsDispatches(P.InsertIfAbsent(table, OpId(call.op), row),
                                 DispatchesOf(P.EffectTx(db, call, declined, intent), call.op.to))
  {
    hide OpId;
    var row := DispatchRow(call.op.order, call.op.to, detail);
    var table' := P.InsertIfAbsent(table, OpId(call.op), row);
    var dispatches' := DispatchesOf(P.EffectTx(db, call, declined, intent), call.op.to);
    forall op: P.Op
      ensures op in dispatches' <==> OpId(op) in table'
      ensures op in dispatches' ==>
                table'[OpId(op)].order == dispatches'[op].order && table'[OpId(op)].stage == dispatches'[op].stage
    {
      if op != call.op { OtherOpId(call.op, op); }
    }
  }
}
