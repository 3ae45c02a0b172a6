/** The gateway's request path as the services run it: the idempotency stores, the response recorder, the
    middleware and the payment handler. One call of the middleware is one uninterrupted run of the
    protocol machine of module Idempotency. */
module Gateway {
  import opened Schema
  import opened Store
  import opened Idempotency
  import Pipeline
  import Services

  // ----- what the client sees -----

  class ResponseWriter {
    var code: Option<int>
    var body: Body
    var stored: Option<Stored>

    constructor ()
      ensures Unused()
    {
      code, body, stored := None, [], None;
    }

    predicate Unused()
      reads this
    {
      code.None? && body == [] && stored.None?
    }

    /** Only the first header is sent. */
    method WriteHeader(c: int)
      modifies this`code
      ensures code == if old(code).Some? then old(code) else Some(c)
    {
      if code.None? {
        code := Some(c);
      }
    }

    method Write(c: Chunk)
      modifies this`code, this`body
      ensures code == if old(code).Some? then old(code) else Some(200)
      ensures body == old(body) + [c]
    {
      WriteHeader(200);
      body := body + [c];
    }

    /** A replay: the stored bytes under the X-Idempotent-Replayed header. */
    method WriteStored(c: int, s: Stored)
      requires Unused()
      modifies this
      ensures code == Some(c) && body == [] && stored == Some(s)
    {
      WriteHeader(c);
      stored := Some(s);
    }

    method Error(c: int)
      requires Unused()
      modifies this`code, this`body
      ensures code == Some(c) && body == [Text(c)]
    {
      WriteHeader(c);
      Write(Text(c));
    }

    /** What a reply looks like to the client. */
    predicate Shows(r: Reply)
      reads this
    {
      match r
      case Fresh(c, b) => code == Some(c) && body == b && stored.None?
      case Replayed(c, s) => code == Some(c) && body == [] && stored == Some(s)
      case Refused(c) => code == Some(c) && body == [Text(c)] && stored.None?
    }
  }

  class ResponseRecorder {
    const w: ResponseWriter
    var statusCode: int
    var body: Body

    constructor (w: ResponseWriter)
      requires w.Unused()
      ensures this.w == w && Agrees() && body == []
    {
      this.w, statusCode, body := w, 200, [];
    }

    /** What was recorded is what was sent. */
    predicate Agrees()
      reads this, w
    {
      && body == w.body && w.stored.None?
      && (w.code == Some(statusCode) || (w.code.None? && statusCode == 200 && body == []))
    }

    /** A second header is recorded but not sent: the recorder keeps agreeing exactly when this is the
        first one or repeats it. */
    method WriteHeader(c: int)
      requires Agrees()
      modifies this`statusCode, w`code
      ensures statusCode == c && w.code == (if old(w.code).Some? then old(w.code) else Some(c))
      ensures Agrees() <==> old(w.code) == None || old(w.code) == Some(c)
    {
      statusCode := c;
      w.WriteHeader(c);
    }

    method Write(c: Chunk)
      requires Agrees()
      modifies this`body, w`code, w`body
      ensures body == old(body) + [c] && Agrees()
    {
      body := body + [c];
      w.Write(c);
    }
  }

  // ----- the stores -----

  class IdempotencyService {
    var records: map<Slot, Record>
    var locks: map<Slot, nat>

    constructor ()
      ensures records == map[] && locks == map[]
    {
      records, locks := map[], map[];
    }

    method AcquireLock(slot: Slot, now: nat, fault: bool, ackLost: bool) returns (acquired: bool, err: bool)
      modifies this`locks
      ensures locks == if fault then old(locks) else TryLock(old(locks), slot, now)
      ensures acquired && !err <==> !fault && !ackLost && !Held(old(locks), slot, now)
      ensures acquired && !err ==> locks == old(locks)[slot := now + 30]
    {
      if fault { return false, true; }
      acquired := !Held(locks, slot, now);
      if acquired {
        locks := locks[slot := now + LOCK_SECONDS];
      }
      err := ackLost;
    }

    method ReleaseLock(slot: Slot, fault: bool)
      modifies this`locks
      ensures locks == if fault then old(locks) else Unlock(old(locks), slot)
    {
      if !fault {
        locks := map k | k in locks && k != slot :: locks[k];
      }
    }

    method GetRecord(slot: Slot, fault: bool) returns (record: Option<Record>, err: bool)
      ensures err == fault
      ensures !err ==> record == if slot in records then Some(records[slot]) else None
    {
      err := fault;
      record := if slot in records then Some(records[slot]) else None;
    }

    method CreatePendingRecord(slot: Slot, fault: bool, ackLost: bool) returns (err: bool)
      modifies this`records
      ensures records == if fault || InsertPending(old(records), slot).None? then old(records)
              else InsertPending(old(records), slot).value
      ensures !err <==> !fault && !ackLost && InsertPending(old(records), slot).Some?
    {
      if fault || slot in records { return true; }
      records := records[slot := InProgress];
      return ackLost;
    }

    method CompleteRecord(slot: Slot, code: int, body: Body, fault: bool)
      modifies this`records
      ensures records == if fault then old(records) else Complete(old(records), slot, code, body)
      ensures !fault && slot in old(records) ==>
                records
                == old(records)[slot := Completed(code, if |body| == 1 && body[0].PaymentJson? then Json(body[0])
                                                        else Raw(body))]
    {
      if !fault && slot in records {
        var stored := Raw(body);
        if |body| == 1 && body[0].PaymentJson? {
          stored := Json(body[0]);
        }
        records := records[slot := Completed(code, stored)];
      }
    }
  }

  // ----- the handler -----

  function Slots(payments: map<PaymentId, Payment>): map<PaymentId, Slot> {
    map p | p in payments :: Slot(payments[p].merchant, payments[p].key)
  }

  lemma SlotIsKey(payments: map<PaymentId, Payment>, m: MerchantId, k: Key)
    ensures SlotTaken(Slots(payments), Slot(m, k)) <==> KeyTaken(payments, m, k)
  {
    if SlotTaken(Slots(payments), Slot(m, k)) {
      var p :| p in Slots(payments) && Slots(payments)[p] == Slot(m, k);
      assert payments[p].merchant == m && payments[p].key == k;
    }
    if KeyTaken(payments, m, k) {
      var p :| p in payments && payments[p].merchant == m && payments[p].key == k;
      assert Slots(payments)[p] == Slot(m, k);
    }
  }

  /** How a handler run ends: with a response, or in a panic before anything is written, with or without a
      payment. */
  datatype Course = Answers(outcome: Served, marked: bool, approved: bool) | Panics(paid: Option<PaymentId>)

  function AnswerCode(c: Course): int
    requires c.Answers?
  {
    match c.outcome
    case Refuse(code) => code
    case Inserted(_) => if c.marked then 201 else 500
    case AckLost(_) => 500
  }

  function Answer(c: Course): Body
    requires c.Answers?
  {
    if c.outcome.Inserted? && c.marked then [PaymentJson(c.outcome.p, c.approved)] else [Text(AnswerCode(c))]
  }

  predicate Pays(c: Course) {
    if c.Answers? then !c.outcome.Refuse? else c.paid.Some?
  }

  /** The payments table after a handler run. */
  ghost predicate Outcomes(before: map<PaymentId, Slot>, after: map<PaymentId, Slot>, slot: Slot, p: PaymentId,
                           c: Course) {
    && (if Pays(c) then p !in before && !SlotTaken(before, slot) && after == before[p := slot] else after == before)
    && (if c.Answers? then (if c.outcome.Refuse? then c.outcome.code in ERRORS else c.outcome.p == p)
        else c.paid.Some? ==> c.paid.value == p)
  }

  datatype Parsed = BadBody | Body(amount: int, currency: Currency, token: Token)

  /** Where the handler panics, if it does. */
  datatype PanicAt = Never | BeforePayment | BeforeAnswer

  /** The request, apart from its key, and what the world adds: whether the merchant's name is empty, the payment id
      generated, the bank's word, the faults of the database, the fate of the event, a panic. */
  datatype Input = Input(unnamed: bool, body: Parsed, p: PaymentId, approved: bool, faults: set<Statement>, lost: bool,
                         panic: PanicAt)

  /** Nothing stands in the way of this payment. */
  ghost predicate Payable(t: Tables, slot: Slot, x: Input) {
    && !x.unnamed && x.body.Body? && x.faults == {} && x.panic.Never?
    && Acceptable(t, x.p, slot.merchant, slot.key, x.body.amount, x.body.token)
  }

  class PaymentHandler {
    const svc: Services.PaymentService

    constructor (svc: Services.PaymentService)
      ensures this.svc == svc
    {
      this.svc := svc;
    }

    /** Response and payments table agree: see Outcomes and Answer. Every way to a refusal has its own code. */
    method CreatePayment(rec: ResponseRecorder, slot: Slot, x: Input) returns (panicked: bool, ghost c: Course)
      requires !svc.db.inTx && rec.Agrees() && rec.w.Unused()
      modifies svc.db, svc.log, rec, rec.w
      ensures !svc.db.inTx && svc.db.clock == old(svc.db.clock) && panicked == c.Panics?
      ensures if panicked then rec.w.Unused()
              else
                && rec.Agrees() && rec.w.code == Some(rec.statusCode)
                && rec.statusCode == AnswerCode(c) && rec.body == Answer(c)
      ensures Outcomes(Slots(old(svc.db.payments)), Slots(svc.db.payments), slot, x.p, c)
      ensures !panicked ==> (x.unnamed <==> c.outcome == Refuse(401))
      ensures !panicked ==> (!x.unnamed && x.body.BadBody? <==> c.outcome == Refuse(400))
      ensures old(Payable(svc.db.View(), slot, x)) ==> c == Answers(Inserted(x.p), true, x.approved)
      ensures x.panic.Never? ==> !panicked
    {
      if x.unnamed {
        rec.WriteHeader(401);
        rec.Write(Text(401));
        return false, Answers(Refuse(401), false, false);
      }
      if x.panic.BeforePayment? {
        return true, Panics(None);
      }
      if x.body == BadBody {
        rec.WriteHeader(400);
        rec.Write(Text(400));
        return false, Answers(Refuse(400), false, false);
      }
      panicked, c := Process(rec, slot, x);
    }

    method Process(rec: ResponseRecorder, slot: Slot, x: Input) returns (panicked: bool, ghost c: Course)
      requires x.body.Body? && !svc.db.inTx && rec.Agrees() && rec.w.Unused()
      modifies svc.db, svc.log, rec, rec.w
      ensures !svc.db.inTx && svc.db.clock == old(svc.db.clock) && panicked == c.Panics? == x.panic.BeforeAnswer?
      ensures if panicked then rec.w.Unused()
              else
                && rec.Agrees() && rec.w.code == Some(rec.statusCode)
                && rec.statusCode == AnswerCode(c) && rec.body == Answer(c)
      ensures Outcomes(Slots(old(svc.db.payments)), Slots(svc.db.payments), slot, x.p, c)
      ensures !panicked && c.outcome.Refuse? ==> c.outcome.code == 500
      ensures old(Payable(svc.db.View(), slot, x)) ==> c == Answers(Inserted(x.p), true, x.approved)
    {
      SlotIsKey(svc.db.payments, slot.merchant, slot.key);
      ghost var before := svc.db.payments;
      var req := Pipeline.Request(slot.merchant, x.body.amount, x.body.currency);
      var r, steps := svc.ProcessPayment(x.p, req, slot.key, x.body.token, x.approved, x.faults, x.lost);
      assert steps >= 1 ==> Slots(svc.db.payments) == Slots(before)[x.p := slot];
      hide Slots, KeyTaken, SlotTaken;
      panicked := x.panic.BeforeAnswer?;
      if panicked {
        return panicked, Panics(if steps == 0 then None else Some(x.p));
      }
      var served := if steps == 0 then Refuse(500) else if r.Accepted? then Inserted(x.p) else AckLost(x.p);
      c := Answers(served, r.Accepted?, x.approved);
      if r.Accepted? {
        rec.WriteHeader(201);
        rec.Write(PaymentJson(r.p, r.status == Created));
      } else {
        rec.WriteHeader(500);
        rec.Write(Text(500));
      }
    }
  }

  lemma PayableSlot(t: Tables, slot: Slot, x: Input)
    requires Payable(t, slot, x)
    ensures x.p !in Slots(t.payments) && !SlotTaken(Slots(t.payments), slot)
  {
    SlotIsKey(t.payments, slot.merchant, slot.key);
  }

  /** What the record of an earlier request makes of a later one. */
  function ReplyOf(record: Record): Reply {
    match record
    case InProgress => Refused(409)
    case Completed(code, stored) => Replayed(code, stored)
  }

  // ----- the middleware -----

  /** What can go wrong around the handler. */
  datatype Faults = Faults(check: bool, lock: bool, lockAckLost: bool, pend: bool, pendAckLost: bool, finish: bool,
                           release: bool)

  const NO_FAULTS: Faults := Faults(false, false, false, false, false, false, false)

  /** The two machine steps of a handler run. */
  function FirstStep(r: RequestId, c: Course): Action {
    match c
    case Answers(outcome, _, _) => Serve(r, outcome)
    case Panics(Some(p)) => Serve(r, Inserted(p))
    case Panics(None) => Panic(r)
  }

  function SecondStep(r: RequestId, c: Course): Action {
    if c.Answers? then Mark(r, c.approved, !c.marked) else Panic(r)
  }

  /** The steps one request takes. A step that does not apply where the request is changes nothing. */
  function Script(r: RequestId, slot: Slot, f: Faults, c: Course): seq<Action> {
    [Arrive(r, slot), Check(r, f.check), Lock(r, f.lock, f.lockAckLost), Pend(r, f.pend, f.pendAckLost),
     FirstStep(r, c), SecondStep(r, c), Finish(r, f.finish), Release(r, f.release)]
  }

  lemma RunOf(s: State, a: seq<Action>, k: nat)
    requires k < |a|
    ensures Exec(s, a[..k + 1]) == Apply(Exec(s, a[..k]), a[k])
  {
    assert a[..k + 1][..k] == a[..k];
  }

  /** Once a request has left, the rest of its script does nothing. */
  lemma {:induction false} RestIsIdle(s: State, r: RequestId, slot: Slot, f: Faults, c: Course, k: nat)
    requires k <= 8 && At(Exec(s, Script(r, slot, f, c)[..k]), r, Finished)
    ensures Exec(s, Script(r, slot, f, c)) == Exec(s, Script(r, slot, f, c)[..k])
    decreases 8 - k
  {
    var a := Script(r, slot, f, c);
    if k == 8 {
      assert a[..8] == a;
    } else {
      RunOf(s, a, k);
      assert Apply(Exec(s, a[..k]), a[k]) == Exec(s, a[..k]);
      RestIsIdle(s, r, slot, f, c, k + 1);
    }
  }

  /** The stores as the machine sees them. */
  ghost function Seen(now: nat, records: map<Slot, Record>, locks: map<Slot, nat>, payments: map<PaymentId, Payment>,
                      reqs: map<RequestId, Request>): State {
    State(now, records, locks, Slots(payments), reqs)
  }

  /** Request 0 is at this place, with this reply. */
  ghost predicate Alone(t: State, slot: Slot, pc: Pc, reply: Option<Reply>) {
    0 in t.reqs && t.reqs[0].slot == slot && t.reqs[0].pc == pc && t.reqs[0].reply == reply
  }

  /** The handler's two steps and the completion. */
  ghost function Handling(t: State, f: Faults, c: Course): State {
    Apply(Apply(Apply(t, FirstStep(0, c)), SecondStep(0, c)), Finish(0, f.finish))
  }

  /** The pending insert refused: nothing after it applies. */
  lemma RefusedRun(t: State, slot: Slot, f: Faults)
    requires Alone(t, slot, Pending, None) && (f.pend || f.pendAckLost || slot in t.records)
    ensures var t1 := Apply(t, Pend(0, f.pend, f.pendAckLost));
            && Alone(t1, slot, Releasing, Some(Refused(500))) && t1.locks == t.locks && t1.payments == t.payments
               && t1.now == t.now
            && t1.records == (if f.pend || slot in t.records then t.records else t.records[slot := InProgress])
            && Handling(t1, f, Panics(None)) == t1
  {
  }

  lemma PendingRun(t: State, slot: Slot, f: Faults)
    requires Alone(t, slot, Pending, None) && !f.pend && !f.pendAckLost && slot !in t.records
    ensures var t1 := Apply(t, Pend(0, f.pend, f.pendAckLost));
            && Alone(t1, slot, Serving, None) && t1.locks == t.locks && t1.payments == t.payments && t1.now == t.now
            && t1.records == t.records[slot := InProgress]
  {
  }

  lemma AnsweringRun(t: State, slot: Slot, after: map<PaymentId, Slot>, p: PaymentId, c: Course)
    requires Alone(t, slot, Serving, None) && Outcomes(t.payments, after, slot, p, c) && c.Answers?
    ensures var t2 := Apply(Apply(t, FirstStep(0, c)), SecondStep(0, c));
            && Alone(t2, slot, Completing, Some(Fresh(AnswerCode(c), Answer(c))))
            && t2.locks == t.locks && t2.records == t.records && t2.payments == after && t2.now == t.now
  {
    var t1 := Apply(t, FirstStep(0, c));
    assert t1.payments == after && t1.locks == t.locks && t1.records == t.records && t1.now == t.now;
    if c.outcome.Inserted? {
      assert Alone(t1, slot, Marking(p), None);
    } else {
      assert Alone(t1, slot, Completing, Some(Fresh(AnswerCode(c), Answer(c))));
    }
  }

  lemma FinishRun(t: State, slot: Slot, code: int, body: Body, fault: bool)
    requires Alone(t, slot, Completing, Some(Fresh(code, body)))
    ensures var t' := Apply(t, Finish(0, fault));
            && Alone(t', slot, Releasing, Some(Fresh(code, body)))
            && t'.locks == t.locks && t'.payments == t.payments && t'.now == t.now
            && t'.records == (if fault then t.records else Complete(t.records, slot, code, body))
  {
  }

  /** After a panic nothing is completed: the record stays in progress. */
  lemma PanicRun(t: State, slot: Slot, f: Faults, after: map<PaymentId, Slot>, p: PaymentId, c: Course)
    requires Alone(t, slot, Serving, None) && Outcomes(t.payments, after, slot, p, c) && c.Panics?
    ensures var t' := Handling(t, f, c);
            && Alone(t', slot, Releasing, None) && t'.locks == t.locks && t'.records == t.records
               && t'.payments == after
            && t'.now == t.now
  {
    var t1 := Apply(t, FirstStep(0, c));
    assert t1.payments == after && t1.locks == t.locks && t1.records == t.records && t1.now == t.now;
    if c.paid.Some? {
      assert Alone(t1, slot, Marking(p), None);
    } else {
      assert Alone(t1, slot, Releasing, None);
    }
  }

  lemma ScriptUnfolds(s: State, slot: Slot, f: Faults, c: Course)
    ensures var a := Script(0, slot, f, c);
            var t3 := Apply(Apply(Apply(s, a[0]), a[1]), a[2]);
            && Exec(s, a[..2]) == Apply(Apply(s, a[0]), a[1]) && Exec(s, a[..3]) == t3
            && Exec(s, a) == Apply(Handling(Apply(t3, a[3]), f, c), a[7])
  {
    hide Apply, FirstStep, SecondStep;
    var a := Script(0, slot, f, c);
    RunOf(s, a, 0);
    RunOf(s, a, 1);
    RunOf(s, a, 2);
    RunOf(s, a, 3);
    RunOf(s, a, 4);
    RunOf(s, a, 5);
    RunOf(s, a, 6);
    RunOf(s, a, 7);
    assert a[..8] == a;
  }

  /** The whole script, for a request that gets past the lock. */
  lemma RunsOn(s: State, slot: Slot, f: Faults, c: Course)
    ensures var t2 := Apply(Apply(s, Arrive(0, slot)), Check(0, f.check));
            var t3 := Apply(t2, Lock(0, f.lock, f.lockAckLost));
            Exec(s, Script(0, slot, f, c))
            == Apply(Handling(Apply(t3, Pend(0, f.pend, f.pendAckLost)), f, c), Release(0, f.release))
  {
    hide Apply, Exec, Handling;
    ScriptUnfolds(s, slot, f, c);
  }

  /** Arriving and checking: refused, replayed or sent on to the lock. */
  lemma CheckRun(s: State, slot: Slot, fault: bool)
    requires s.reqs == map[]
    ensures var t := Apply(Apply(s, Arrive(0, slot)), Check(0, fault));
            && t.(reqs := map[]) == s
            && (fault ==> Alone(t, slot, Finished, Some(Refused(500))))
            && (!fault && slot !in s.records ==> Alone(t, slot, Locking, None))
            && (!fault && slot in s.records && s.records[slot].InProgress? ==>
                Alone(t, slot, Finished, Some(Refused(409))))
            && (!fault && slot in s.records && s.records[slot].Completed? ==>
                  Alone(t, slot, Finished, Some(Replayed(s.records[slot].code, s.records[slot].body))))
  {
  }

  lemma LockRun(t: State, slot: Slot, fault: bool, ackLost: bool)
    requires Alone(t, slot, Locking, None)
    ensures var t' := Apply(t, Lock(0, fault, ackLost));
            && t'.records == t.records && t'.payments == t.payments && t'.now == t.now
            && t'.locks == (if fault then t.locks else TryLock(t.locks, slot, t.now))
            && (if fault || ackLost || Held(t.locks, slot, t.now) then Alone(t', slot, Finished, Some(Refused(409)))
                else Alone(t', slot, Pending, None))
  {
  }

  lemma ReleaseRun(t: State, slot: Slot, reply: Option<Reply>, fault: bool)
    requires Alone(t, slot, Releasing, reply)
    ensures var t' := Apply(t, Release(0, fault));
            && t'.records == t.records && t'.payments == t.payments && t'.now == t.now
            && t'.locks == (if fault then t.locks else Unlock(t.locks, slot)) && Alone(t', slot, Finished, reply)
  {
  }

  lemma EndsAtCheck(s: State, slot: Slot, f: Faults, c: Course)
    requires At(Apply(Apply(s, Arrive(0, slot)), Check(0, f.check)), 0, Finished)
    ensures Exec(s, Script(0, slot, f, c)) == Apply(Apply(s, Arrive(0, slot)), Check(0, f.check))
  {
    ScriptUnfolds(s, slot, f, c);
    hide Apply, Exec, Handling;
    RestIsIdle(s, 0, slot, f, c, 2);
  }

  lemma EndsAtLock(s: State, slot: Slot, f: Faults, c: Course)
    requires At(Apply(Apply(Apply(s, Arrive(0, slot)), Check(0, f.check)), Lock(0, f.lock, f.lockAckLost)), 0, Finished)
    ensures Exec(s, Script(0, slot, f, c))
            == Apply(Apply(Apply(s, Arrive(0, slot)), Check(0, f.check)), Lock(0, f.lock, f.lockAckLost))
  {
    ScriptUnfolds(s, slot, f, c);
    hide Apply, Exec, Handling;
    RestIsIdle(s, 0, slot, f, c, 3);
  }

  lemma FirstCallPays(s: State, slot: Slot, p: PaymentId, approved: bool)
    requires s.reqs == map[] && slot !in s.records && !Held(s.locks, slot, s.now)
    requires p !in s.payments && !SlotTaken(s.payments, slot)
    ensures var t := Exec(s, Script(0, slot, NO_FAULTS, Answers(Inserted(p), true, approved)));
            && t.payments == s.payments[p := slot] && t.now == s.now && slot !in t.locks
            && Alone(t, slot, Finished, Some(Fresh(201, [PaymentJson(p, approved)])))
            && slot in t.records && t.records[slot] == Completed(201, Json(PaymentJson(p, approved)))
  {
    hide Apply, Exec, TryLock, SlotTaken, Handling, Script, Held;
    var pays := Answers(Inserted(p), true, approved);
    CheckRun(s, slot, false);
    var t2 := Apply(Apply(s, Arrive(0, slot)), Check(0, false));
    LockRun(t2, slot, false, false);
    var t3 := Apply(t2, Lock(0, false, false));
    PendingRun(t3, slot, NO_FAULTS);
    var t4 := Apply(t3, Pend(0, false, false));
    HandlingPays(t4, slot, p, approved);
    ReleaseRun(Handling(t4, NO_FAULTS, pays), slot, Some(Fresh(201, [PaymentJson(p, approved)])), false);
    PayingScript(s, slot, p, approved);
  }

  lemma HandlingPays(t: State, slot: Slot, p: PaymentId, approved: bool)
    requires Alone(t, slot, Serving, None) && slot in t.records && p !in t.payments && !SlotTaken(t.payments, slot)
    ensures var u := Handling(t, NO_FAULTS, Answers(Inserted(p), true, approved));
            && Alone(u, slot, Releasing, Some(Fresh(201, [PaymentJson(p, approved)])))
            && u.payments == t.payments[p := slot] && u.locks == t.locks && u.now == t.now
            && u.records == t.records[slot := Completed(201, Json(PaymentJson(p, approved)))]
  {
    hide Apply, SlotTaken;
    var pays := Answers(Inserted(p), true, approved);
    AnsweringRun(t, slot, t.payments[p := slot], p, pays);
    FinishRun(Apply(Apply(t, FirstStep(0, pays)), SecondStep(0, pays)), slot, 201, [PaymentJson(p, approved)], false);
  }

  lemma PayingScript(s: State, slot: Slot, p: PaymentId, approved: bool)
    ensures var pays := Answers(Inserted(p), true, approved);
            Exec(s, Script(0, slot, NO_FAULTS, pays))
            == Apply(Handling(Apply(Apply(Apply(Apply(s, Arrive(0, slot)), Check(0, false)), Lock(0, false, false)),
                                    Pend(0, false, false)), NO_FAULTS, pays), Release(0, false))
  {
    hide Apply, Exec, Handling;
    ScriptUnfolds(s, slot, NO_FAULTS, Answers(Inserted(p), true, approved));
  }

  /** What a payable request is told. */
  lemma PaidReply(s: State, t: Tables, slot: Slot, x: Input)
    requires Payable(t, slot, x) && s.payments == Slots(t.payments) && s.reqs == map[]
    requires slot !in s.records && !Held(s.locks, slot, s.now)
    ensures var u := Exec(s, Script(0, slot, NO_FAULTS, Answers(Inserted(x.p), true, x.approved)));
            0 in u.reqs && u.reqs[0].reply == Some(Fresh(201, [PaymentJson(x.p, x.approved)]))
  {
    PayableSlot(t, slot, x);
    hide Exec, Script, SlotTaken, Slots, Held, Payable;
    FirstCallPays(s, slot, x.p, x.approved);
  }

  /** A first call without faults pays and frees the lock; a retry, whatever else goes wrong in it, changes
      nothing and answers with the payment of the first call. */
  lemma RetryReplays(s: State, slot: Slot, p: PaymentId, approved: bool, f: Faults, c: Course)
    requires s.reqs == map[] && slot !in s.records && !Held(s.locks, slot, s.now)
    requires p !in s.payments && !SlotTaken(s.payments, slot) && !f.check
    ensures var t := Exec(s, Script(0, slot, NO_FAULTS, Answers(Inserted(p), true, approved)));
            && t.payments == s.payments[p := slot] && !Held(t.locks, slot, t.now)
            && Got(t, 0, Fresh(201, [PaymentJson(p, approved)]))
            && var t' := Exec(t.(reqs := map[]), Script(0, slot, f, c));
            t'.(reqs := t.reqs) == t && Got(t', 0, Replayed(201, Json(PaymentJson(p, approved))))
  {
    FirstCallPays(s, slot, p, approved);
    hide Apply, Exec, SlotTaken, Script;
    var again := Exec(s, Script(0, slot, NO_FAULTS, Answers(Inserted(p), true, approved))).(reqs := map[]);
    CheckRun(again, slot, false);
    EndsAtCheck(again, slot, f, c);
  }

  /** What the client sees of request 0: its reply, or nothing yet if it panicked. */
  ghost predicate Told(t: State, w: ResponseWriter)
    reads w
  {
    0 in t.reqs && if t.reqs[0].reply.Some? then w.Shows(t.reqs[0].reply.value) else w.Unused()
  }

  /** The stores and the client's response are those of machine state t. */
  ghost predicate Ran(t: State, w: ResponseWriter, svc: IdempotencyService, db: Database)
    reads w, svc, db
  {
    t == Seen(db.clock, svc.records, svc.locks, db.payments, t.reqs) && Told(t, w)
  }

  class Middleware {
    const svc: IdempotencyService
    const next: PaymentHandler

    constructor (svc: IdempotencyService, next: PaymentHandler)
      ensures this.svc == svc && this.next == next
    {
      this.svc, this.next := svc, next;
    }

    /** A lock of this merchant and key has not expired. */
    predicate LockedNow(slot: Slot)
      reads svc, next.svc.db
    {
      slot in svc.locks && next.svc.db.clock < svc.locks[slot]
    }

    lemma HeldIsLocked(slot: Slot)
      ensures Held(svc.locks, slot, next.svc.db.clock) <==> LockedNow(slot)
    {
    }

    /** The handler behind the recorder, and the completion unless it panics. t is the machine after the pending
        insert. */
    method Served(w: ResponseWriter, slot: Slot, x: Input, f: Faults, ghost t: State)
      returns (ghost c: Course, ghost t': State)
      requires !next.svc.db.inTx && w.Unused()
      requires t == Seen(next.svc.db.clock, svc.records, svc.locks, next.svc.db.payments, t.reqs)
               && Alone(t, slot, Serving, None)
      modifies svc`records, next.svc.db, next.svc.log, w
      ensures !next.svc.db.inTx && next.svc.db.clock == old(next.svc.db.clock)
      ensures t' == Handling(t, f, c) && Ran(t', w, svc, next.svc.db)
      ensures At(t', 0, Releasing) && t'.reqs[0].slot == slot && (c.Panics? <==> t'.reqs[0].reply.None?)
      ensures x.panic.Never? ==> c.Answers?
      ensures old(Payable(next.svc.db.View(), slot, x)) ==>
              c == Answers(Inserted(x.p), true, x.approved)
    {
      hide Apply, Payable, Outcomes, Answer, AnswerCode, Slots, Complete;
      var recorder := new ResponseRecorder(w);
      var panicked;
      panicked, c := next.CreatePayment(recorder, slot, x);
      t' := Handling(t, f, c);
      if panicked {
        PanicRun(t, slot, f, Slots(next.svc.db.payments), x.p, c);
        return;
      }
      AnsweringRun(t, slot, Slots(next.svc.db.payments), x.p, c);
      svc.CompleteRecord(slot, recorder.statusCode, recorder.body, f.finish);
      FinishRun(Apply(Apply(t, FirstStep(0, c)), SecondStep(0, c)), slot, recorder.statusCode, recorder.body, f.finish);
    }

    /** From the pending insert on, while the lock is held. t is the machine after the first three steps. */
    method Locked(w: ResponseWriter, slot: Slot, x: Input, f: Faults, ghost t: State)
      returns (ghost c: Course, ghost t': State)
      requires !next.svc.db.inTx && w.Unused()
      requires t == Seen(next.svc.db.clock, svc.records, svc.locks, next.svc.db.payments, t.reqs)
               && Alone(t, slot, Pending, None)
      modifies svc`records, next.svc.db, next.svc.log, w
      ensures !next.svc.db.inTx && next.svc.db.clock == old(next.svc.db.clock)
      ensures t' == Handling(Apply(t, Pend(0, f.pend, f.pendAckLost)), f, c) && Ran(t', w, svc, next.svc.db)
      ensures At(t', 0, Releasing) && t'.reqs[0].slot == slot
      ensures x.panic.Never? ==> t'.reqs[0].reply.Some?
      ensures f == NO_FAULTS && slot !in t.records && old(Payable(next.svc.db.View(), slot, x)) ==>
                c == Answers(Inserted(x.p), true, x.approved)
    {
      ghost var t1 := Apply(t, Pend(0, f.pend, f.pendAckLost));
      if f.pend || f.pendAckLost || slot in svc.records { RefusedRun(t, slot, f); } else { PendingRun(t, slot, f); }
      hide Apply, Payable, Handling, Slots;
      var err := svc.CreatePendingRecord(slot, f.pend, f.pendAckLost);
      if err {
        w.Error(500);
        return Panics(None), t1;
      }
      c, t' := Served(w, slot, x, f, t1);
    }

    /** From the lock to its deferred release. t is the machine after the check. */
    method Guarded(w: ResponseWriter, slot: Slot, x: Input, f: Faults, ghost t: State)
      returns (acquired: bool, ghost c: Course, ghost t': State)
      requires !next.svc.db.inTx && w.Unused()
      requires t == Seen(next.svc.db.clock, svc.records, svc.locks, next.svc.db.payments, t.reqs)
               && Alone(t, slot, Locking, None)
      modifies svc, next.svc.db, next.svc.log, w
      ensures !next.svc.db.inTx && Ran(t', w, svc, next.svc.db) && At(t', 0, Finished)
      ensures var t3 := Apply(t, Lock(0, f.lock, f.lockAckLost));
              t' == if acquired then Apply(Handling(Apply(t3, Pend(0, f.pend, f.pendAckLost)), f, c),
                                           Release(0, f.release)) else t3
      ensures acquired <==> !f.lock && !f.lockAckLost && !Held(t.locks, slot, t.now)
      ensures !acquired ==> w.Shows(Refused(409))
      ensures x.panic.Never? ==> t'.reqs[0].reply.Some?
      ensures (f == NO_FAULTS && slot !in t.records && acquired
               && old(Payable(next.svc.db.View(), slot, x))) ==>
                c == Answers(Inserted(x.p), true, x.approved)
    {
      LockRun(t, slot, f.lock, f.lockAckLost);
      hide Apply, Payable, Slots, Held, TryLock, Unlock, Handling;
      t' := Apply(t, Lock(0, f.lock, f.lockAckLost));
      var err;
      acquired, err := svc.AcquireLock(slot, next.svc.db.clock, f.lock, f.lockAckLost);
      acquired := acquired && !err;
      if !acquired {
        w.Error(409);
        return acquired, Panics(None), t';
      }
      ghost var t7;
      c, t7 := Locked(w, slot, x, f, t');
      ReleaseRun(t7, slot, t7.reqs[0].reply, f.release);
      svc.ReleaseLock(slot, f.release);
      t' := Apply(t7, Release(0, f.release));
    }

    /** A POST with a key, from an authenticated merchant. */
    method Keyed(w: ResponseWriter, slot: Slot, x: Input, f: Faults) returns (ghost c: Course)
      requires !next.svc.db.inTx && w.Unused()
      modifies svc, next.svc.db, next.svc.log, w
      ensures !next.svc.db.inTx
      ensures var s := Seen(old(next.svc.db.clock), old(svc.records), old(svc.locks), old(next.svc.db.payments), map[]);
              Ran(Exec(s, Script(0, slot, f, c)), w, svc, next.svc.db)
      ensures x.panic.Never? ==> !w.Unused()
      ensures !f.check && slot in old(svc.records) ==> w.Shows(ReplyOf(old(svc.records)[slot]))
      ensures !f.check && slot !in old(svc.records) && old(LockedNow(slot)) ==> w.Shows(Refused(409))
      ensures f == NO_FAULTS && slot !in old(svc.records) && !old(LockedNow(slot))
              && old(Payable(next.svc.db.View(), slot, x)) ==>
                w.Shows(Fresh(201, [PaymentJson(x.p, x.approved)]))
                && c == Answers(Inserted(x.p), true, x.approved)
    {
      hide Apply, Payable, Exec, Slots, Handling, Held;
      c := Panics(None);
      ghost var s := Seen(next.svc.db.clock, svc.records, svc.locks, next.svc.db.payments, map[]);
      CheckRun(s, slot, f.check);
      var record, err := svc.GetRecord(slot, f.check);
      if err || record.Some? {
        EndsAtCheck(s, slot, f, c);
        if err {
          w.Error(500);
        } else if record.value.Completed? {
          w.WriteStored(record.value.code, record.value.body);
        } else {
          w.Error(409);
        }
        return;
      }
      c := Unrecorded(w, slot, x, f, s);
    }

    /** The rest of it for a key without a record. s is the machine before the request arrives. */
    method Unrecorded(w: ResponseWriter, slot: Slot, x: Input, f: Faults, ghost s: State) returns (ghost c: Course)
      requires !next.svc.db.inTx && w.Unused() && !f.check && slot !in svc.records
      requires s == Seen(next.svc.db.clock, svc.records, svc.locks, next.svc.db.payments, map[])
      modifies svc, next.svc.db, next.svc.log, w
      ensures !next.svc.db.inTx && Ran(Exec(s, Script(0, slot, f, c)), w, svc, next.svc.db)
      ensures x.panic.Never? ==> !w.Unused()
      ensures old(LockedNow(slot)) ==> w.Shows(Refused(409))
      ensures f == NO_FAULTS && !old(LockedNow(slot)) && old(Payable(next.svc.db.View(), slot, x)) ==>
                w.Shows(Fresh(201, [PaymentJson(x.p, x.approved)]))
                && c == Answers(Inserted(x.p), true, x.approved)
    {
      hide Apply, Payable, Exec, Slots, Handling, Answer, Script, Held;
      HeldIsLocked(slot);
      if Payable(next.svc.db.View(), slot, x) && !LockedNow(slot) {
        PaidReply(s, next.svc.db.View(), slot, x);
      }
      CheckRun(s, slot, false);
      ghost var t2 := Apply(Apply(s, Arrive(0, slot)), Check(0, false));
      var acquired;
      ghost var t';
      acquired, c, t' := Guarded(w, slot, x, f, t2);
      if acquired {
        RunsOn(s, slot, f, c);
      } else {
        EndsAtLock(s, slot, f, c);
      }
    }

    /** One request through the middleware. With a POST, a key and a merchant, the stores and the reply are exactly
        those of the request's script on the protocol machine, whatever fails, panics included: then the lock is
        released and nothing is written. Otherwise nothing is touched. */
    method ServeHTTP(w: ResponseWriter, post: bool, key: Option<Key>, merchant: Option<MerchantId>, x: Input, f: Faults)
      returns (passedOn: bool, ghost c: Course)
      requires !next.svc.db.inTx && w.Unused()
      modifies svc, next.svc.db, next.svc.log, w
      ensures !next.svc.db.inTx && passedOn == !post
      ensures !post || key.None? || merchant.None? ==>
                svc.records == old(svc.records) && svc.locks == old(svc.locks)
                  && next.svc.db.View() == old(next.svc.db.View())
      ensures passedOn ==> w.Unused()
      ensures post && key.None? ==> w.Shows(Refused(400))
      ensures post && key.Some? && merchant.None? ==> w.Shows(Refused(401))
      ensures post && key.Some? && merchant.Some? ==>
                var slot := Slot(merchant.value, key.value);
                var s := Seen(old(next.svc.db.clock), old(svc.records), old(svc.locks), old(next.svc.db.payments),
                              map[]);
                Ran(Exec(s, Script(0, slot, f, c)), w, svc, next.svc.db)
      ensures post && x.panic.Never? ==> !w.Unused()
      ensures post && key.Some? && merchant.Some? && !f.check ==>
                var slot := Slot(merchant.value, key.value);
                && (slot in old(svc.records) ==> w.Shows(ReplyOf(old(svc.records)[slot])))
                && (slot !in old(svc.records) && old(LockedNow(slot)) ==> w.Shows(Refused(409)))
                && (f == NO_FAULTS && slot !in old(svc.records) && !old(LockedNow(slot))
                    && old(Payable(next.svc.db.View(), slot, x)) ==>
                      && w.Shows(Fresh(201, [PaymentJson(x.p, x.approved)]))
                      && c == Answers(Inserted(x.p), true, x.approved))
    {
      c := Panics(None);
      if !post {
        return true, c;
      }
      passedOn := false;
      if key.None? {
        w.Error(400);
      } else if merchant.None? {
        w.Error(401);
      } else {
        c := Keyed(w, Slot(merchant.value, key.value), x, f);
      }
    }
  }
}
