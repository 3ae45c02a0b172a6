/** The idempotency protocol of the gateway as interleaved atomic actions: check, lock, insert pending,
    serve, complete, release. Any number of requests run at once; each can fail, panic or crash between
    any two actions; the lock table can lose or gain entries at any moment (expiry, eviction, a release
    of somebody else's lock). */
module Idempotency {
  import opened Schema

  type RequestId = nat

  datatype Slot = Slot(merchant: MerchantId, key: Key)

  /** One piece of a response body: the JSON of a payment, or the plain text of an error. */
  datatype Chunk = PaymentJson(p: PaymentId, approved: bool) | Text(code: int)

  type Body = seq<Chunk>

  /** What is stored: the parsed JSON document, or the raw bytes wrapped in an object. */
  datatype Stored = Json(doc: Chunk) | Raw(bytes: Body)

  datatype Record = InProgress | Completed(code: int, body: Stored)

  const LOCK_SECONDS: nat := 30

  function Normalise(b: Body): Stored {
    if |b| == 1 && b[0].PaymentJson? then Json(b[0]) else Raw(b)
  }

  // ----- the atomic actions on the two stores -----

  function Held(locks: map<Slot, nat>, slot: Slot, now: nat): bool {
    slot in locks && now < locks[slot]
  }

  /** SETNX with an expiry. */
  function TryLock(locks: map<Slot, nat>, slot: Slot, now: nat): map<Slot, nat> {
    if Held(locks, slot, now) then locks else locks[slot := now + LOCK_SECONDS]
  }

  function Unlock(locks: map<Slot, nat>, slot: Slot): map<Slot, nat> {
    locks - {slot}
  }

  /** INSERT under the primary key (merchant, key). */
  function InsertPending(records: map<Slot, Record>, slot: Slot): Option<map<Slot, Record>> {
    if slot in records then None else Some(records[slot := InProgress])
  }

  /** UPDATE ... WHERE merchant_id and key: whatever the row's status. */
  function Complete(records: map<Slot, Record>, slot: Slot, code: int, body: Body): map<Slot, Record> {
    if slot in records then records[slot := Completed(code, Normalise(body))] else records
  }

  // ----- requests -----

  datatype Reply = Fresh(code: int, body: Body) | Replayed(code: int, stored: Stored) | Refused(code: int)

  datatype Pc =
    | Checking | Locking | Pending | Serving | Marking(p: PaymentId) | Completing | Releasing | Finished | Dead

  /** served: the handler has been entered. created: the payment row it inserted. */
  datatype Request = Request(slot: Slot, pc: Pc, served: bool, created: Option<PaymentId>, reply: Option<Reply>)

  datatype State = State(now: nat, records: map<Slot, Record>, locks: map<Slot, nat>,
                         payments: map<PaymentId, Slot>, reqs: map<RequestId, Request>)

  /** The handler refuses, or commits a payment and is told so, or commits one and is told it failed. */
  datatype Served = Refuse(code: int) | Inserted(p: PaymentId) | AckLost(p: PaymentId)

  /** Bad body, no merchant, any service error. */
  const ERRORS: set<int> := {400, 401, 500}

  datatype Action =
    | Wait(seconds: nat)
    | LocksChange(locks: map<Slot, nat>)
    | Arrive(r: RequestId, slot: Slot)
    | Check(r: RequestId, fault: bool)
    | Lock(r: RequestId, fault: bool, ackLost: bool)
    | Pend(r: RequestId, fault: bool, ackLost: bool)
    | Serve(r: RequestId, outcome: Served)
    | Mark(r: RequestId, approved: bool, fault: bool)
    | Panic(r: RequestId)
    | Finish(r: RequestId, fault: bool)
    | Release(r: RequestId, fault: bool)
    | Crash(r: RequestId)

  predicate At(s: State, r: RequestId, pc: Pc) {
    r in s.reqs && s.reqs[r].pc == pc
  }

  predicate HasFresh(q: Request) {
    q.reply.Some? && q.reply.value.Fresh?
  }

  function Move(s: State, r: RequestId, q: Request): State {
    s.(reqs := s.reqs[r := q])
  }

  function Fail(q: Request, code: int): Request {
    q.(pc := Completing, reply := Some(Fresh(code, [Text(code)])))
  }

  function SlotTaken(payments: map<PaymentId, Slot>, slot: Slot): bool {
    exists p :: p in payments && payments[p] == slot
  }

  /** The middleware reads the record before it locks anything. */
  function CheckAct(s: State, r: RequestId, fault: bool): State
    requires At(s, r, Checking)
  {
    var q := s.reqs[r];
    if fault then Move(s, r, q.(pc := Finished, reply := Some(Refused(500))))
    else if q.slot !in s.records then Move(s, r, q.(pc := Locking))
    else
      Move(s, r, q.(pc := Finished, reply := Some(
        if s.records[q.slot].Completed? then Replayed(s.records[q.slot].code, s.records[q.slot].body)
          else Refused(409))))
  }

  function LockAct(s: State, r: RequestId, fault: bool, ackLost: bool): State
    requires At(s, r, Locking)
  {
    var q := s.reqs[r];
    var refused := q.(pc := Finished, reply := Some(Refused(409)));
    if fault || Held(s.locks, q.slot, s.now) then Move(s, r, refused)
    else Move(s.(locks := TryLock(s.locks, q.slot, s.now)), r, if ackLost then refused else q.(pc := Pending))
  }

  function PendAct(s: State, r: RequestId, fault: bool, ackLost: bool): State
    requires At(s, r, Pending)
  {
    var q := s.reqs[r];
    var failed := q.(pc := Releasing, reply := Some(Refused(500)));
    var records := InsertPending(s.records, q.slot);
    if fault || records.None? then Move(s, r, failed)
    else Move(s.(records := records.value), r, if ackLost then failed else q.(pc := Serving, served := true))
  }

  function ServeAct(s: State, r: RequestId, outcome: Served): State
    requires At(s, r, Serving)
  {
    var q := s.reqs[r];
    if outcome.Refuse? then (if outcome.code in ERRORS then Move(s, r, Fail(q, outcome.code)) else s)
    else if outcome.p in s.payments then s
    else if SlotTaken(s.payments, q.slot) then Move(s, r, Fail(q, 500))
    else
      var s' := s.(payments := s.payments[outcome.p := q.slot]);
      var done := q.(created := Some(outcome.p));
      Move(s', r, if outcome.Inserted? then done.(pc := Marking(outcome.p)) else Fail(done, 500))
  }

  /** The status update after the payment is committed, then the 201. */
  function MarkAct(s: State, r: RequestId, approved: bool, fault: bool): State
    requires r in s.reqs && s.reqs[r].pc.Marking?
  {
    var q := s.reqs[r];
    if fault then Move(s, r, Fail(q, 500))
    else Move(s, r, q.(pc := Completing, reply := Some(Fresh(201, [PaymentJson(q.pc.p, approved)]))))
  }

  function FinishAct(s: State, r: RequestId, fault: bool): State
    requires At(s, r, Completing) && HasFresh(s.reqs[r])
  {
    var q := s.reqs[r];
    var s' := if fault then s else s.(records := Complete(s.records, q.slot, q.reply.value.code, q.reply.value.body));
    Move(s', r, q.(pc := Releasing))
  }

  /** The deferred release deletes the lock whoever holds it. */
  function ReleaseAct(s: State, r: RequestId, fault: bool): State
    requires At(s, r, Releasing)
  {
    Move(if fault then s else s.(locks := Unlock(s.locks, s.reqs[r].slot)), r, s.reqs[r].(pc := Finished))
  }

  function Apply(s: State, a: Action): State {
    match a
    case Wait(d) => s.(now := s.now + d)
    case LocksChange(locks) => s.(locks := locks)
    case Arrive(r, slot) => if r in s.reqs then s else Move(s, r, Request(slot, Checking, false, None, None))
    case Check(r, fault) => if At(s, r, Checking) then CheckAct(s, r, fault) else s
    case Lock(r, fault, ackLost) => if At(s, r, Locking) then LockAct(s, r, fault, ackLost) else s
    case Pend(r, fault, ackLost) => if At(s, r, Pending) then PendAct(s, r, fault, ackLost) else s
    case Serve(r, outcome) => if At(s, r, Serving) then ServeAct(s, r, outcome) else s
    case Mark(r, approved, fault) => if r in s.reqs && s.reqs[r].pc.Marking? then MarkAct(s, r, approved, fault) else s
    case Panic(r) =>
      if r in s.reqs && (s.reqs[r].pc.Serving? || s.reqs[r].pc.Marking?) then Move(s, r, s.reqs[r].(pc := Releasing))
        else s
    case Finish(r, fault) => if At(s, r, Completing) && HasFresh(s.reqs[r]) then FinishAct(s, r, fault) else s
    case Release(r, fault) => if At(s, r, Releasing) then ReleaseAct(s, r, fault) else s
    case Crash(r) =>
      if r in s.reqs && !s.reqs[r].pc.Finished? then Move(s, r, s.reqs[r].(pc := Dead)) else s
  }

  ghost function Exec(s: State, acts: seq<Action>): State {
    if acts == [] then s else Apply(Exec(s, acts[..|acts| - 1]), acts[|acts| - 1])
  }

  ghost predicate Initial(s: State) {
    s.records == map[] && s.payments == map[] && s.reqs == map[]
  }

  // ----- the invariant: nothing in it mentions the lock -----

  predicate Before(pc: Pc) {
    pc.Checking? || pc.Locking? || pc.Pending?
  }

  /** Inside the handler or about to store its response. */
  predicate Active(pc: Pc) {
    pc.Serving? || pc.Marking? || pc.Completing?
  }

  predicate Names(body: Body, p: PaymentId) {
    |body| == 1 && body[0].PaymentJson? && body[0].p == p
  }

  predicate FreshOk(q: Request)
    requires HasFresh(q)
  {
    var code, body := q.reply.value.code, q.reply.value.body;
    if code == 201 then q.created.Some? && Names(body, q.created.value) else code in ERRORS && body == [Text(code)]
  }

  predicate RequestOk(s: State, q: Request) {
    && (Before(q.pc) ==> !q.served && q.reply.None?)
    && (!q.served ==> q.created.None? && !HasFresh(q))
    && (q.served ==> q.slot in s.records)
    && (Active(q.pc) ==> q.served && s.records[q.slot] == InProgress)
    && (q.pc.Serving? ==> q.created.None? && q.reply.None?)
    && (q.pc.Marking? ==> q.created == Some(q.pc.p) && q.reply.None?)
    && (q.pc.Completing? ==> HasFresh(q))
    && (HasFresh(q) ==> FreshOk(q))
    && (q.created.Some? ==> q.created.value in s.payments && s.payments[q.created.value] == q.slot)
    && (q.reply.Some? && q.reply.value.Replayed? ==>
          q.slot in s.records && s.records[q.slot] == Completed(q.reply.value.code, q.reply.value.stored))
  }

  ghost predicate RequestsOk(s: State) {
    forall r :: r in s.reqs ==> RequestOk(s, s.reqs[r])
  }

  /** The pending insert lets one request per slot through. */
  ghost predicate OneServed(s: State) {
    forall q, r ::
      (q in s.reqs && r in s.reqs && s.reqs[q].served && s.reqs[r].served && s.reqs[q].slot == s.reqs[r].slot) ==>
        q == r
  }

  ghost predicate CreatedBy(s: State, p: PaymentId, r: RequestId) {
    r in s.reqs && p in s.payments && s.reqs[r].created == Some(p) && s.reqs[r].slot == s.payments[p]
  }

  ghost predicate PaymentsOk(s: State) {
    forall p :: p in s.payments ==> exists r :: CreatedBy(s, p, r)
  }

  /** A completed record is the response of the one request that was served. */
  ghost predicate AnsweredBy(s: State, slot: Slot, r: RequestId) {
    && r in s.reqs && s.reqs[r].slot == slot && HasFresh(s.reqs[r]) && slot in s.records
    && s.records[slot] == Completed(s.reqs[r].reply.value.code, Normalise(s.reqs[r].reply.value.body))
  }

  ghost predicate RecordsOk(s: State) {
    forall slot :: slot in s.records && s.records[slot].Completed? ==> exists r :: AnsweredBy(s, slot, r)
  }

  ghost predicate Inv(s: State) {
    RequestsOk(s) && OneServed(s) && PaymentsOk(s) && RecordsOk(s)
  }

  predicate RequestEvolves(a: Request, b: Request) {
    && b.slot == a.slot && (a.served ==> b.served) && (a.created.Some? ==> b.created == a.created)
    && (a.reply.Some? ==> b.reply == a.reply)
  }

  /** What no step undoes. */
  ghost predicate Evolves(s: State, s': State) {
    && (forall slot :: slot in s.records ==>
          slot in s'.records && (s.records[slot].Completed? ==> s'.records[slot] == s.records[slot]))
    && (forall p :: p in s.payments ==> p in s'.payments && s'.payments[p] == s.payments[p])
    && (forall r :: r in s.reqs ==> r in s'.reqs && RequestEvolves(s.reqs[r], s'.reqs[r]))
  }

  // ----- every step keeps it -----

  /** One request moves to q, changing at most its own slot of the two tables. */
  ghost predicate Moves(s: State, s': State, r: RequestId, q: Request) {
    && s'.reqs == s.reqs[r := q] && RequestOk(s', q)
    && (r in s.reqs ==> RequestEvolves(s.reqs[r], q))
    && (q.served ==> forall x :: x in s.reqs && x != r && s.reqs[x].slot == q.slot ==> !s.reqs[x].served)
    && MovesRecords(s, s', r, q) && MovesPayments(s, s', q)
  }

  ghost predicate MovesRecords(s: State, s': State, r: RequestId, q: Request) {
    s'.records == s.records ||
    (&& q.served && q.slot in s'.records && s'.records == s.records[q.slot := s'.records[q.slot]]
     && !(q.slot in s.records && s.records[q.slot].Completed?)
     && (s'.records[q.slot].Completed? ==> AnsweredBy(s', q.slot, r)))
    || (!q.served && q.slot !in s.records && s'.records == s.records[q.slot := InProgress])
  }

  ghost predicate MovesPayments(s: State, s': State, q: Request) {
    s'.payments == s.payments ||
    (q.created.Some? && q.created.value !in s.payments && s'.payments == s.payments[q.created.value := q.slot])
  }

  lemma OthersOk(s: State, s': State, r: RequestId, q: Request, x: RequestId)
    requires Inv(s) && Moves(s, s', r, q) && x in s.reqs && x != r
    ensures RequestOk(s', s.reqs[x])
  {
    hide PaymentsOk, RecordsOk, OneServed, AnsweredBy, FreshOk;
    assert RequestOk(s, s.reqs[x]);
  }

  lemma PaymentsKept(s: State, s': State, r: RequestId, q: Request)
    requires Inv(s) && Moves(s, s', r, q)
    ensures PaymentsOk(s')
  {
    hide RequestsOk, RecordsOk, OneServed, RequestOk, MovesRecords;
    forall p | p in s'.payments ensures exists x :: CreatedBy(s', p, x) {
      if p in s.payments {
        var x :| CreatedBy(s, p, x);
        assert CreatedBy(s', p, x);
      } else {
        assert CreatedBy(s', p, r);
      }
    }
  }

  lemma RecordsKept(s: State, s': State, r: RequestId, q: Request)
    requires Inv(s) && Moves(s, s', r, q)
    ensures RecordsOk(s')
  {
    hide RequestsOk, PaymentsOk, OneServed, RequestOk, MovesPayments, FreshOk;
    forall slot | slot in s'.records && s'.records[slot].Completed? ensures exists x :: AnsweredBy(s', slot, x) {
      if slot in s.records && s.records[slot].Completed? {
        var x :| AnsweredBy(s, slot, x);
        assert AnsweredBy(s', slot, x);
      }
    }
  }

  lemma ServedKept(s: State, s': State, r: RequestId, q: Request)
    requires Inv(s) && Moves(s, s', r, q)
    ensures OneServed(s') && Evolves(s, s')
  {
    hide RequestsOk, PaymentsOk, RecordsOk, AnsweredBy, RequestOk;
  }

  lemma OneMoves(s: State, s': State, r: RequestId, q: Request)
    requires Inv(s) && Moves(s, s', r, q)
    ensures Inv(s') && Evolves(s, s')
  {
    PaymentsKept(s, s', r, q);
    RecordsKept(s, s', r, q);
    ServedKept(s, s', r, q);
    hide PaymentsOk, RecordsOk, RequestOk, OneServed, Evolves, MovesRecords, MovesPayments;
    forall x | x in s'.reqs ensures RequestOk(s', s'.reqs[x]) {
      if x != r { OthersOk(s, s', r, q, x); }
    }
  }

  lemma OnlyServed(s: State, r: RequestId)
    requires Inv(s) && r in s.reqs && s.reqs[r].served
    ensures forall x :: x in s.reqs && x != r && s.reqs[x].slot == s.reqs[r].slot ==> !s.reqs[x].served
  {
  }

  /** The UNIQUE (merchant, key) constraint on payments is never what stops a second payment. */
  lemma UniqueNeverFires(s: State, r: RequestId)
    requires Inv(s) && At(s, r, Serving)
    ensures !SlotTaken(s.payments, s.reqs[r].slot)
  {
    assert RequestOk(s, s.reqs[r]);
    forall p | p in s.payments ensures s.payments[p] != s.reqs[r].slot {
      var x :| CreatedBy(s, p, x);
      assert RequestOk(s, s.reqs[x]);
    }
  }

  lemma RequestHolds(s: State, r: RequestId)
    requires Inv(s) && r in s.reqs
    ensures RequestOk(s, s.reqs[r])
  {
  }

  ghost predicate Good(s: State, s': State) {
    Inv(s') && Evolves(s, s')
  }

  /** Before the pending insert nothing but the lock changes. */
  lemma EnterStep(s: State, r: RequestId, slot: Slot)
    requires Inv(s) && r !in s.reqs
    ensures Good(s, Move(s, r, Request(slot, Checking, false, None, None)))
  {
    OneMoves(s, Move(s, r, Request(slot, Checking, false, None, None)), r, Request(slot, Checking, false, None, None));
  }

  lemma CheckStep(s: State, r: RequestId, fault: bool)
    requires Inv(s) && At(s, r, Checking)
    ensures Good(s, CheckAct(s, r, fault))
  {
    RequestHolds(s, r);
    hide Inv, Evolves, FreshOk;
    OneMoves(s, CheckAct(s, r, fault), r, CheckAct(s, r, fault).reqs[r]);
  }

  lemma LockStep(s: State, r: RequestId, fault: bool, ackLost: bool)
    requires Inv(s) && At(s, r, Locking)
    ensures Good(s, LockAct(s, r, fault, ackLost))
  {
    RequestHolds(s, r);
    hide Inv, Evolves, FreshOk, TryLock;
    OneMoves(s, LockAct(s, r, fault, ackLost), r, LockAct(s, r, fault, ackLost).reqs[r]);
  }

  /** No request of a slot without a record has been served. */
  lemma NoneServed(s: State, slot: Slot)
    requires Inv(s) && slot !in s.records
    ensures forall x :: x in s.reqs && s.reqs[x].slot == slot ==> !s.reqs[x].served
  {
    forall x | x in s.reqs && s.reqs[x].slot == slot ensures !s.reqs[x].served { RequestHolds(s, x); }
  }

  lemma PendStep(s: State, r: RequestId, fault: bool, ackLost: bool)
    requires Inv(s) && At(s, r, Pending)
    ensures Good(s, PendAct(s, r, fault, ackLost))
  {
    RequestHolds(s, r);
    if s.reqs[r].slot !in s.records { NoneServed(s, s.reqs[r].slot); }
    hide Inv, Evolves, FreshOk, AnsweredBy;
    OneMoves(s, PendAct(s, r, fault, ackLost), r, PendAct(s, r, fault, ackLost).reqs[r]);
  }

  lemma ServeStep(s: State, r: RequestId, outcome: Served)
    requires Inv(s) && At(s, r, Serving)
    ensures Good(s, ServeAct(s, r, outcome))
  {
    RequestHolds(s, r);
    OnlyServed(s, r);
    UniqueNeverFires(s, r);
    if ServeAct(s, r, outcome) != s {
      hide Inv, Evolves, AnsweredBy, SlotTaken;
      OneMoves(s, ServeAct(s, r, outcome), r, ServeAct(s, r, outcome).reqs[r]);
    }
  }

  lemma MarkStep(s: State, r: RequestId, approved: bool, fault: bool)
    requires Inv(s) && r in s.reqs && s.reqs[r].pc.Marking?
    ensures Good(s, MarkAct(s, r, approved, fault))
  {
    RequestHolds(s, r);
    OnlyServed(s, r);
    hide Inv, Evolves, AnsweredBy;
    OneMoves(s, MarkAct(s, r, approved, fault), r, MarkAct(s, r, approved, fault).reqs[r]);
  }

  lemma FinishStep(s: State, r: RequestId, fault: bool)
    requires Inv(s) && At(s, r, Completing) && HasFresh(s.reqs[r])
    ensures Good(s, FinishAct(s, r, fault))
  {
    RequestHolds(s, r);
    OnlyServed(s, r);
    hide Inv, Evolves, FreshOk, Normalise;
    OneMoves(s, FinishAct(s, r, fault), r, FinishAct(s, r, fault).reqs[r]);
  }

  /** Release, panic and crash only move the program counter to a place that asks for nothing. */
  lemma StopStep(s: State, s': State, r: RequestId, pc: Pc)
    requires Inv(s) && r in s.reqs && (pc.Releasing? || pc.Finished? || pc.Dead?)
    requires s' == Move(s, r, s.reqs[r].(pc := pc)).(locks := s'.locks)
    ensures Good(s, s')
  {
    RequestHolds(s, r);
    if s.reqs[r].served { OnlyServed(s, r); }
    hide Inv, Evolves, AnsweredBy, FreshOk;
    OneMoves(s, s', r, s'.reqs[r]);
  }

  lemma Step(s: State, a: Action)
    requires Inv(s)
    ensures Inv(Apply(s, a)) && Evolves(s, Apply(s, a))
  {
    hide CheckAct, LockAct, PendAct, ServeAct, MarkAct, FinishAct, Inv;
    TablesSame(s, s);
    var s' := Apply(s, a);
    assert Good(s, s') by {
      if s' == s {
      } else {
        match a
        case Wait(_) => TablesSame(s, s');
        case LocksChange(_) => TablesSame(s, s');
        case Arrive(r, slot) => EnterStep(s, r, slot);
        case Check(r, fault) => CheckStep(s, r, fault);
        case Lock(r, fault, ackLost) => LockStep(s, r, fault, ackLost);
        case Pend(r, fault, ackLost) => PendStep(s, r, fault, ackLost);
        case Serve(r, outcome) => ServeStep(s, r, outcome);
        case Mark(r, approved, fault) => MarkStep(s, r, approved, fault);
        case Panic(r) => StopStep(s, s', r, Releasing);
        case Finish(r, fault) => FinishStep(s, r, fault);
        case Release(r, fault) => StopStep(s, s', r, Finished);
        case Crash(r) => StopStep(s, s', r, Dead);
      }
    }
  }

  lemma TablesSame(s: State, s': State)
    requires Inv(s) && s' == s.(now := s'.now, locks := s'.locks)
    ensures Inv(s') && Evolves(s, s')
  {
    forall r | r in s'.reqs ensures RequestOk(s', s'.reqs[r]) { assert RequestOk(s, s.reqs[r]); }
    forall p | p in s'.payments ensures exists x :: CreatedBy(s', p, x) {
      var x :| CreatedBy(s, p, x);
      assert CreatedBy(s', p, x);
    }
    forall slot | slot in s'.records && s'.records[slot].Completed? ensures exists x :: AnsweredBy(s', slot, x) {
      var x :| AnsweredBy(s, slot, x);
      assert AnsweredBy(s', slot, x);
    }
  }

  // ----- whole runs -----

  lemma {:induction false} Always(s: State, acts: seq<Action>)
    requires Initial(s)
    ensures Inv(Exec(s, acts))
  {
    if acts != [] {
      Always(s, acts[..|acts| - 1]);
      Step(Exec(s, acts[..|acts| - 1]), acts[|acts| - 1]);
    }
  }

  lemma {:induction false} Later(s: State, first: seq<Action>, rest: seq<Action>)
    requires Initial(s)
    ensures Evolves(Exec(s, first), Exec(s, first + rest))
    decreases |rest|
  {
    hide Inv;
    if rest == [] {
      assert first + rest == first;
      Idle(Exec(s, first));
    } else {
      var before := first + rest[..|rest| - 1];
      assert (first + rest)[..|first + rest| - 1] == before;
      Later(s, first, rest[..|rest| - 1]);
      Always(s, before);
      Step(Exec(s, before), rest[|rest| - 1]);
      EvolvesOn(Exec(s, first), Exec(s, before), Exec(s, first + rest));
    }
  }

  lemma Idle(s: State)
    ensures Evolves(s, s)
  {
  }

  lemma EvolvesOn(a: State, b: State, c: State)
    requires Evolves(a, b) && Evolves(b, c)
    ensures Evolves(a, c)
  {
  }

  /** However the requests interleave, whatever happens to the lock: of all requests ever made with one
      merchant and key, at most one enters the handler, and at most one payment exists. */
  lemma AtMostOnce(s: State, acts: seq<Action>, q: RequestId, r: RequestId, p: PaymentId, p': PaymentId)
    requires Initial(s)
    ensures var t := Exec(s, acts);
      q in t.reqs && r in t.reqs && t.reqs[q].served && t.reqs[r].served && t.reqs[q].slot == t.reqs[r].slot ==> q == r
    ensures var t := Exec(s, acts);
      p in t.payments && p' in t.payments && t.payments[p] == t.payments[p'] ==> p == p'
  {
    Always(s, acts);
    var t := Exec(s, acts);
    hide RecordsOk, Exec;
    if p in t.payments && p' in t.payments && t.payments[p] == t.payments[p'] {
      var x :| CreatedBy(t, p, x);
      var y :| CreatedBy(t, p', y);
      RequestHolds(t, x);
      RequestHolds(t, y);
    }
  }

  /** The handler is entered before its payment exists, so the constraint on payments is never what stops
      a second one: the pending insert already has. */
  lemma ConstraintNeverNeeded(s: State, acts: seq<Action>, r: RequestId)
    requires Initial(s) && At(Exec(s, acts), r, Serving)
    ensures !SlotTaken(Exec(s, acts).payments, Exec(s, acts).reqs[r].slot)
  {
    Always(s, acts);
    UniqueNeverFires(Exec(s, acts), r);
  }

  predicate ReplayedAs(s: State, r: RequestId, slot: Slot, code: int, stored: Stored) {
    r in s.reqs && s.reqs[r].slot == slot && s.reqs[r].reply == Some(Replayed(code, stored))
  }

  /** A completed record never changes, and every replay, at whatever time, is that record. */
  lemma ReplaysAgree(s: State, first: seq<Action>, rest: seq<Action>, slot: Slot, r: RequestId, code: int,
                     stored: Stored)
    requires Initial(s)
    requires slot in Exec(s, first).records && Exec(s, first).records[slot].Completed?
    ensures slot in Exec(s, first + rest).records && Exec(s, first + rest).records[slot] == Exec(s, first).records[slot]
    ensures ReplayedAs(Exec(s, first + rest), r, slot, code, stored) ==>
            Exec(s, first).records[slot] == Completed(code, stored)
  {
    Later(s, first, rest);
    Always(s, first + rest);
    if r in Exec(s, first + rest).reqs { RequestHolds(Exec(s, first + rest), r); }
  }

  /** The payment a 201 names, fresh or replayed. */
  predicate Answers201(q: Request, p: PaymentId) {
    q.reply.Some? &&
    ((q.reply.value.Fresh? && q.reply.value.code == 201 && Names(q.reply.value.body, p))
     || (q.reply.value.Replayed? && q.reply.value.code == 201 && q.reply.value.stored.Json?
         && q.reply.value.stored.doc.PaymentJson? && q.reply.value.stored.doc.p == p))
  }

  predicate Is201(q: Request) {
    q.reply.Some? && !q.reply.value.Refused? && q.reply.value.code == 201
  }

  lemma Names201(s: State, r: RequestId) returns (p: PaymentId)
    requires Inv(s) && r in s.reqs && Is201(s.reqs[r])
    ensures Answers201(s.reqs[r], p) && p in s.payments && s.payments[p] == s.reqs[r].slot
  {
    var q := s.reqs[r];
    RequestHolds(s, r);
    if q.reply.value.Fresh? {
      p := q.created.value;
    } else {
      var x :| AnsweredBy(s, q.slot, x);
      RequestHolds(s, x);
      p := s.reqs[x].created.value;
    }
  }

  /** Every 201 for a merchant and key, fresh or replayed, names the same payment, and that payment exists
      and belongs to that merchant and key. */
  lemma Every201NamesThePayment(s: State, acts: seq<Action>, q: RequestId, r: RequestId) returns (p: PaymentId)
    requires Initial(s)
    requires q in Exec(s, acts).reqs && r in Exec(s, acts).reqs
    requires Is201(Exec(s, acts).reqs[q]) && Is201(Exec(s, acts).reqs[r])
    requires Exec(s, acts).reqs[q].slot == Exec(s, acts).reqs[r].slot
    ensures Answers201(Exec(s, acts).reqs[q], p) && Answers201(Exec(s, acts).reqs[r], p)
    ensures p in Exec(s, acts).payments && Exec(s, acts).payments[p] == Exec(s, acts).reqs[q].slot
  {
    Always(s, acts);
    p := Names201(Exec(s, acts), q);
    var p' := Names201(Exec(s, acts), r);
    AtMostOnce(s, acts, q, r, p, p');
  }

  /** A replay repeats the first response byte for byte up to JSON layout exactly when that response was
      the 201; an error body comes back wrapped in an object. */
  lemma ReplayFaithful(s: State, acts: seq<Action>, q: RequestId, r: RequestId)
    requires Initial(s)
    requires q in Exec(s, acts).reqs && r in Exec(s, acts).reqs
    requires HasFresh(Exec(s, acts).reqs[q]) && Exec(s, acts).reqs[q].slot == Exec(s, acts).reqs[r].slot
    requires Exec(s, acts).reqs[r].reply.Some? && Exec(s, acts).reqs[r].reply.value.Replayed?
    ensures var first, again := Exec(s, acts).reqs[q].reply.value, Exec(s, acts).reqs[r].reply.value;
      again.code == first.code
      && (first.code == 201 <==> exists doc :: again.stored == Json(doc) && first.body == [doc])
  {
    var t := Exec(s, acts);
    Always(s, acts);
    RequestHolds(t, q);
    RequestHolds(t, r);
    var x :| AnsweredBy(t, t.reqs[r].slot, x);
    RequestHolds(t, x);
    assert x == q;
    if t.reqs[q].reply.value.code == 201 {
      assert t.reqs[q].reply.value.body == [t.reqs[q].reply.value.body[0]];
    }
  }

  /** A slot whose record is in progress while no request of that slot is in the handler. */
  ghost predicate Abandoned(s: State, slot: Slot) {
    && slot in s.records && s.records[slot] == InProgress
    && forall r :: r in s.reqs && s.reqs[r].slot == slot ==> !Active(s.reqs[r].pc)
  }

  lemma StaysAbandoned(s: State, slot: Slot, a: Action)
    requires Abandoned(s, slot)
    ensures Abandoned(Apply(s, a), slot)
  {
    hide Held, TryLock, Unlock, SlotTaken, Normalise;
  }

  /** After a crash, a panic or a lost completion the key is refused with 409 for ever: nothing takes the
      record over, whoever asks and however long they wait. */
  lemma {:induction false} AbandonedForGood(s: State, slot: Slot, acts: seq<Action>)
    requires Abandoned(s, slot)
    ensures Abandoned(Exec(s, acts), slot)
  {
    if acts != [] {
      AbandonedForGood(s, slot, acts[..|acts| - 1]);
      StaysAbandoned(Exec(s, acts[..|acts| - 1]), slot, acts[|acts| - 1]);
    }
  }

  // ----- the lock alone does not do it -----

  lemma Extend(s: State, acts: seq<Action>, a: Action)
    ensures Exec(s, acts + [a]) == Apply(Exec(s, acts), a)
  {
    assert (acts + [a])[..|acts + [a]| - 1] == acts;
  }

  /** Requests 1 and 2 check, then lock one after the other, the second when the first lock has expired. */
  function BothPastTheLock(slot: Slot): seq<Action> {
    [Arrive(1, slot), Arrive(2, slot), Check(1, false), Check(2, false), Lock(1, false, false), Wait(LOCK_SECONDS),
     Lock(2, false, false)]
  }

  const EMPTY: State := State(0, map[], map[], map[], map[])

  function TwoAt(now: nat, locks: map<Slot, nat>, slot: Slot, pc1: Pc, pc2: Pc): State {
    State(now, map[], locks, map[],
          map[1 := Request(slot, pc1, false, None, None), 2 := Request(slot, pc2, false, None, None)])
  }

  lemma BothArrive(slot: Slot)
    ensures Exec(EMPTY, BothPastTheLock(slot)[..2]) == TwoAt(0, map[], slot, Checking, Checking)
  {
    var w := BothPastTheLock(slot);
    Extend(EMPTY, [], w[0]);
    Extend(EMPTY, [w[0]], w[1]);
    assert [] + [w[0]] == [w[0]] && w[..2] == [w[0]] + [w[1]];
  }

  lemma BothChecked(slot: Slot)
    ensures Exec(EMPTY, BothPastTheLock(slot)[..4]) == TwoAt(0, map[], slot, Locking, Locking)
  {
    var w := BothPastTheLock(slot);
    BothArrive(slot);
    Extend(EMPTY, w[..2], w[2]);
    Extend(EMPTY, w[..3], w[3]);
    assert w[..3] == w[..2] + [w[2]] && w[..4] == w[..3] + [w[3]];
    var s := TwoAt(0, map[], slot, Checking, Checking);
    assert Apply(Apply(s, w[2]), w[3]).reqs == TwoAt(0, map[], slot, Locking, Locking).reqs;
  }

  lemma FirstLocks(slot: Slot)
    ensures Exec(EMPTY, BothPastTheLock(slot)[..5]) == TwoAt(0, map[slot := LOCK_SECONDS], slot, Pending, Locking)
  {
    var w := BothPastTheLock(slot);
    BothChecked(slot);
    Extend(EMPTY, w[..4], w[4]);
    assert w[..5] == w[..4] + [w[4]];
    var s := TwoAt(0, map[], slot, Locking, Locking);
    assert Apply(s, w[4]).reqs == TwoAt(0, map[slot := LOCK_SECONDS], slot, Pending, Locking).reqs;
  }

  lemma BothLocked(slot: Slot)
    ensures Exec(EMPTY, BothPastTheLock(slot))
            == TwoAt(LOCK_SECONDS, map[slot := 2 * LOCK_SECONDS], slot, Pending, Pending)
  {
    var w := BothPastTheLock(slot);
    FirstLocks(slot);
    Extend(EMPTY, w[..5], w[5]);
    Extend(EMPTY, w[..6], w[6]);
    assert w[..6] == w[..5] + [w[5]] && w == w[..6] + [w[6]];
    var s := TwoAt(LOCK_SECONDS, map[slot := LOCK_SECONDS], slot, Pending, Locking);
    assert Apply(s, w[6]).reqs == TwoAt(LOCK_SECONDS, map[slot := 2 * LOCK_SECONDS], slot, Pending, Pending).reqs;
  }

  predicate Got(s: State, r: RequestId, reply: Reply) {
    r in s.reqs && s.reqs[r].reply == Some(reply)
  }

  /** The lock is no mutex: on every slot two requests can be past it at once, and the release of one then
      deletes the lock of the other. The pending insert still serves one and refuses the other. */
  lemma LockIsNotMutex(slot: Slot)
    ensures var both := Exec(EMPTY, BothPastTheLock(slot));
      At(both, 1, Pending) && At(both, 2, Pending) && Held(both.locks, slot, both.now)
    ensures var one := Exec(EMPTY,
                            BothPastTheLock(slot) + [Pend(1, false, false)] + [Pend(2, false, false)]
                            + [Release(2, false)]);
      At(one, 1, Serving) && Got(one, 2, Refused(500)) && !Held(one.locks, slot, one.now)
  {
    var w := BothPastTheLock(slot);
    BothLocked(slot);
    hide BothPastTheLock;
    Extend(EMPTY, w, Pend(1, false, false));
    Extend(EMPTY, w + [Pend(1, false, false)], Pend(2, false, false));
    Extend(EMPTY, w + [Pend(1, false, false)] + [Pend(2, false, false)], Release(2, false));
  }

  // ----- a replay that is not the first response -----

  /** Request 1 is refused by its handler with a 500, which is stored; request 2 comes later. */
  function RefusedThenRetried(slot: Slot): seq<Action> {
    [Arrive(1, slot), Check(1, false), Lock(1, false, false), Pend(1, false, false)]
    + [Serve(1, Refuse(500)), Finish(1, false), Release(1, false)]
    + [Arrive(2, slot), Check(2, false)]
  }

  function OneAt(records: map<Slot, Record>, locks: map<Slot, nat>, q: Request): State {
    State(0, records, locks, map[], map[1 := q])
  }

  lemma EntersHandler(slot: Slot)
    ensures Exec(EMPTY, RefusedThenRetried(slot)[..4])
            == OneAt(map[slot := InProgress], map[slot := LOCK_SECONDS], Request(slot, Serving, true, None, None))
  {
    var w := RefusedThenRetried(slot);
    Extend(EMPTY, [], w[0]);
    Extend(EMPTY, w[..1], w[1]);
    Extend(EMPTY, w[..2], w[2]);
    Extend(EMPTY, w[..3], w[3]);
    assert w[..1] == [] + [w[0]] && w[..2] == w[..1] + [w[1]] && w[..3] == w[..2] + [w[2]] && w[..4] == w[..3] + [w[3]];
    var q := Request(slot, Checking, false, None, None);
    assert Apply(EMPTY, w[0]) == OneAt(map[], map[], q);
    assert Apply(OneAt(map[], map[], q), w[1]).reqs == map[1 := q.(pc := Locking)];
    assert Apply(OneAt(map[], map[], q.(pc := Locking)), w[2]).reqs == map[1 := q.(pc := Pending)];
  }

  function RefusedRequest(slot: Slot, pc: Pc): Request {
    Request(slot, pc, true, None, Some(Fresh(500, [Text(500)])))
  }

  lemma HandlerRefuses(slot: Slot)
    ensures Exec(EMPTY, RefusedThenRetried(slot)[..5])
            == OneAt(map[slot := InProgress], map[slot := LOCK_SECONDS], RefusedRequest(slot, Completing))
  {
    var w := RefusedThenRetried(slot);
    EntersHandler(slot);
    Extend(EMPTY, w[..4], w[4]);
    assert w[..5] == w[..4] + [w[4]];
    assert Apply(Exec(EMPTY, w[..4]), w[4]).reqs == map[1 := RefusedRequest(slot, Completing)];
  }

  lemma StoresRefusal(slot: Slot)
    ensures Exec(EMPTY, RefusedThenRetried(slot)[..7])
            == OneAt(map[slot := Completed(500, Raw([Text(500)]))], map[], RefusedRequest(slot, Finished))
  {
    var w := RefusedThenRetried(slot);
    HandlerRefuses(slot);
    Extend(EMPTY, w[..5], w[5]);
    Extend(EMPTY, w[..6], w[6]);
    assert w[..6] == w[..5] + [w[5]] && w[..7] == w[..6] + [w[6]] && w[5] == Finish(1, false)
           && w[6] == Release(1, false);
    hide RefusedThenRetried, Exec;
    var s1 := OneAt(map[slot := InProgress], map[slot := LOCK_SECONDS], RefusedRequest(slot, Completing));
    var s2 := OneAt(map[slot := Completed(500, Raw([Text(500)]))], map[slot := LOCK_SECONDS],
                    RefusedRequest(slot, Releasing));
    assert Apply(s1, Finish(1, false)) == s2 by {
      assert Apply(s1, Finish(1, false)).reqs == s2.reqs && Apply(s1, Finish(1, false)).records == s2.records;
    }
    assert Apply(s2, Release(1, false)).locks == map[];
  }

  /** It happens on every key: a 500 is stored, and replayed as an object around its text. */
  lemma WrappedReplay(slot: Slot)
    ensures Initial(EMPTY)
    ensures var t := Exec(EMPTY, RefusedThenRetried(slot));
      Got(t, 1, Fresh(500, [Text(500)])) && Got(t, 2, Replayed(500, Raw([Text(500)])))
  {
    var w := RefusedThenRetried(slot);
    StoresRefusal(slot);
    Extend(EMPTY, w[..7], w[7]);
    Extend(EMPTY, w[..8], w[8]);
    assert w[..8] == w[..7] + [w[7]] && w == w[..8] + [w[8]];
    hide RefusedThenRetried;
  }
}
