/** When the Redis lock does exclude: as long as every request that is past it has left within the 30 seconds of
    its own lock, and nothing but a release or the expiry clears an entry. Module Idempotency needs none of this. */
module Lock {
  import opened Schema
  import opened Idempotency

  /** Past the lock and not yet released. */
  predicate Holds(s: State, r: RequestId) {
    r in s.reqs && (s.reqs[r].pc.Pending? || Active(s.reqs[r].pc) || s.reqs[r].pc.Releasing?)
  }

  predicate HoldsSlot(s: State, r: RequestId, slot: Slot) {
    Holds(s, r) && s.reqs[r].slot == slot
  }

  /** The time at which request r acquired its lock. */
  ghost function AcquiredAt(s: State, acts: seq<Action>, r: RequestId): nat {
    if acts == [] then 0
    else
      var before := acts[..|acts| - 1];
      if !Holds(Exec(s, before), r) && Holds(Exec(s, acts), r) then Exec(s, before).now else AcquiredAt(s, before, r)
  }

  ghost predicate Overdue(s: State, acts: seq<Action>, r: RequestId) {
    Holds(Exec(s, acts), r) && Exec(s, acts).now >= AcquiredAt(s, acts, r) + 30
  }

  /** Before its last step nobody was overdue, and no step changes the lock table from outside. */
  ghost predicate TimelySoFar(s: State, acts: seq<Action>) {
    && (forall n, r :: 0 <= n < |acts| ==> !Overdue(s, acts[..n], r))
    && (forall n :: 0 <= n < |acts| ==> !acts[n].LocksChange?)
  }

  /** Every holder's lock entry is its own, and no two hold one slot. */
  ghost predicate Owned(s: State, acts: seq<Action>, r: RequestId) {
    var t := Exec(s, acts);
    Holds(t, r) ==>
      && t.reqs[r].slot in t.locks && t.locks[t.reqs[r].slot] == AcquiredAt(s, acts, r) + 30
      && forall q :: HoldsSlot(t, q, t.reqs[r].slot) ==> q == r
  }

  /** What one step does to the holders and their entries. */
  lemma HolderStep(s: State, a: Action, r: RequestId)
    requires !a.LocksChange? && Holds(Apply(s, a), r)
    ensures r in s.reqs && Apply(s, a).reqs[r].slot == s.reqs[r].slot
    ensures !Holds(s, r) ==> a.Lock? && a.r == r && !Held(s.locks, s.reqs[r].slot, s.now)
    ensures !Holds(s, r) ==> Apply(s, a).locks == s.locks[s.reqs[r].slot := s.now + 30]
  {
    hide Held, InsertPending, SlotTaken, Normalise;
  }

  /** An entry changes only by an acquisition that found it expired, or by the release of a holder. */
  lemma EntryStep(s: State, a: Action, slot: Slot)
    requires !a.LocksChange? && slot in s.locks
    ensures (slot in Apply(s, a).locks && Apply(s, a).locks[slot] == s.locks[slot])
            || !Held(s.locks, slot, s.now)
            || (a.Release? && HoldsSlot(s, a.r, slot) && !Holds(Apply(s, a), a.r))
  {
    hide InsertPending, SlotTaken, Normalise;
  }

  ghost predicate AllOwned(s: State, acts: seq<Action>) {
    forall r :: Owned(s, acts, r)
  }

  ghost predicate NobodyOverdue(s: State, acts: seq<Action>) {
    forall r :: !Overdue(s, acts, r)
  }

  /** Whoever holds a slot in time keeps others from locking it. */
  lemma HolderBlocks(s: State, acts: seq<Action>, q: RequestId, slot: Slot)
    requires AllOwned(s, acts) && NobodyOverdue(s, acts) && HoldsSlot(Exec(s, acts), q, slot)
    ensures Held(Exec(s, acts).locks, slot, Exec(s, acts).now)
  {
    hide Exec, AcquiredAt;
    assert Owned(s, acts, q) && !Overdue(s, acts, q);
  }

  lemma NoSecondHolder(s: State, acts: seq<Action>, a: Action, q: RequestId, r: RequestId, slot: Slot)
    requires AllOwned(s, acts) && NobodyOverdue(s, acts) && !a.LocksChange?
    requires HoldsSlot(Apply(Exec(s, acts), a), q, slot) && HoldsSlot(Apply(Exec(s, acts), a), r, slot)
    ensures q == r
  {
    hide Exec, Apply, NobodyOverdue, Held, Holds;
    var u := Exec(s, acts);
    HolderStep(u, a, q);
    HolderStep(u, a, r);
    if Holds(u, q) { HolderBlocks(s, acts, q, slot); }
    if Holds(u, r) { HolderBlocks(s, acts, r, slot); }
    if Holds(u, q) && Holds(u, r) { SoleInOwned(s, acts, q, r, slot); }
  }

  lemma SoleInOwned(s: State, acts: seq<Action>, q: RequestId, r: RequestId, slot: Slot)
    requires AllOwned(s, acts) && HoldsSlot(Exec(s, acts), q, slot) && HoldsSlot(Exec(s, acts), r, slot)
    ensures q == r
  {
    hide Exec, AcquiredAt;
    assert Owned(s, acts, r);
  }

  lemma EntryKept(s: State, acts: seq<Action>, a: Action, r: RequestId, slot: Slot)
    requires AllOwned(s, acts) && NobodyOverdue(s, acts) && !a.LocksChange?
    requires HoldsSlot(Exec(s, acts), r, slot) && Holds(Apply(Exec(s, acts), a), r)
    ensures var u := Exec(s, acts);
      && slot in u.locks && slot in Apply(u, a).locks
      && Apply(u, a).locks[slot] == u.locks[slot]
    ensures Exec(s, acts).locks[slot] == AcquiredAt(s, acts, r) + 30
  {
    hide Exec, Apply, NobodyOverdue, Holds, AcquiredAt;
    HolderBlocks(s, acts, r, slot);
    assert Owned(s, acts, r);
    EntryStep(Exec(s, acts), a, slot);
    if a.Release? && HoldsSlot(Exec(s, acts), a.r, slot) { SoleInOwned(s, acts, a.r, r, slot); }
  }

  lemma OwnedStep(s: State, acts: seq<Action>, r: RequestId)
    requires acts != [] && !acts[|acts| - 1].LocksChange?
    requires AllOwned(s, acts[..|acts| - 1]) && NobodyOverdue(s, acts[..|acts| - 1])
    ensures Owned(s, acts, r)
  {
    var before, a := acts[..|acts| - 1], acts[|acts| - 1];
    var u, t := Exec(s, before), Exec(s, acts);
    assert t == Apply(u, a);
    hide Apply, Exec, Holds, AllOwned, NobodyOverdue;
    if Holds(t, r) {
      HolderStep(u, a, r);
      var slot := u.reqs[r].slot;
      if Holds(u, r) { EntryKept(s, before, a, r, slot); }
      forall q | HoldsSlot(t, q, slot) ensures q == r { NoSecondHolder(s, before, a, q, r, slot); }
    }
  }

  lemma LastNotOverdue(s: State, acts: seq<Action>)
    requires acts != [] && TimelySoFar(s, acts)
    ensures !acts[|acts| - 1].LocksChange? && TimelySoFar(s, acts[..|acts| - 1]) && NobodyOverdue(s, acts[..|acts| - 1])
  {
    hide Overdue;
    var before := acts[..|acts| - 1];
    assert forall n :: 0 <= n <= |before| ==> before[..n] == acts[..n];
    assert before == acts[..|before|];
  }

  lemma {:induction false} OwnedInRun(s: State, acts: seq<Action>)
    requires Initial(s) && TimelySoFar(s, acts)
    ensures AllOwned(s, acts)
  {
    if acts != [] {
      hide TimelySoFar, Owned, NobodyOverdue;
      LastNotOverdue(s, acts);
      OwnedInRun(s, acts[..|acts| - 1]);
      forall r ensures Owned(s, acts, r) { OwnedStep(s, acts, r); }
    }
  }

  /** In a timely run the lock is a mutual exclusion: at most one request per merchant and key is past it, and the
      entry it holds is its own. */
  lemma TimelyLockExcludes(s: State, acts: seq<Action>, q: RequestId, r: RequestId)
    requires Initial(s) && TimelySoFar(s, acts)
    requires Holds(Exec(s, acts), q) && Holds(Exec(s, acts), r)
             && Exec(s, acts).reqs[q].slot == Exec(s, acts).reqs[r].slot
    ensures q == r
    ensures var slot := Exec(s, acts).reqs[r].slot;
      slot in Exec(s, acts).locks && Exec(s, acts).locks[slot] == AcquiredAt(s, acts, r) + 30
  {
    OwnedInRun(s, acts);
    assert Owned(s, acts, r) && HoldsSlot(Exec(s, acts), q, Exec(s, acts).reqs[r].slot);
  }

  /** In any state at all: q gets past the lock beside r exactly when no live entry is there. */
  lemma SecondHolderIffNotHeld(t: State, q: RequestId, r: RequestId)
    requires Holds(t, r) && At(t, q, Locking) && t.reqs[q].slot == t.reqs[r].slot
    ensures (Holds(Apply(t, Lock(q, false, false)), q) && Holds(Apply(t, Lock(q, false, false)), r))
            <==> !Held(t.locks, t.reqs[r].slot, t.now)
  {
    hide Held, TryLock;
  }

  /** And only then: with r past the lock and q about to lock the same slot, q gets past it as well exactly when r
      is overdue. */
  lemma SecondHolderIffOverdue(s: State, acts: seq<Action>, q: RequestId, r: RequestId)
    requires Initial(s) && TimelySoFar(s, acts)
    requires var t := Exec(s, acts); Holds(t, r) && At(t, q, Locking) && t.reqs[q].slot == t.reqs[r].slot
    ensures var t' := Exec(s, acts + [Lock(q, false, false)]);
      (Holds(t', q) && Holds(t', r)) <==> Overdue(s, acts, r)
  {
    OwnedInRun(s, acts);
    assert Owned(s, acts, r);
    Extend(s, acts, Lock(q, false, false));
    hide AcquiredAt, TimelySoFar, Exec, Apply, Holds;
    SecondHolderIffNotHeld(Exec(s, acts), q, r);
  }
}
