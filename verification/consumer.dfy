/** The Kafka consumer loop: fetch the next message, handle it, commit its offset only if the handler
    succeeded. A message whose handler failed is not retried by the loop; whether it ever comes back depends
    on what is committed after it. */
module Consumer {
  import opened Schema

  /** One consumer group on one topic: the messages so far, where the reader is, the committed offset, and
      the deliveries that succeeded and failed. */
  datatype State = State(size: nat, position: nat, committed: Option<nat>, handled: seq<nat>, failed: seq<nat>)

  datatype Action =
    | Append
    | FetchFails
    | Deliver(ok: bool, commitFails: bool)
    | Restart

  /** StartOffset is LastOffset: a group that never committed starts at the end of the log. */
  function Resume(s: State): nat {
    if s.committed.Some? then s.committed.value else s.size
  }

  function Apply(s: State, a: Action): State {
    match a
    case Append => s.(size := s.size + 1)
    case FetchFails => s
    case Restart => s.(position := Resume(s))
    case Deliver(ok, commitFails) =>
      if s.position >= s.size then s
      else if !ok then s.(position := s.position + 1, failed := s.failed + [s.position])
      else
        s.(position := s.position + 1, handled := s.handled + [s.position],
           committed := if commitFails then s.committed else Some(s.position + 1))
  }

  ghost function Exec(s: State, acts: seq<Action>): State
    decreases |acts|
  {
    if acts == [] then s else Exec(Apply(s, acts[0]), acts[1..])
  }

  ghost predicate Inv(s: State) {
    && s.position <= s.size && (s.committed.Some? ==> s.committed.value <= s.position)
    && (forall j :: 0 <= j < |s.handled| ==> s.handled[j] < s.size)
    && (forall j :: 0 <= j < |s.failed| ==> s.failed[j] < s.size)
  }

  ghost predicate Initial(s: State) {
    s.position == s.size && s.committed.None? && s.handled == [] && s.failed == []
  }

  /** Every delivery is of a message in the log, so a consumer run is one of the delivery orders of module
      Pipeline; and the committed offset never passes the reader. */
  lemma {:induction false} Always(s: State, acts: seq<Action>)
    requires Inv(s)
    ensures var t := Exec(s, acts);
      Inv(t) && s.size <= t.size && s.handled <= t.handled && s.failed <= t.failed
      && (s.committed.Some? ==> t.committed.Some? && s.committed.value <= t.committed.value)
    decreases |acts|
  {
    if acts != [] {
      Always(Apply(s, acts[0]), acts[1..]);
    }
  }

  /** Message i is out of reach: the reader is past it, and a restart would not go back to it. */
  predicate Lost(s: State, i: nat) {
    i < s.position && i < Resume(s)
  }

  ghost predicate HandledLater(s: State, i: nat, acts: seq<Action>) {
    var t := Exec(s, acts); |s.handled| <= |t.handled| && i in t.handled[|s.handled|..]
  }

  lemma {:induction false} LostForGood(s: State, i: nat, acts: seq<Action>)
    requires Inv(s) && Lost(s, i)
    ensures Lost(Exec(s, acts), i) && !HandledLater(s, i, acts)
    decreases |acts|
  {
    Always(s, acts);
    if acts != [] {
      var s1, t := Apply(s, acts[0]), Exec(s, acts);
      LostForGood(s1, i, acts[1..]);
      Always(s1, acts[1..]);
      assert t.handled[|s.handled|..] == s1.handled[|s.handled|..] + t.handled[|s1.handled|..];
    }
  }

  /** Deliver everything from the reader on, without faults. */
  function Drain(n: nat): seq<Action> {
    if n == 0 then [] else [Deliver(true, false)] + Drain(n - 1)
  }

  lemma {:induction false} DrainHandles(s: State, n: nat)
    requires Inv(s) && s.position + n <= s.size
    ensures var t := Exec(s, Drain(n));
      t.position == s.position + n && |t.handled| == |s.handled| + n && s.handled <= t.handled
      && (n > 0 ==> t.handled[|t.handled| - 1] == s.position + n - 1)
    decreases n
  {
    if n > 0 {
      var s1 := Apply(s, Deliver(true, false));
      assert Drain(n)[1..] == Drain(n - 1);
      DrainHandles(s1, n - 1);
      assert s1.handled[|s1.handled| - 1] == s.position;
    }
  }

  /** A message of the log can still be handled exactly when it is not lost: it lies ahead of the reader, or
      at or after a committed offset. So a failed message comes back only if nothing after it is committed
      before the next restart, and never if nothing was committed at all. */
  lemma HandledLaterIffNotLost(s: State, i: nat)
    requires Inv(s) && i < s.size
    ensures (exists acts :: HandledLater(s, i, acts)) <==> !Lost(s, i)
  {
    if Lost(s, i) {
      forall acts ensures !HandledLater(s, i, acts) { LostForGood(s, i, acts); }
    } else if i >= s.position {
      var n := i + 1 - s.position;
      DrainHandles(s, n);
      var t := Exec(s, Drain(n));
      assert t.handled[|s.handled|..][n - 1] == t.handled[|t.handled| - 1] == i;
      assert HandledLater(s, i, Drain(n));
    } else {
      var s1 := Apply(s, Restart);
      var n := i + 1 - s1.position;
      DrainHandles(s1, n);
      var acts := [Restart] + Drain(n);
      assert acts[1..] == Drain(n);
      var t := Exec(s, acts);
      assert t == Exec(s1, Drain(n));
      assert t.handled[|s.handled|..][n - 1] == t.handled[|t.handled| - 1] == i;
      assert HandledLater(s, i, acts);
    }
  }

  predicate CommitsNow(s: State, a: Action) {
    a.Deliver? && a.ok && !a.commitFails && s.position < s.size
  }

  ghost predicate CommitsInRun(s: State, acts: seq<Action>)
    decreases |acts|
  {
    acts != [] && (CommitsNow(s, acts[0]) || CommitsInRun(Apply(s, acts[0]), acts[1..]))
  }

  /** A message the reader is past but a restart would still bring back, such as one whose handler failed:
      until the next restart it becomes lost exactly when any later message is committed. */
  lemma {:induction false} FailedThenCommitted(s: State, i: nat, acts: seq<Action>)
    requires Inv(s) && i < s.position && s.committed.Some? && !Lost(s, i)
    requires forall k :: 0 <= k < |acts| ==> !acts[k].Restart?
    ensures Lost(Exec(s, acts), i) <==> CommitsInRun(s, acts)
    decreases |acts|
  {
    if acts != [] {
      var s1 := Apply(s, acts[0]);
      if CommitsNow(s, acts[0]) {
        LostForGood(s1, i, acts[1..]);
      } else {
        FailedThenCommitted(s1, i, acts[1..]);
      }
    }
  }

  /** It happens from the start: two messages arrive, the handler of the first fails, the second is handled and
      committed, and whatever comes then, restarts included, the first is never handled. */
  lemma LostFromStart(s: State, acts: seq<Action>)
    requires Initial(s)
    ensures var t := Exec(s, [Append, Append, Deliver(false, false), Deliver(true, false)]);
      t.failed == [s.size] && t.handled == [s.size + 1] && !HandledLater(t, s.size, acts)
  {
    var first := [Append, Append, Deliver(false, false), Deliver(true, false)];
    var t := Apply(Apply(Apply(Apply(s, first[0]), first[1]), first[2]), first[3]);
    assert first[1..] == [first[1], first[2], first[3]] && first[1..][1..] == [first[2], first[3]];
    assert first[1..][1..][1..] == [first[3]] && first[1..][1..][1..][1..] == [];
    assert Exec(s, first) == Exec(Apply(s, first[0]), first[1..]) == Exec(t, []) == t;
    LostForGood(t, s.size, acts);
  }

  // ----- a committed message stays away -----

  /** A message whose offset was committed is never handled again, whatever comes then, restarts included. */
  lemma CommittedStaysAway(s: State, a: Action, acts: seq<Action>)
    requires Inv(s) && CommitsNow(s, a)
    ensures s.position in Apply(s, a).handled && !HandledLater(Apply(s, a), s.position, acts)
  {
    var t := Apply(s, a);
    assert t.handled[|t.handled| - 1] == s.position;
    Always(s, [a]);
    assert Exec(s, [a]) == Exec(t, [a][1..]) == t;
    LostForGood(t, s.position, acts);
  }

  /** And only a commit sees to that: a message handled without one comes back after a restart at once, provided the
      group ever committed anything. */
  lemma UncommittedComesBack(s: State, first: nat)
    requires Inv(s) && s.position < s.size && s.committed.Some? && first == s.committed.value
    ensures var t := Apply(s, Deliver(true, true));
      && t.handled == s.handled + [s.position]
      && HandledLater(t, s.position, [Restart] + Drain(s.position - first + 1))
  {
    var t := Apply(s, Deliver(true, true));
    var u := Apply(t, Restart);
    var n := s.position - first + 1;
    var acts := [Restart] + Drain(n);
    assert acts[1..] == Drain(n);
    DrainHandles(u, n);
    assert Exec(t, acts) == Exec(u, Drain(n));
    assert Exec(t, acts).handled[|t.handled|..][n - 1] == s.position;
  }

  /** Over whole runs: message i is handled and its commit acknowledged; after any further run, with any restarts, it
      has not been handled again. */
  lemma HandledOnceWhenCommitted(s: State, first: seq<Action>, rest: seq<Action>)
    requires Initial(s) && Exec(s, first).position < Exec(s, first).size
    ensures var u := Exec(s, first);
            var t := Apply(u, Deliver(true, false));
      t.handled == u.handled + [u.position] && !HandledLater(t, u.position, rest)
  {
    Always(s, first);
    CommittedStaysAway(Exec(s, first), Deliver(true, false), rest);
  }

  // ----- nothing is passed over -----

  predicate Delivered(s: State, i: nat) {
    i in s.handled || i in s.failed
  }

  ghost predicate Covered(s: State, first: nat) {
    forall i :: first <= i < s.position ==> Delivered(s, i)
  }

  /** Restarts only happen once something is committed. */
  ghost predicate Anchored(s: State, acts: seq<Action>)
    decreases |acts|
  {
    acts == [] || ((acts[0].Restart? ==> s.committed.Some?) && Anchored(Apply(s, acts[0]), acts[1..]))
  }

  lemma {:induction false} Covers(s: State, acts: seq<Action>, first: nat)
    requires Inv(s) && Anchored(s, acts) && first <= s.position && (s.committed.Some? ==> first <= s.committed.value)
    requires Covered(s, first)
    ensures Covered(Exec(s, acts), first)
    decreases |acts|
  {
    if acts != [] {
      var s1 := Apply(s, acts[0]);
      forall i | first <= i < s1.position ensures Delivered(s1, i) {
        if i < s.position {
          assert Delivered(s, i);
        } else if acts[0].Deliver? && s.position < s.size {
          assert s1.handled == s.handled + [i] || s1.failed == s.failed + [i];
        }
      }
      Covers(s1, acts[1..], first);
    }
  }

  /** Every message since the group started is delivered at least once before the reader is past it, as long
      as no restart comes before the first commit. */
  lemma NothingPassedOver(s: State, acts: seq<Action>)
    requires Initial(s) && Anchored(s, acts)
    ensures Covered(Exec(s, acts), s.size)
  {
    Covers(s, acts, s.size);
  }

  /** A restart before the first commit passes over whatever had not been read: one message arrives, the
      consumer restarts, and nothing will ever deliver it. */
  lemma EarlyRestartPassesOver(s: State, acts: seq<Action>)
    requires Initial(s)
    ensures !HandledLater(Exec(s, [Append, Restart]), s.size, acts)
  {
    var t := Apply(Apply(s, Append), Restart);
    assert [Append, Restart][1..] == [Restart] && [Restart][1..] == [];
    assert Exec(s, [Append, Restart]) == Exec(Apply(s, Append), [Restart]) == Exec(t, []) == t;
    LostForGood(t, s.size, acts);
  }

  // ----- the loop -----

  /** What one turn of the loop meets. */
  datatype Turn = Cancelled | FetchError | Message(handlerOk: bool, commitFails: bool)

  function TurnAction(t: Turn): Action {
    if t.Message? then Deliver(t.handlerOk, t.commitFails) else FetchFails
  }

  /** The actions of the turns before the context is cancelled. */
  function LoopActions(turns: seq<Turn>): seq<Action> {
    if turns == [] || turns[0].Cancelled? then [] else [TurnAction(turns[0])] + LoopActions(turns[1..])
  }

  /** What one turn comes to: the fetched message is passed over, its handler's word is kept, and its offset is
      committed exactly when the handler succeeded and the commit was acknowledged. */
  lemma OneTurn(s: State, ok: bool, commitFails: bool)
    requires s.position < s.size
    ensures var t := Exec(s, LoopActions([Message(ok, commitFails)]));
      && t.size == s.size && t.position == s.position + 1
      && t.handled == (if ok then s.handled + [s.position] else s.handled)
      && t.failed == (if ok then s.failed else s.failed + [s.position])
      && t.committed == (if ok && !commitFails then Some(s.position + 1) else s.committed)
  {
    var turns := [Message(ok, commitFails)];
    assert LoopActions(turns) == [TurnAction(turns[0])] + LoopActions(turns[1..]) == [TurnAction(turns[0])];
    assert Exec(s, [TurnAction(turns[0])]) == Exec(Apply(s, TurnAction(turns[0])), [TurnAction(turns[0])][1..]);
  }

  class Reader {
    var size: nat
    var position: nat
    var committed: Option<nat>
    ghost var handled: seq<nat>
    ghost var failed: seq<nat>

    ghost function View(): State
      reads this
    {
      State(size, position, committed, handled, failed)
    }

    constructor (size: nat)
      ensures Initial(View()) && this.size == size
    {
      this.size, position, committed, handled, failed := size, size, None, [], [];
    }

    method Consume(turns: seq<Turn>)
      modifies this
      ensures View() == Exec(old(View()), LoopActions(turns))
      ensures committed == old(committed) || (committed.Some? && committed.value > 0 && committed.value - 1 in handled)
    {
      var n := 0;
      while n < |turns| && !turns[n].Cancelled?
        invariant 0 <= n <= |turns|
        invariant Exec(View(), LoopActions(turns[n..])) == Exec(old(View()), LoopActions(turns))
        invariant committed == old(committed)
                  || (committed.Some? && committed.value > 0 && committed.value - 1 in handled)
      {
        var turn := turns[n];
        assert turns[n..][1..] == turns[n + 1..];
        ghost var s := View();
        assert LoopActions(turns[n..])[1..] == LoopActions(turns[n + 1..]);
        if turn.Message? && position < size {
          var msg := position;
          position := position + 1;
          if turn.handlerOk {
            handled := handled + [msg];
            if !turn.commitFails {
              committed := Some(msg + 1);
            }
          } else {
            failed := failed + [msg];
          }
        }
        assert View() == Apply(s, TurnAction(turn));
        n := n + 1;
      }
      assert LoopActions(turns[n..]) == [];
    }
  }
}
