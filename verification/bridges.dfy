/** Two ways of speaking about deliveries, and what they have to do with runs of the pipeline: the rounds of module
    Rounds, and the offsets of module Consumer. */
module Bridges {
  import opened Schema
  import opened Effects
  import opened Pipeline
  import opened Invariant
  import opened Delivery
  import opened Rounds
  import Consumer

  // ----- a round is a run -----

  function IndexOf(published: seq<GroupKey>, k: GroupKey): (i: nat)
    ensures k in published ==> i < |published| && published[i] == k
  {
    if published == [] || published[0] == k then 0 else 1 + IndexOf(published[1..], k)
  }

  /** The clock after the listed groups are handled. */
  function ClockAfter(handled: seq<GroupKey>, at: ClockFor, now: nat): nat {
    if handled == [] then now else at(handled[|handled| - 1])
  }

  ghost predicate InTime(handled: seq<GroupKey>, at: ClockFor, now: nat) {
    forall i :: 0 <= i < |handled| ==> ClockAfter(handled[..i], at, now) <= at(handled[i])
  }

  /** One step of waiting and one settle delivery for each handled group; base is where the poll's events start. */
  ghost function HandleRun(base: nat, published: seq<GroupKey>, handled: seq<GroupKey>, ids: IdsFor, at: ClockFor,
                           now: nat): seq<Action>
    requires InTime(handled, at, now)
  {
    if handled == [] then []
    else
      var n := |handled| - 1;
      var before := handled[..n];
      assert forall i :: 0 <= i <= n ==> before[..i] == handled[..i];
      HandleRun(base, published, before, ids, at, now)
      + [Wait(at(handled[n]) - ClockAfter(before, at, now))]
        + [Settle(base + IndexOf(published, handled[n]), ids(handled[n]))]
  }

  /** Transaction groups are generated too. */
  ghost predicate FreshGroups(ledger: seq<Entry>, ids: IdsFor) {
    && (forall k :: UnusedGroup(ledger, Txg(ids(k).group)))
    && (forall j, k :: j != k ==> ids(j).group != ids(k).group)
  }

  lemma {:induction false} PairsUseTheirGroups(t: Tables, now: nat, keys: seq<GroupKey>, ids: IdsFor, k: GroupKey)
    requires k !in keys && forall j, l :: j != l ==> ids(j).group != ids(l).group
    ensures UnusedGroup(PairsFor(t, now, keys, ids), Txg(ids(k).group))
  {
    if keys != [] {
      PairsUseTheirGroups(t, now, keys[..|keys| - 1], ids, k);
      hide PayableOf, BankOf;
    }
  }

  lemma {:induction false} ExecOn(s: State, a: seq<Action>, b: seq<Action>)
    ensures Exec(s, a + b) == Exec(Exec(s, a), b)
    decreases |b|
  {
    if b == [] {
      assert a + b == a;
    } else {
      assert (a + b)[..|a + b| - 1] == a + b[..|b| - 1];
      ExecOn(s, a, b[..|b| - 1]);
    }
  }

  lemma ExecOne(s: State, a: Action)
    ensures Exec(s, [a]) == Apply(s, a)
  {
    assert [a][..0] == [];
  }

  /** What a poll leaves behind: the same tables, and its events at the end of the log. */
  lemma PollLogs(s: State, published: seq<GroupKey>)
    requires CanPublish(s.tables, s.now, published)
    ensures Apply(s, Poll(published)) == s.(log := s.log + GroupEvents(s.tables, s.now, published))
  {
  }

  /** The poll and the deliveries lead to what HandleAll computes. */
  ghost predicate RunsTo(s: State, published: seq<GroupKey>, handled: seq<GroupKey>, ids: IdsFor, at: ClockFor) {
    && InTime(handled, at, s.now) && HandleAll(s.tables, s.now, handled, ids, at).Some?
    && Exec(s, [Poll(published)] + HandleRun(|s.log|, published, handled, ids, at, s.now))
       == State(ClockAfter(handled, at, s.now), HandleAll(s.tables, s.now, handled, ids, at).value, s.phases,
                s.log + GroupEvents(s.tables, s.now, published))
  }

  /** Handling some of the published groups, in any order and at any later times, is what HandleAll computes. */
  lemma {:induction false} RunIsHandleAll(s: State, published: seq<GroupKey>, handled: seq<GroupKey>, ids: IdsFor,
                                          at: ClockFor)
    requires Sound(s.tables) && FreshIds(s.tables, ids) && FreshGroups(s.tables.ledger, ids)
    requires CanPublish(s.tables, s.now, published) && Distinct(handled) && InTime(handled, at, s.now)
    requires forall i :: 0 <= i < |handled| ==> handled[i] in published
    ensures RunsTo(s, published, handled, ids, at)
  {
    hide Sound, FreshIds, FreshGroups, DueKeys, CanPublish, Distinct, RunsTo;
    if handled == [] {
      NothingToHandle(s, published, ids, at);
    } else {
      var before := handled[..|handled| - 1];
      InTimeBefore(handled, at, s.now);
      LessDistinct(handled);
      RunIsHandleAll(s, published, before, ids, at);
      PublishedAreDue(s, published, handled);
      OneMoreHandled(s, published, handled, ids, at);
    }
  }

  lemma InTimeBefore(handled: seq<GroupKey>, at: ClockFor, now: nat)
    requires handled != [] && InTime(handled, at, now)
    ensures InTime(handled[..|handled| - 1], at, now)
    ensures at(handled[|handled| - 1]) >= ClockAfter(handled[..|handled| - 1], at, now)
  {
    var before := handled[..|handled| - 1];
    assert forall i :: 0 <= i <= |before| ==> before[..i] == handled[..i];
  }

  lemma LessDistinct(handled: seq<GroupKey>)
    requires handled != [] && Distinct(handled)
    ensures Distinct(handled[..|handled| - 1]) && handled[|handled| - 1] !in handled[..|handled| - 1]
  {
  }

  lemma PublishedAreDue(s: State, published: seq<GroupKey>, handled: seq<GroupKey>)
    requires CanPublish(s.tables, s.now, published) && forall i :: 0 <= i < |handled| ==> handled[i] in published
    ensures forall i :: 0 <= i < |handled| ==> handled[i] in DueKeys(s.tables, s.now)
  {
    hide DueKeys;
    forall i | 0 <= i < |handled| ensures handled[i] in DueKeys(s.tables, s.now) {
      assert published[IndexOf(published, handled[i])] == handled[i];
    }
  }

  lemma NothingToHandle(s: State, published: seq<GroupKey>, ids: IdsFor, at: ClockFor)
    requires CanPublish(s.tables, s.now, published)
    ensures RunsTo(s, published, [], ids, at)
  {
    hide CanPublish, Exec, GroupEvents;
    assert [Poll(published)] + HandleRun(|s.log|, published, [], ids, at, s.now) == [Poll(published)];
    ExecOne(s, Poll(published));
    PollLogs(s, published);
  }

  lemma OneMoreHandled(s: State, published: seq<GroupKey>, handled: seq<GroupKey>, ids: IdsFor, at: ClockFor)
    requires handled != [] && InTime(handled, at, s.now) && RunsTo(s, published, handled[..|handled| - 1], ids, at)
    requires Sound(s.tables) && FreshIds(s.tables, ids) && FreshGroups(s.tables.ledger, ids)
    requires CanPublish(s.tables, s.now, published) && Distinct(handled) && Distinct(handled[..|handled| - 1])
    requires handled[|handled| - 1] !in handled[..|handled| - 1]
    requires forall i :: 0 <= i < |handled| ==> handled[i] in published && handled[i] in DueKeys(s.tables, s.now)
    ensures RunsTo(s, published, handled, ids, at)
  {
    hide Sound, FreshIds, FreshGroups, Looks, DueKeys, SettleEffect, Exec, CanPublish, GroupEvents, Distinct, PairsFor,
         UnusedGroup;
    hide HandleRun, InTime, Apply;
    var t, now := s.tables, s.now;
    var k, before := handled[|handled| - 1], handled[..|handled| - 1];
    InTimeBefore(handled, at, now);
    HandleAllLooks(t, now, handled, ids, at);
    HandleAllLooks(t, now, before, ids, at);
    GroupsDiffer(t.ledger, ids);
    PairsUseTheirGroups(t, now, before, ids, k);
    var t' := HandleAll(t, now, before, ids, at).value;
    NextSettles(s, published, k, t', PairsFor(t, now, before, ids), ids, at);
    LastTwo(s, published, handled, ids, at);
    WaitWaits(Exec(s, [Poll(published)] + HandleRun(|s.log|, published, before, ids, at, now)),
              at(k) - ClockAfter(before, at, now));
  }

  lemma WaitWaits(s: State, d: nat)
    ensures Apply(s, Wait(d)) == s.(now := s.now + d)
  {
  }

  lemma LastTwo(s: State, published: seq<GroupKey>, handled: seq<GroupKey>, ids: IdsFor, at: ClockFor)
    requires handled != [] && InTime(handled, at, s.now)
    ensures var before, k := handled[..|handled| - 1], handled[|handled| - 1];
      && InTime(before, at, s.now) && at(k) >= ClockAfter(before, at, s.now)
      && Exec(s, [Poll(published)] + HandleRun(|s.log|, published, handled, ids, at, s.now))
         == Apply(Apply(Exec(s, [Poll(published)] + HandleRun(|s.log|, published, before, ids, at, s.now)),
                        Wait(at(k) - ClockAfter(before, at, s.now))),
                  Settle(|s.log| + IndexOf(published, k), ids(k)))
  {
    hide Exec, Apply, InTime, IndexOf, ClockAfter, HandleRun;
    InTimeBefore(handled, at, s.now);
    var k, before := handled[|handled| - 1], handled[..|handled| - 1];
    var run := HandleRun(|s.log|, published, before, ids, at, s.now);
    var wait, settle := Wait(at(k) - ClockAfter(before, at, s.now)), Settle(|s.log| + IndexOf(published, k), ids(k));
    HandleRunLast(|s.log|, published, handled, ids, at, s.now);
    assert [Poll(published)] + (run + [wait] + [settle]) == ([Poll(published)] + run) + [wait] + [settle];
    TwoMore(s, [Poll(published)] + run, wait, settle);
  }

  lemma HandleRunLast(base: nat, published: seq<GroupKey>, handled: seq<GroupKey>, ids: IdsFor, at: ClockFor, now: nat)
    requires handled != [] && InTime(handled, at, now)
    ensures var before, k := handled[..|handled| - 1], handled[|handled| - 1];
      && InTime(before, at, now) && at(k) >= ClockAfter(before, at, now)
      && HandleRun(base, published, handled, ids, at, now)
         == HandleRun(base, published, before, ids, at, now)
            + [Wait(at(k) - ClockAfter(before, at, now))] + [Settle(base + IndexOf(published, k), ids(k))]
  {
    InTimeBefore(handled, at, now);
    hide InTime, IndexOf, ClockAfter;
  }

  lemma GroupsDiffer(ledger: seq<Entry>, ids: IdsFor)
    requires FreshGroups(ledger, ids)
    ensures forall j, l :: j != l ==> ids(j).group != ids(l).group
  {
  }

  lemma TwoMore(s: State, first: seq<Action>, a: Action, b: Action)
    ensures Exec(s, first + [a] + [b]) == Apply(Apply(Exec(s, first), a), b)
  {
    hide Apply, Exec;
    ExecOn(s, first, [a]);
    ExecOn(s, first + [a], [b]);
    ExecOne(Exec(s, first), a);
    ExecOne(Exec(s, first + [a]), b);
  }

  /** The delivery of one published group to tables in which other groups were handled. */
  lemma NextSettles(s: State, published: seq<GroupKey>, k: GroupKey, t': Tables, pairs: seq<Entry>, ids: IdsFor,
                    at: ClockFor)
    requires k in published && CanPublish(s.tables, s.now, published) && FreshGroups(s.tables.ledger, ids)
    requires t'.ledger == s.tables.ledger + pairs && UnusedGroup(pairs, Txg(ids(k).group))
    requires SettleEffect(t', at(k), GroupEvent(s.tables, s.now, k), ids(k)).Some?
    ensures var u := State(at(k), t', s.phases, s.log + GroupEvents(s.tables, s.now, published));
      Apply(u, Settle(|s.log| + IndexOf(published, k), ids(k)))
      == u.(tables := SettleEffect(t', at(k), GroupEvent(s.tables, s.now, k), ids(k)).value)
  {
    hide SettleEffect, GroupEvent, CanPublish;
    var i := IndexOf(published, k);
    assert (s.log + GroupEvents(s.tables, s.now, published))[|s.log| + i] == GroupEvent(s.tables, s.now, published[i]);
  }

  // ----- a consumer's deliveries are steps of a run -----

  /** The settle deliveries of a consumer run: a handler that reports success has handled its message; one that
      reports an error has not, or has and lost the acknowledgement. */
  ghost function Deliveries(c: Consumer.State, acts: seq<Consumer.Action>, ids: nat -> SettleIds,
                            acked: nat -> bool): seq<Action>
    decreases |acts|
  {
    if acts == [] then []
    else
      var a := acts[0];
      var n := |c.handled| + |c.failed|;
      (if a.Deliver? && c.position < c.size && (a.ok || acked(n)) then [Settle(c.position, ids(n))] else [])
      + Deliveries(Consumer.Apply(c, a), acts[1..], ids, acked)
  }

  /** All of them are of messages in the log, so with the run before them they make a run of the pipeline; and what
      the consumer redelivers, after restarts or lost acknowledgements, changes nothing. */
  lemma ConsumerRunsArePipelineRuns(s0: State, before: seq<Action>, c: Consumer.State, acts: seq<Consumer.Action>,
                                    ids: nat -> SettleIds, acked: nat -> bool)
    requires Initial(s0) && Consumer.Inv(c) && c.size == |Exec(s0, before).log|
    requires forall k :: 0 <= k < |acts| ==> !acts[k].Append?
    ensures var run := Deliveries(c, acts, ids, acked);
      && (forall k :: 0 <= k < |run| ==> run[k].Settle? && run[k].i < |Exec(s0, before).log|)
      && Inv(Exec(s0, before + run))
      && Exec(s0, OncePerEvent(s0, before + run)) == Exec(s0, before + run)
  {
    DeliveredIsLogged(c, acts, ids, acked);
    Always(s0, before + Deliveries(c, acts, ids, acked));
    RepeatsChangeNothing(s0, before + Deliveries(c, acts, ids, acked));
  }

  lemma {:induction false} DeliveredIsLogged(c: Consumer.State, acts: seq<Consumer.Action>, ids: nat -> SettleIds,
                                             acked: nat -> bool)
    requires Consumer.Inv(c) && forall k :: 0 <= k < |acts| ==> !acts[k].Append?
    ensures forall a :: a in Deliveries(c, acts, ids, acked) ==> a.Settle? && a.i < c.size
    decreases |acts|
  {
    if acts != [] {
      Consumer.Always(c, [acts[0]]);
      DeliveredIsLogged(Consumer.Apply(c, acts[0]), acts[1..], ids, acked);
    }
  }
}
