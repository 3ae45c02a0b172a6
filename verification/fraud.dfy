/** The fraud service: a fixed-window attempt counter per card token, kept in Redis, and the score it
    leads to. INCR creates the key without a deadline; EXPIRE, sent after a first attempt, sets one. */
module Fraud {
  import opened Schema

  const WINDOW: nat := 60
  const ALLOWED: nat := 3
  const HIGH_RISK: int := 90
  const ALERT_ABOVE: int := 80
  const LARGE_AMOUNT: int := 100000

  /** window and start say which life of the key this is and when it began; they only serve the proofs. */
  datatype Counter = Counter(count: nat, deadline: Option<nat>, window: nat, start: nat)

  /** Answered, lost after it was applied, or not applied. */
  datatype Reply = Answered | AckLost | Failed

  /** One computed score. order is the position of its increment in the window, 0 if none was applied. */
  datatype Score = Score(token: Token, time: nat, window: nat, order: nat, reply: Reply, value: int)

  datatype State = State(now: nat, counters: map<Token, Counter>, log: seq<Score>)

  datatype Action =
    | Wait(seconds: nat)
    | Attempt(token: Token, amount: int, draw: nat, reply: Reply)
    | Expire(token: Token)

  function Live(c: Counter, now: nat): bool {
    c.deadline.None? || now < c.deadline.value
  }

  function Incr(counters: map<Token, Counter>, token: Token, now: nat): Counter {
    if token !in counters then Counter(1, None, 0, now)
    else if Live(counters[token], now) then counters[token].(count := counters[token].count + 1)
    else Counter(1, None, counters[token].window + 1, now)
  }

  /** EXPIRE acts on whatever key is there: it can come late, twice or never. */
  function SetDeadline(counters: map<Token, Counter>, token: Token, now: nat): map<Token, Counter> {
    if token in counters && Live(counters[token], now)
    then counters[token := counters[token].(deadline := Some(now + WINDOW))]
    else counters
  }

  /** rand.Intn(50), 30 more for a large amount. */
  function Simulated(amount: int, draw: nat): int {
    draw % 50 + if amount > LARGE_AMOUNT then 30 else 0
  }

  function ScoreOf(attempts: nat, amount: int, draw: nat): int {
    if attempts > ALLOWED then HIGH_RISK else Simulated(amount, draw)
  }

  function Apply(s: State, a: Action): State {
    match a
    case Wait(d) => s.(now := s.now + d)
    case Expire(token) => s.(counters := SetDeadline(s.counters, token, s.now))
    case Attempt(token, amount, draw, reply) =>
      if reply.Failed? then s.(log := s.log + [Score(token, s.now, 0, 0, reply, ScoreOf(0, amount, draw))])
      else
        var c := Incr(s.counters, token, s.now);
        var attempts := if reply.Answered? then c.count else 0;
        State(s.now, s.counters[token := c],
              s.log + [Score(token, s.now, c.window, c.count, reply, ScoreOf(attempts, amount, draw))])
  }

  ghost function Exec(s: State, acts: seq<Action>): State {
    if acts == [] then s else Apply(Exec(s, acts[..|acts| - 1]), acts[|acts| - 1])
  }

  ghost predicate Initial(s: State) {
    s.counters == map[] && s.log == []
  }

  // ----- the invariant -----

  predicate Applied(e: Score) {
    e.order >= 1
  }

  ghost predicate CounterOk(c: Counter, now: nat) {
    c.start <= now && c.count >= 1 && (c.deadline.Some? ==> c.deadline.value >= c.start + WINDOW)
  }

  /** Where a score stands to the life of the key that is current now. */
  ghost predicate EntryOk(e: Score, counters: map<Token, Counter>, now: nat) {
    && e.time <= now
    && (e.reply.Answered? ==> Applied(e) && if e.order > ALLOWED then e.value == HIGH_RISK else e.value <= ALERT_ABOVE)
    && (!e.reply.Answered? ==> e.value <= ALERT_ABOVE)
    && (Applied(e) ==> e.token in counters && Placed(e, counters[e.token]))
  }

  predicate Placed(e: Score, c: Counter) {
    && e.window <= c.window
    && (e.window == c.window ==> c.start <= e.time && e.order <= c.count && (e.order == 1 ==> e.time == c.start))
    && (e.window + 1 == c.window ==> e.time <= c.start && (e.order == 1 ==> e.time + WINDOW <= c.start))
    && (e.window + 2 <= c.window ==> e.time + WINDOW <= c.start)
  }

  /** Two scores of one token, in order. */
  predicate PairOk(a: Score, b: Score) {
    && a.window <= b.window && a.time <= b.time
    && (a.window == b.window ==> a.order < b.order)
    && (a.window + 1 == b.window && a.order == 1 ==> a.time + WINDOW <= b.time)
    && (a.window + 2 <= b.window ==> a.time + WINDOW <= b.time)
  }

  predicate Related(a: Score, b: Score) {
    Applied(a) && Applied(b) && a.token == b.token
  }

  /** The increments of one life of a token's key among the first n scores. */
  ghost function InWindow(log: seq<Score>, n: nat, token: Token, window: nat): set<nat> {
    set i: nat | i < n && i < |log| && Applied(log[i]) && log[i].token == token && log[i].window == window
  }

  ghost predicate CountersOk(s: State) {
    forall k :: k in s.counters ==>
      CounterOk(s.counters[k], s.now) && s.counters[k].count == |InWindow(s.log, |s.log|, k, s.counters[k].window)|
  }

  ghost predicate EntriesOk(s: State) {
    forall i :: 0 <= i < |s.log| ==> EntryOk(s.log[i], s.counters, s.now)
  }

  ghost predicate PairsOk(log: seq<Score>) {
    forall i, j :: 0 <= i < j < |log| && Related(log[i], log[j]) ==> PairOk(log[i], log[j])
  }

  ghost predicate OrdersOk(log: seq<Score>) {
    forall i: nat :: i < |log| && Applied(log[i]) ==>
      log[i].order == |InWindow(log, i, log[i].token, log[i].window)| + 1
  }

  ghost predicate Inv(s: State) {
    CountersOk(s) && EntriesOk(s) && PairsOk(s.log) && OrdersOk(s.log)
  }

  lemma InWindowGrows(log: seq<Score>, e: Score, n: nat, token: Token, window: nat)
    requires n <= |log|
    ensures InWindow(log + [e], n, token, window) == InWindow(log, n, token, window)
    ensures |InWindow(log + [e], |log| + 1, token, window)|
            == |InWindow(log, |log|, token, window)| + if Applied(e) && e.token == token && e.window == window then 1
              else 0
  {
    assert forall i :: 0 <= i < |log| ==> (log + [e])[i] == log[i];
    assert InWindow(log + [e], |log| + 1, token, window)
        == InWindow(log, |log|, token, window) + if Applied(e) && e.token == token && e.window == window then {|log|}
          else {};
  }

  /** What one more score needs to keep the order facts about the log. */
  lemma LogGrows(log: seq<Score>, e: Score)
    requires PairsOk(log) && OrdersOk(log)
    requires Applied(e) ==> e.order == |InWindow(log, |log|, e.token, e.window)| + 1
    requires forall i :: 0 <= i < |log| && Related(log[i], e) ==> PairOk(log[i], e)
    ensures PairsOk(log + [e]) && OrdersOk(log + [e])
  {
    hide PairOk, InWindow;
    forall i: nat | i < |log + [e]| && Applied((log + [e])[i])
      ensures (log + [e])[i].order == |InWindow(log + [e], i, (log + [e])[i].token, (log + [e])[i].window)| + 1
    {
      InWindowGrows(log, e, i, (log + [e])[i].token, (log + [e])[i].window);
    }
    hide OrdersOk;
    assert forall i, j :: 0 <= i < j < |log| ==> (log + [e])[i] == log[i] && (log + [e])[j] == log[j];
  }

  /** No score is in a life of the key that has not begun. */
  lemma NoneYet(s: State, token: Token, window: nat)
    requires EntriesOk(s) && (token in s.counters ==> s.counters[token].window < window)
    ensures InWindow(s.log, |s.log|, token, window) == {}
  {
    forall i: nat | i < |s.log| && Applied(s.log[i]) && s.log[i].token == token ensures s.log[i].window != window {
      assert EntryOk(s.log[i], s.counters, s.now);
    }
  }

  lemma IncrCounts(s: State, token: Token)
    requires Inv(s)
    ensures var c := Incr(s.counters, token, s.now);
            CounterOk(c, s.now) && c.count == |InWindow(s.log, |s.log|, token, c.window)| + 1
  {
    hide PairsOk, OrdersOk;
    if token !in s.counters {
      NoneYet(s, token, 0);
    } else if !Live(s.counters[token], s.now) {
      NoneYet(s, token, s.counters[token].window + 1);
    }
    hide InWindow, EntriesOk;
  }

  /** An earlier score, seen from the life of the key in which the next increment falls. */
  lemma EarlierScore(x: Score, e: Score, counters: map<Token, Counter>, now: nat)
    requires EntryOk(x, counters, now) && (e.token in counters ==> CounterOk(counters[e.token], now))
    requires var c := Incr(counters, e.token, now); e.time == now && e.window == c.window && e.order == c.count
    ensures EntryOk(x, counters[e.token := Incr(counters, e.token, now)], now)
    ensures Related(x, e) ==> PairOk(x, e)
  {
  }

  lemma CountersGrow(s: State, e: Score, counters: map<Token, Counter>)
    requires CountersOk(s)
    requires if Applied(e)
             then e.token in counters && counters == s.counters[e.token := counters[e.token]]
               && counters[e.token].window == e.window
                  && CounterOk(counters[e.token], s.now)
                  && counters[e.token].count == |InWindow(s.log, |s.log|, e.token, e.window)| + 1
             else counters == s.counters
    ensures CountersOk(State(s.now, counters, s.log + [e]))
  {
    hide CounterOk, InWindow;
    forall k | k in counters
      ensures CounterOk(counters[k], s.now)
              && counters[k].count == |InWindow(s.log + [e], |s.log + [e]|, k, counters[k].window)|
    {
      InWindowGrows(s.log, e, |s.log|, k, counters[k].window);
      assert k == e.token || counters[k] == s.counters[k];
    }
  }

  lemma AttemptStep(s: State, a: Action)
    requires Inv(s) && a.Attempt? && !a.reply.Failed?
    ensures Inv(Apply(s, a))
  {
    var s', c := Apply(s, a), Incr(s.counters, a.token, s.now);
    var e := Score(a.token, s.now, c.window, c.count, a.reply,
                   ScoreOf(if a.reply.Answered? then c.count else 0, a.amount, a.draw));
    assert s' == State(s.now, s.counters[a.token := c], s.log + [e]);
    IncrCounts(s, a.token);
    CountersGrow(s, e, s'.counters);
    assert EntryOk(e, s'.counters, s.now);
    forall i | 0 <= i < |s.log|
      ensures EntryOk(s.log[i], s'.counters, s.now) && (Related(s.log[i], e) ==> PairOk(s.log[i], e))
    {
      EarlierScore(s.log[i], e, s.counters, s.now);
    }
    hide EntryOk, PairOk, Related, PairsOk, OrdersOk, CountersOk, InWindow, Incr;
    LogGrows(s.log, e);
  }

  lemma FailedStep(s: State, a: Action)
    requires Inv(s) && a.Attempt? && a.reply.Failed?
    ensures Inv(Apply(s, a))
  {
    var e := Score(a.token, s.now, 0, 0, a.reply, ScoreOf(0, a.amount, a.draw));
    CountersGrow(s, e, s.counters);
    LogGrows(s.log, e);
  }

  lemma Step(s: State, a: Action)
    requires Inv(s)
    ensures Inv(Apply(s, a))
  {
    if a.Attempt? {
      if a.reply.Failed? { FailedStep(s, a); } else { AttemptStep(s, a); }
    } else {
      var s' := Apply(s, a);
      forall i | 0 <= i < |s.log| ensures EntryOk(s.log[i], s'.counters, s'.now) {
        assert EntryOk(s.log[i], s.counters, s.now);
      }
    }
  }

  lemma {:induction false} Always(s: State, acts: seq<Action>)
    requires Initial(s)
    ensures Inv(Exec(s, acts))
  {
    if acts != [] {
      Always(s, acts[..|acts| - 1]);
      Step(Exec(s, acts[..|acts| - 1]), acts[|acts| - 1]);
    }
  }

  // ----- the properties -----

  /** A score raises the alert exactly when its increment was answered and is the fourth or a later one
      since the key was created. */
  lemma AlertFromTheFourthOn(s: State, acts: seq<Action>, i: nat)
    requires Initial(s) && i < |Exec(s, acts).log|
    ensures var log := Exec(s, acts).log;
            && (log[i].value > 80 <==>
                log[i].reply.Answered? && |InWindow(log, i, log[i].token, log[i].window)| >= 3)
            && (log[i].value > 80 ==> log[i].value == 90)
  {
    Always(s, acts);
    var t := Exec(s, acts);
    assert EntryOk(t.log[i], t.counters, t.now);
  }

  /** Scores below the high-risk score that a token got from answered increments in [from, from + 60). */
  ghost function Lenient(log: seq<Score>, token: Token, from: nat): set<nat> {
    set i: nat | i < |log| && log[i].token == token && log[i].reply.Answered? && log[i].value < 90
                 && from <= log[i].time < from + 60
  }

  /** The first of the lenient scores: every other is in its life of the key or in the next one. */
  lemma {:induction false} First(log: seq<Score>, s: set<nat>) returns (m: nat)
    requires s != {} && forall i :: i in s ==> i < |log|
    ensures m in s && forall i :: i in s ==> m <= i
    decreases s
  {
    var i :| i in s;
    if s == {i} {
      m := i;
    } else {
      var r := First(log, s - {i});
      m := if r < i then r else i;
      assert forall j :: j in s ==> j == i || j in s - {i};
    }
  }

  /** In any half-open 60-second interval a token gets at most five scores below the high-risk one from
      answered increments, however late the expirations come, and even if some never do. */
  lemma VelocityBound(s: State, acts: seq<Action>, token: Token, from: nat)
    requires Initial(s)
    ensures |Lenient(Exec(s, acts).log, token, from)| <= 5
  {
    Always(s, acts);
    AtMostFive(Exec(s, acts), token, from);
  }

  /** Slots for the lenient scores around life w of the key: its attempts 2 and 3, then those of the next
      life; its attempt 1 shares a slot with attempt 3 of the next, which is at least 60 seconds later. */
  function Place(e: Score, w: nat): nat {
    if e.window == w then (if e.order >= 2 then e.order - 2 else 4) else e.order + 1
  }

  lemma {:induction false} FitsIn(log: seq<Score>, s: set<nat>, w: nat, n: nat)
    requires forall i :: i in s ==> i < |log| && Place(log[i], w) < n
    requires forall i, j :: i in s && j in s && i < j ==> Place(log[i], w) != Place(log[j], w)
    ensures |s| <= n
  {
    if s != {} {
      var i :| i in s;
      assert Place(log[i], w) < n;
      if j :| j in s && Place(log[j], w) == n - 1 {
        FitsIn(log, s - {j}, w, n - 1);
      } else {
        FitsIn(log, s, w, n - 1);
      }
    }
  }

  lemma LenientPlace(s: State, m: nat, i: nat, token: Token, from: nat)
    requires Inv(s) && m in Lenient(s.log, token, from) && i in Lenient(s.log, token, from) && m <= i
    ensures 1 <= s.log[i].order <= ALLOWED && s.log[m].window <= s.log[i].window <= s.log[m].window + 1
  {
    hide OrdersOk, CountersOk;
    assert EntryOk(s.log[i], s.counters, s.now) && EntryOk(s.log[m], s.counters, s.now);
    assert m == i || Related(s.log[m], s.log[i]);
  }

  lemma PlacesDiffer(s: State, w: nat, i: nat, j: nat, token: Token, from: nat)
    requires Inv(s) && i in Lenient(s.log, token, from) && j in Lenient(s.log, token, from) && i < j
    requires 1 <= s.log[i].order <= ALLOWED && w <= s.log[i].window <= w + 1
    requires 1 <= s.log[j].order <= ALLOWED && w <= s.log[j].window <= w + 1
    ensures Place(s.log[i], w) != Place(s.log[j], w)
  {
    hide OrdersOk, CountersOk, EntriesOk;
    assert Related(s.log[i], s.log[j]) && PairOk(s.log[i], s.log[j]);
  }

  lemma AtMostFive(s: State, token: Token, from: nat)
    requires Inv(s)
    ensures |Lenient(s.log, token, from)| <= 5
  {
    var log, lenient := s.log, Lenient(s.log, token, from);
    assert forall i :: i in lenient ==> i < |log|;
    hide Inv, Lenient;
    if lenient != {} {
      var m := First(log, lenient);
      var w := log[m].window;
      forall i | i in lenient
        ensures 1 <= log[i].order <= ALLOWED && w <= log[i].window <= w + 1 && Place(log[i], w) < 5
      {
        LenientPlace(s, m, i, token, from);
      }
      hide Place;
      forall i, j | i in lenient && j in lenient && i < j ensures Place(log[i], w) != Place(log[j], w) {
        PlacesDiffer(s, w, i, j, token, from);
      }
      FitsIn(log, lenient, w, 5);
    }
  }

  // ----- the bound is sharp -----

  lemma Extend(s: State, acts: seq<Action>, a: Action)
    ensures Exec(s, acts + [a]) == Apply(Exec(s, acts), a)
  {
    assert (acts + [a])[..|acts + [a]| - 1] == acts;
  }

  const EMPTY: State := State(0, map[], [])

  function Try(token: Token): Action {
    Attempt(token, 1, 0, Answered)
  }

  function Low(token: Token, time: nat, window: nat, order: nat): Score {
    Score(token, time, window, order, Answered, 0)
  }

  lemma TryStep(s: State, token: Token)
    requires s.counters.Keys <= {token} && Incr(s.counters, token, s.now).count <= ALLOWED
    ensures var c := Incr(s.counters, token, s.now);
            Apply(s, Try(token)) == State(s.now, map[token := c], s.log + [Low(token, s.now, c.window, c.count)])
  {
    assert s.counters[token := Incr(s.counters, token, s.now)] == map[token := Incr(s.counters, token, s.now)];
  }

  /** One attempt at 0, two at 59, three more at 60. */
  function AcrossTwoWindows(token: Token): seq<Action> {
    [Try(token), Expire(token), Wait(59), Try(token), Try(token)] + [Wait(1), Try(token), Try(token), Try(token)]
  }

  lemma FirstWindow(token: Token)
    ensures Exec(EMPTY, AcrossTwoWindows(token)[..5])
            == State(59, map[token := Counter(3, Some(60), 0, 0)],
                     [Low(token, 0, 0, 1), Low(token, 59, 0, 2), Low(token, 59, 0, 3)])
  {
    var w := AcrossTwoWindows(token);
    Extend(EMPTY, [], w[0]);
    Extend(EMPTY, w[..1], w[1]);
    Extend(EMPTY, w[..2], w[2]);
    Extend(EMPTY, w[..3], w[3]);
    Extend(EMPTY, w[..4], w[4]);
    assert w[..1] == [] + [w[0]] && w[..2] == w[..1] + [w[1]] && w[..3] == w[..2] + [w[2]] && w[..4] == w[..3] + [w[3]];
    assert w[..5] == w[..4] + [w[4]];
    TryStep(EMPTY, token);
    var s1 := State(0, map[token := Counter(1, Some(60), 0, 0)], [Low(token, 0, 0, 1)]);
    assert Apply(Apply(EMPTY, w[0]), w[1]).counters == s1.counters;
    var s3 := State(59, s1.counters, s1.log);
    TryStep(s3, token);
    TryStep(State(59, map[token := Counter(2, Some(60), 0, 0)], s1.log + [Low(token, 59, 0, 2)]), token);
  }

  lemma SecondWindow(token: Token)
    ensures Exec(EMPTY, AcrossTwoWindows(token)).log
            == [Low(token, 0, 0, 1), Low(token, 59, 0, 2), Low(token, 59, 0, 3), Low(token, 60, 1, 1),
                Low(token, 60, 1, 2), Low(token, 60, 1, 3)]
  {
    var w := AcrossTwoWindows(token);
    FirstWindow(token);
    Extend(EMPTY, w[..5], w[5]);
    Extend(EMPTY, w[..6], w[6]);
    Extend(EMPTY, w[..7], w[7]);
    Extend(EMPTY, w[..8], w[8]);
    assert w[..6] == w[..5] + [w[5]] && w[..7] == w[..6] + [w[6]] && w[..8] == w[..7] + [w[7]] && w == w[..8] + [w[8]];
    var s5 := Exec(EMPTY, w[..5]);
    var s6 := s5.(now := 60);
    TryStep(s6, token);
    var s7 := State(60, map[token := Counter(1, None, 1, 60)], s5.log + [Low(token, 60, 1, 1)]);
    TryStep(s7, token);
    var s8 := State(60, map[token := Counter(2, None, 1, 60)], s7.log + [Low(token, 60, 1, 2)]);
    TryStep(s8, token);
    hide AcrossTwoWindows, Incr;
    assert Apply(s5, Wait(1)) == s6;
  }

  /** Five are reached: in [1, 61) this token gets two scores in one window and three in the next. */
  lemma VelocityBoundIsSharp(token: Token)
    ensures Lenient(Exec(EMPTY, AcrossTwoWindows(token)).log, token, 1) == {1, 2, 3, 4, 5}
    ensures |Lenient(Exec(EMPTY, AcrossTwoWindows(token)).log, token, 1)| == 5
  {
    SecondWindow(token);
  }

  // ----- the service -----

  datatype EventStatus = CreatedStatus | AuthorizedStatus | OtherStatus

  datatype PaymentEvent = PaymentEvent(paymentId: PaymentId, amount: int, status: EventStatus, token: Token)

  /** What Redis stores under a key. */
  datatype Key = Key(count: nat, deadline: Option<nat>)

  /** Redis still has the key. */
  predicate LiveKey(k: Key, now: nat) {
    k.deadline.None? || now < k.deadline.value
  }

  function KeysOf(counters: map<Token, Counter>): map<Token, Key> {
    map k | k in counters :: Key(counters[k].count, counters[k].deadline)
  }

  class FraudService {
    var keys: map<Token, Key>
    var riskScores: map<PaymentId, Option<int>>
    ghost var counters: map<Token, Counter>

    ghost predicate Valid()
      reads this
    {
      keys == KeysOf(counters)
    }

    constructor (riskScores: map<PaymentId, Option<int>>)
      ensures Valid() && counters == map[] && this.riskScores == riskScores
    {
      keys, counters, this.riskScores := map[], map[], riskScores;
    }

    /** INCR: one more on a live key, 1 on a new or expired one. */
    method Increment(token: Token, now: nat) returns (attempts: nat)
      requires Valid()
      modifies this`keys, this`counters
      ensures Valid() && counters == old(counters)[token := Incr(old(counters), token, now)]
              && attempts == counters[token].count
      ensures keys == old(keys)[token := if token in old(keys) && LiveKey(old(keys)[token], now)
                                         then Key(attempts, old(keys)[token].deadline) else Key(1, None)]
      ensures token in old(keys) && LiveKey(old(keys)[token], now) ==> attempts == old(keys)[token].count + 1
    {
      ghost var c := Incr(counters, token, now);
      if token in keys && LiveKey(keys[token], now) {
        attempts := keys[token].count + 1;
        keys := keys[token := keys[token].(count := attempts)];
      } else {
        attempts := 1;
        keys := keys[token := Key(1, None)];
      }
      counters := counters[token := c];
    }

    /** EXPIRE: a deadline for a live key. */
    method SetExpiry(token: Token, now: nat)
      requires Valid()
      modifies this`keys, this`counters
      ensures Valid() && counters == SetDeadline(old(counters), token, now)
      ensures keys == if token in old(keys) && LiveKey(old(keys)[token], now)
                      then old(keys)[token := Key(old(keys)[token].count, Some(now + 60))] else old(keys)
    {
      if token in keys && LiveKey(keys[token], now) {
        keys := keys[token := keys[token].(deadline := Some(now + WINDOW))];
      }
      counters := SetDeadline(counters, token, now);
    }

    /** A heuristic that stays below the alert threshold whatever is drawn. */
    method SimulateFraudCheck(amount: int, draw: nat) returns (score: int)
      ensures score == Simulated(amount, draw)
      ensures draw < 50 ==> score == draw + if amount > 100000 then 30 else 0
      ensures 0 <= score < 80 && (amount <= 100000 ==> score < 50) && (amount > 100000 ==> score >= 30)
    {
      score := draw % 50;
      if amount > LARGE_AMOUNT {
        score := score + 30;
      }
    }

    /** The velocity check: at most one increment and one expiration; an unanswered increment counts as no
        attempt. */
    method CountAttempt(e: PaymentEvent, now: nat, ghost draw: nat, incr: Reply, expireFails: bool)
      returns (attempts: nat, ghost acts: seq<Action>)
      requires Valid()
      modifies this`keys, this`counters
      ensures Valid()
      ensures acts == [Attempt(e.token, e.amount, draw, incr)]
                      + (if incr.Answered? && Incr(old(counters), e.token, now).count == 1 && !expireFails
                         then [Expire(e.token)] else [])
      ensures attempts == if incr.Answered? then Incr(old(counters), e.token, now).count else 0
      ensures var t := Exec(State(now, old(counters), []), acts);
              counters == t.counters && |t.log| == 1 && t.log[0].value == ScoreOf(attempts, e.amount, draw)
    {
      ghost var s := State(now, counters, []);
      acts := [Attempt(e.token, e.amount, draw, incr)];
      AttemptRuns(s, acts[0], Expire(e.token));
      attempts := 0;
      if !incr.Failed? {
        var count := Increment(e.token, now);
        if incr.Answered? {
          attempts := count;
        }
      }
      if incr.Answered? && attempts == 1 && !expireFails {
        SetExpiry(e.token, now);
        acts := acts + [Expire(e.token)];
      }
    }

    /** One delivery: the attempt is counted, and then the score is stored. */
    method HandlePaymentEvent(e: PaymentEvent, now: nat, draw: nat, incr: Reply, expireFails: bool, updateFails: bool)
      returns (ok: bool, alert: bool, ghost acts: seq<Action>)
      requires Valid()
      modifies this
      ensures Valid()
      ensures e.status.OtherStatus? ==> ok && !alert && acts == [] && riskScores == old(riskScores)
      ensures !e.status.OtherStatus? ==>
                acts == [Attempt(e.token, e.amount, draw, incr)]
                        + (if incr.Answered? && Incr(old(counters), e.token, now).count == 1 && !expireFails
                           then [Expire(e.token)] else [])
      ensures counters == Exec(State(now, old(counters), []), acts).counters
      ensures !e.status.OtherStatus? ==>
                var log := Exec(State(now, old(counters), []), acts).log;
                && |log| == 1 && ok == !updateFails
                && riskScores == (if ok && e.paymentId in old(riskScores)
                                  then old(riskScores)[e.paymentId := Some(log[0].value)] else old(riskScores))
                && (alert <==> ok && log[0].value > 80)
      ensures alert <==> ok && !e.status.OtherStatus? && incr.Answered?
                         && Incr(old(counters), e.token, now).count > 3
    {
      if e.status.OtherStatus? {
        return true, false, [];
      }
      hide Incr, Exec, KeysOf;
      var attempts;
      attempts, acts := CountAttempt(e, now, draw, incr, expireFails);
      var riskScore;
      if attempts > ALLOWED {
        riskScore := HIGH_RISK;
      } else {
        riskScore := SimulateFraudCheck(e.amount, draw);
      }
      if updateFails {
        return false, false, acts;
      }
      if e.paymentId in riskScores {
        riskScores := riskScores[e.paymentId := Some(riskScore)];
      }
      ok, alert := true, riskScore > ALERT_ABOVE;
    }
  }

  lemma AttemptRuns(s: State, a: Action, b: Action)
    ensures Exec(s, [a]) == Apply(s, a) && Exec(s, [a] + [b]) == Apply(Apply(s, a), b)
  {
    hide Apply;
    Extend(s, [], a);
    assert [] + [a] == [a];
    Extend(s, [a], b);
  }
}
