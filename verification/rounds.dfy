/** One poll's events handled in any order, and repeated polls draining everything that is due. */
module Rounds {
  import opened Sums
  import opened Schema
  import opened Effects
  import opened Pipeline
  import opened Guarantees

  // ----- the poll partitions what is due -----

  /** The groups of one poll are disjoint, together they are exactly the due payments, and their sums
      add up to the sum over the due payments. */
  lemma GroupsPartitionDue(t: Tables, now: nat)
    ensures forall j, k :: j != k ==> Group(t, now, j) !! Group(t, now, k)
    ensures forall p :: p in DueSet(t, now) <==> exists k :: k in DueKeys(t, now) && p in Group(t, now, k)
    ensures forall k :: k in DueKeys(t, now) <==> Group(t, now, k) != {}
    ensures Sum(DueKeys(t, now), k => Total(t.payments, Group(t, now, k))) == Total(t.payments, DueSet(t, now))
  {
    forall p | p in DueSet(t, now) ensures exists k :: k in DueKeys(t, now) && p in Group(t, now, k) {
      assert p in Group(t, now, KeyOf(t.payments[p]));
    }
    forall k | k in DueKeys(t, now) ensures Group(t, now, k) != {} {
      var p :| p in t.payments && DueRow(t.merchants, now, t.payments[p]) && KeyOf(t.payments[p]) == k;
      assert p in Group(t, now, k);
    }
    forall k | Group(t, now, k) != {} ensures k in DueKeys(t, now) {
      var p :| p in Group(t, now, k);
    }
    GroupSums(t, now);
  }

  function KeyFor(t: Tables, p: PaymentId): GroupKey {
    if p in t.payments then KeyOf(t.payments[p]) else GroupKey(0, Inr)
  }

  lemma GroupSums(t: Tables, now: nat)
    ensures Sum(DueKeys(t, now), k => Total(t.payments, Group(t, now, k))) == Total(t.payments, DueSet(t, now))
  {
    var due := DueSet(t, now);
    forall k ensures Class(due, p => KeyFor(t, p), k) == Group(t, now, k) { }
    SumOfClasses(due, p => KeyFor(t, p), DueKeys(t, now), p => AmountOf(t.payments, p),
                 k => Total(t.payments, Group(t, now, k)));
  }

  // ----- handling the events of one poll -----

  type IdsFor = GroupKey -> SettleIds
  type ClockFor = GroupKey -> nat

  /** The settlement consumer handles the groups' events one after the other; each handling has its
      own generated ids and its own clock. */
  ghost function HandleAll(t: Tables, now: nat, keys: seq<GroupKey>, ids: IdsFor, at: ClockFor): Option<Tables> {
    if keys == [] then Some(t)
    else
      var k := keys[|keys| - 1];
      var t' :- HandleAll(t, now, keys[..|keys| - 1], ids, at);
      SettleEffect(t', at(k), GroupEvent(t, now, k), ids(k))
  }

  /** uid.Generate gives every handling ids of its own. */
  ghost predicate FreshIds(t: Tables, ids: IdsFor) {
    && (forall k :: FreshFor(t, ids(k)))
    && (forall j, k :: j != k ==> Apart(ids(j), ids(k)))
  }

  predicate FreshFor(t: Tables, i: SettleIds) {
    i.settlement !in t.settlements && Generated(i.payable) !in t.accounts && Generated(i.bank) !in t.accounts
      && i.payable != i.bank
  }

  predicate Apart(i: SettleIds, j: SettleIds) {
    && i.settlement != j.settlement && i.payable != j.payable && i.bank != j.bank
    && i.payable != j.bank && i.bank != j.payable
  }

  /** The constraints and invariants handling relies on. */
  ghost predicate Sound(t: Tables) {
    && UniqueAccounts(t.accounts)
    && forall p :: p in t.payments ==> t.payments[p].amount > 0 && t.payments[p].merchant in t.merchants
  }

  lemma ReachableSound(s: State)
    requires Inv(s)
    ensures Sound(s.tables)
  {
    forall p | p in s.tables.payments
      ensures s.tables.payments[p].amount > 0 && s.tables.payments[p].merchant in s.tables.merchants
    {
      assert PaymentOk(s, p);
    }
  }

  ghost function AccountFor(accounts: map<AccountId, Account>, k: GroupKey, kind: AccountType, newId: nat): AccountId {
    var a := FindAccount(accounts, k.merchant, kind, k.currency);
    if a.Some? then a.value else Generated(newId)
  }

  ghost function PayableOf(accounts: map<AccountId, Account>, k: GroupKey, ids: IdsFor): AccountId {
    AccountFor(accounts, k, MerchantPayable, ids(k).payable)
  }

  ghost function BankOf(accounts: map<AccountId, Account>, k: GroupKey, ids: IdsFor): AccountId {
    AccountFor(accounts, k, MerchantSettlement, ids(k).bank)
  }

  function RowFor(k: GroupKey, kind: AccountType): Account {
    Account(Some(k.merchant), kind, k.currency)
  }

  function SettledRow(row: Payment, now: nat, sid: SettlementId): Payment {
    row.(settlement := Some(sid), status := Processed, updatedAt := now)
  }

  ghost function SettlementFor(t: Tables, now: nat, k: GroupKey): Settlement {
    Settlement(k.merchant, Total(t.payments, Group(t, now, k)), k.currency)
  }

  ghost function PairFor(t: Tables, now: nat, k: GroupKey, ids: IdsFor): seq<Entry> {
    var amount := Total(t.payments, Group(t, now, k));
    [Entry(Txg(ids(k).group), PayableOf(t.accounts, k, ids), None, Debit, amount, k.currency),
     Entry(Txg(ids(k).group), BankOf(t.accounts, k, ids), None, Credit, amount, k.currency)]
  }

  ghost function PairsFor(t: Tables, now: nat, keys: seq<GroupKey>, ids: IdsFor): seq<Entry> {
    if keys == [] then [] else PairsFor(t, now, keys[..|keys| - 1], ids) + PairFor(t, now, keys[|keys| - 1], ids)
  }

  // ----- what the tables look like once exactly the groups in K are handled: no order is mentioned -----

  ghost predicate LooksPayments(t: Tables, now: nat, payments: map<PaymentId, Payment>, K: set<GroupKey>, ids: IdsFor,
                                at: ClockFor) {
    && payments.Keys == t.payments.Keys
    && forall p :: p in t.payments ==>
         var k := KeyOf(t.payments[p]);
         payments[p] == if k in K && p in Group(t, now, k) then SettledRow(t.payments[p], at(k), ids(k).settlement)
           else t.payments[p]
  }

  ghost predicate LooksSettlements(t: Tables, now: nat, settlements: map<SettlementId, Settlement>, K: set<GroupKey>,
                                   ids: IdsFor) {
    && (forall x :: x in t.settlements ==> x in settlements && settlements[x] == t.settlements[x])
    && (forall k :: k in K ==>
        ids(k).settlement in settlements && settlements[ids(k).settlement] == SettlementFor(t, now, k))
    && (forall x :: x in settlements && x !in t.settlements ==> exists k :: k in K && x == ids(k).settlement)
  }

  predicate NewAccount(a: AccountId, row: Account, k: GroupKey, ids: SettleIds) {
    || (a == Generated(ids.payable) && row == RowFor(k, MerchantPayable))
    || (a == Generated(ids.bank) && row == RowFor(k, MerchantSettlement))
  }

  ghost predicate HasAccounts(before: map<AccountId, Account>, after: map<AccountId, Account>, k: GroupKey,
                              ids: IdsFor) {
    && PayableOf(before, k, ids) in after && after[PayableOf(before, k, ids)] == RowFor(k, MerchantPayable)
    && BankOf(before, k, ids) in after && after[BankOf(before, k, ids)] == RowFor(k, MerchantSettlement)
  }

  ghost predicate OnlyNewAccounts(before: map<AccountId, Account>, after: map<AccountId, Account>, K: set<GroupKey>,
                                  ids: IdsFor) {
    forall a :: a in after && a !in before ==> exists k :: k in K && NewAccount(a, after[a], k, ids(k))
  }

  ghost predicate AccountsKeptIn(before: map<AccountId, Account>, after: map<AccountId, Account>) {
    forall a :: a in before ==> a in after && after[a] == before[a]
  }

  ghost predicate LooksAccounts(before: map<AccountId, Account>, after: map<AccountId, Account>, K: set<GroupKey>,
                                ids: IdsFor) {
    && UniqueAccounts(after) && AccountsKeptIn(before, after) && OnlyNewAccounts(before, after, K, ids)
    && forall k :: k in K ==> HasAccounts(before, after, k, ids)
  }

  ghost predicate Looks(t: Tables, now: nat, t': Tables, K: set<GroupKey>, ids: IdsFor, at: ClockFor) {
    && LooksPayments(t, now, t'.payments, K, ids, at)
    && LooksSettlements(t, now, t'.settlements, K, ids)
    && LooksAccounts(t.accounts, t'.accounts, K, ids)
    && t'.merchants == t.merchants && t'.tokens == t.tokens && t'.refunds == t.refunds
  }

  function Elements(keys: seq<GroupKey>): set<GroupKey> {
    set k | k in keys
  }

  // ----- one handling, in closed form -----

  lemma EnsureClosed(t: Tables, k: GroupKey, kind: AccountType, newId: nat)
    requires UniqueAccounts(t.accounts) && k.merchant in t.merchants
    requires Generated(newId) !in t.accounts
    ensures var a := AccountFor(t.accounts, k, kind, newId);
            var accounts := t.accounts[a := RowFor(k, kind)];
            && EnsureAccount(t, k.merchant, kind, k.currency, newId) == Some(t.(accounts := accounts))
            && UniqueAccounts(accounts) && FindAccount(accounts, k.merchant, kind, k.currency) == Some(a)
  {
    TakenIsFound(t.accounts, k.merchant, kind, k.currency);
    var a := AccountFor(t.accounts, k, kind, newId);
    var accounts := t.accounts[a := RowFor(k, kind)];
    assert IsAccount(accounts, a, k.merchant, kind, k.currency);
    if FindAccount(t.accounts, k.merchant, kind, k.currency).Some? {
      assert accounts == t.accounts;
    } else {
      forall b, c | b in accounts && c in accounts && accounts[b] == accounts[c] && accounts[b].merchant.Some?
        ensures b == c
      {
        assert b in t.accounts ==> !IsAccount(t.accounts, b, k.merchant, kind, k.currency);
        assert c in t.accounts ==> !IsAccount(t.accounts, c, k.merchant, kind, k.currency);
      }
    }
  }

  /** Adding an account of one kind does not change what a lookup of another row finds. */
  lemma OtherLookup(accounts: map<AccountId, Account>, a: AccountId, row: Account, k: GroupKey, kind: AccountType,
                    newId: nat)
    requires UniqueAccounts(accounts) && UniqueAccounts(accounts[a := row])
    requires row != RowFor(k, kind) && (a in accounts ==> accounts[a] == row)
    ensures AccountFor(accounts[a := row], k, kind, newId) == AccountFor(accounts, k, kind, newId)
  {
    var f := FindAccount(accounts, k.merchant, kind, k.currency);
    var g := FindAccount(accounts[a := row], k.merchant, kind, k.currency);
    if f.Some? { assert IsAccount(accounts[a := row], f.value, k.merchant, kind, k.currency); }
    if g.Some? { assert IsAccount(accounts, g.value, k.merchant, kind, k.currency); }
  }

  lemma SettleClosed(t: Tables, now: nat, k: GroupKey, due: set<PaymentId>, amount: int, ids: SettleIds)
    requires UniqueAccounts(t.accounts) && k.merchant in t.merchants && amount > 0
    requires ids.settlement !in t.settlements && Generated(ids.payable) !in t.accounts
             && Generated(ids.bank) !in t.accounts
    requires ids.payable != ids.bank && Hits(t.payments, due) != {}
    ensures var payable := AccountFor(t.accounts, k, MerchantPayable, ids.payable);
            var bank := AccountFor(t.accounts, k, MerchantSettlement, ids.bank);
            && SettleEffect(t, now, Event(Initiated, None, due, k.merchant, amount, k.currency), ids)
               == Some(t.(payments := Attach(t.payments, now, Hits(t.payments, due), ids.settlement),
                          settlements := t.settlements[ids.settlement := Settlement(k.merchant, amount, k.currency)],
                          accounts := t.accounts[payable := RowFor(k, MerchantPayable)]
                                                [bank := RowFor(k, MerchantSettlement)],
                          ledger := t.ledger + [Entry(Txg(ids.group), payable, None, Debit, amount, k.currency),
                                                Entry(Txg(ids.group), bank, None, Credit, amount, k.currency)]))
            && UniqueAccounts(t.accounts[payable := RowFor(k, MerchantPayable)][bank := RowFor(k, MerchantSettlement)])
  {
    var e := Event(Initiated, None, due, k.merchant, amount, k.currency);
    assert Targets(e) == due;
    var t1 := InsertSettlement(t, ids.settlement, Settlement(k.merchant, amount, k.currency)).value;
    var t2 := t1.(payments := Attach(t1.payments, now, Hits(t1.payments, due), ids.settlement));
    EnsureClosed(t2, k, MerchantPayable, ids.payable);
    var t3 := EnsureAccount(t2, k.merchant, MerchantPayable, k.currency, ids.payable).value;
    var payable := AccountFor(t.accounts, k, MerchantPayable, ids.payable);
    assert Generated(ids.bank) !in t3.accounts;
    EnsureClosed(t3, k, MerchantSettlement, ids.bank);
    OtherLookup(t.accounts, payable, RowFor(k, MerchantPayable), k, MerchantSettlement, ids.bank);
    var t4 := EnsureAccount(t3, k.merchant, MerchantSettlement, k.currency, ids.bank).value;
    var bank := AccountFor(t.accounts, k, MerchantSettlement, ids.bank);
    var debit := Entry(Txg(ids.group), payable, None, Debit, amount, k.currency);
    var credit := Entry(Txg(ids.group), bank, None, Credit, amount, k.currency);
    assert t4.ledger + [debit] + [credit] == t4.ledger + [debit, credit];
  }

  // ----- handling one more group -----

  lemma NextHits(t: Tables, now: nat, payments: map<PaymentId, Payment>, K: set<GroupKey>, ids: IdsFor, at: ClockFor,
                 k: GroupKey)
    requires LooksPayments(t, now, payments, K, ids, at) && k !in K
    ensures Hits(payments, Group(t, now, k)) == Group(t, now, k)
    ensures LooksPayments(t, now, Attach(payments, at(k), Group(t, now, k), ids(k).settlement), K + {k}, ids, at)
  {
  }

  lemma NextSettlements(t: Tables, now: nat, settlements: map<SettlementId, Settlement>, K: set<GroupKey>, ids: IdsFor,
                        k: GroupKey)
    requires LooksSettlements(t, now, settlements, K, ids) && k !in K && FreshIds(t, ids)
    ensures ids(k).settlement !in settlements
    ensures LooksSettlements(t, now, settlements[ids(k).settlement := SettlementFor(t, now, k)], K + {k}, ids)
  {
    assert FreshFor(t, ids(k));
    forall j | j in K ensures ids(j).settlement != ids(k).settlement { assert Apart(ids(j), ids(k)); }
  }

  /** The accounts added so far belong to other groups, so a lookup for k finds what it found before. */
  lemma SameLookup(before: map<AccountId, Account>, after: map<AccountId, Account>, K: set<GroupKey>, ids: IdsFor,
                   k: GroupKey, kind: AccountType)
    requires UniqueAccounts(after) && AccountsKeptIn(before, after) && OnlyNewAccounts(before, after, K, ids) && k !in K
    ensures FindAccount(after, k.merchant, kind, k.currency) == FindAccount(before, k.merchant, kind, k.currency)
  {
    var f := FindAccount(before, k.merchant, kind, k.currency);
    var g := FindAccount(after, k.merchant, kind, k.currency);
    if f.Some? { assert IsAccount(after, f.value, k.merchant, kind, k.currency); }
    if g.Some? { NotNew(before, after, K, ids, k, kind, g.value); }
  }

  lemma NotNew(before: map<AccountId, Account>, after: map<AccountId, Account>, K: set<GroupKey>, ids: IdsFor,
               k: GroupKey, kind: AccountType, a: AccountId)
    requires AccountsKeptIn(before, after) && OnlyNewAccounts(before, after, K, ids)
    requires k !in K && IsAccount(after, a, k.merchant, kind, k.currency)
    ensures IsAccount(before, a, k.merchant, kind, k.currency)
  {
  }

  lemma NextNamesFree(t: Tables, after: map<AccountId, Account>, K: set<GroupKey>, ids: IdsFor, k: GroupKey)
    requires OnlyNewAccounts(t.accounts, after, K, ids) && k !in K && FreshIds(t, ids)
    ensures Generated(ids(k).payable) !in after && Generated(ids(k).bank) !in after && ids(k).payable != ids(k).bank
  {
    assert FreshFor(t, ids(k));
    forall a | a in after && a !in t.accounts ensures a != Generated(ids(k).payable) && a != Generated(ids(k).bank) {
      var j :| j in K && NewAccount(a, after[a], j, ids(j));
      assert Apart(ids(j), ids(k));
    }
  }

  ghost function AddAccounts(before: map<AccountId, Account>, after: map<AccountId, Account>, k: GroupKey,
                             ids: IdsFor): map<AccountId, Account> {
    after[PayableOf(before, k, ids) := RowFor(k, MerchantPayable)]
         [BankOf(before, k, ids) := RowFor(k, MerchantSettlement)]
  }

  lemma NextAccounts(before: map<AccountId, Account>, after: map<AccountId, Account>, K: set<GroupKey>, ids: IdsFor,
                     k: GroupKey)
    requires LooksAccounts(before, after, K, ids) && k !in K
    requires Generated(ids(k).payable) !in after && Generated(ids(k).bank) !in after && ids(k).payable != ids(k).bank
    requires UniqueAccounts(AddAccounts(before, after, k, ids))
    ensures LooksAccounts(before, AddAccounts(before, after, k, ids), K + {k}, ids)
  {
    AddKeeps(before, after, k, ids);
    AddNames(before, after, K, ids, k);
    hide UniqueAccounts, OnlyNewAccounts;
    var all := AddAccounts(before, after, k, ids);
    forall j | j in K + {k} ensures HasAccounts(before, all, j, ids) {
      if j != k { assert HasAccounts(before, after, j, ids); }
    }
  }

  lemma AddKeeps(before: map<AccountId, Account>, after: map<AccountId, Account>, k: GroupKey, ids: IdsFor)
    requires AccountsKeptIn(before, after)
    requires Generated(ids(k).payable) !in after && Generated(ids(k).bank) !in after && ids(k).payable != ids(k).bank
    ensures AccountsKeptIn(after, AddAccounts(before, after, k, ids))
    ensures AccountsKeptIn(before, AddAccounts(before, after, k, ids))
    ensures HasAccounts(before, AddAccounts(before, after, k, ids), k, ids)
  {
    var payable := FindAccount(before, k.merchant, MerchantPayable, k.currency);
    var bank := FindAccount(before, k.merchant, MerchantSettlement, k.currency);
    assert payable.Some? ==> after[payable.value] == RowFor(k, MerchantPayable);
    assert bank.Some? ==> after[bank.value] == RowFor(k, MerchantSettlement);
  }

  lemma AddNames(before: map<AccountId, Account>, after: map<AccountId, Account>, K: set<GroupKey>, ids: IdsFor,
                 k: GroupKey)
    requires AccountsKeptIn(before, after) && OnlyNewAccounts(before, after, K, ids)
    requires Generated(ids(k).payable) !in after && Generated(ids(k).bank) !in after && ids(k).payable != ids(k).bank
    ensures OnlyNewAccounts(before, AddAccounts(before, after, k, ids), K + {k}, ids)
  {
    AddKeeps(before, after, k, ids);
    var all := AddAccounts(before, after, k, ids);
    forall a | a in all && a !in before ensures exists j :: j in K + {k} && NewAccount(a, all[a], j, ids(j)) {
      if a in after {
        var j :| j in K && NewAccount(a, after[a], j, ids(j));
        assert j in K + {k} && NewAccount(a, all[a], j, ids(j));
      } else {
        assert NewAccount(a, all[a], k, ids(k));
        assert k in K + {k};
      }
    }
  }

  lemma GroupTotalPositive(t: Tables, now: nat, k: GroupKey)
    requires Sound(t) && k in DueKeys(t, now)
    ensures Group(t, now, k) != {} && Total(t.payments, Group(t, now, k)) > 0 && k.merchant in t.merchants
  {
    var p :| p in t.payments && DueRow(t.merchants, now, t.payments[p]) && KeyOf(t.payments[p]) == k;
    assert p in Group(t, now, k);
    SumBounds(Group(t, now, k), q => AmountOf(t.payments, q));
  }

  lemma CommitNext(t: Tables, now: nat, t': Tables, K: set<GroupKey>, ids: IdsFor, at: ClockFor, k: GroupKey)
    requires Sound(t) && FreshIds(t, ids) && k !in K && k in DueKeys(t, now)
    requires LooksPayments(t, now, t'.payments, K, ids, at) && LooksSettlements(t, now, t'.settlements, K, ids)
    requires LooksAccounts(t.accounts, t'.accounts, K, ids) && t'.merchants == t.merchants
    ensures SettleEffect(t', at(k), GroupEvent(t, now, k), ids(k))
            == Some(t'.(payments := Attach(t'.payments, at(k), Group(t, now, k), ids(k).settlement),
                        settlements := t'.settlements[ids(k).settlement := SettlementFor(t, now, k)],
                        accounts := AddAccounts(t.accounts, t'.accounts, k, ids),
                        ledger := t'.ledger + PairFor(t, now, k, ids)))
    ensures UniqueAccounts(AddAccounts(t.accounts, t'.accounts, k, ids))
  {
    GroupTotalPositive(t, now, k);
    NextHits(t, now, t'.payments, K, ids, at, k);
    NextSettlements(t, now, t'.settlements, K, ids, k);
    NextNamesFree(t, t'.accounts, K, ids, k);
    SameLookup(t.accounts, t'.accounts, K, ids, k, MerchantPayable);
    SameLookup(t.accounts, t'.accounts, K, ids, k, MerchantSettlement);
    hide LooksPayments, LooksSettlements, FreshIds, Sound, DueKeys, UniqueAccounts, AccountsKeptIn, OnlyNewAccounts,
         HasAccounts;
    SettleClosed(t', at(k), k, Group(t, now, k), Total(t.payments, Group(t, now, k)), ids(k));
  }

  lemma HandleNext(t: Tables, now: nat, t': Tables, K: set<GroupKey>, ids: IdsFor, at: ClockFor, k: GroupKey)
    requires Sound(t) && FreshIds(t, ids) && Looks(t, now, t', K, ids, at)
    requires k !in K && k in DueKeys(t, now)
    ensures var next := SettleEffect(t', at(k), GroupEvent(t, now, k), ids(k));
            next.Some? && Looks(t, now, next.value, K + {k}, ids, at)
              && next.value.ledger == t'.ledger + PairFor(t, now, k, ids)
  {
    CommitNext(t, now, t', K, ids, at, k);
    hide SettleEffect, Sound, DueKeys;
    NextHits(t, now, t'.payments, K, ids, at, k);
    NextSettlements(t, now, t'.settlements, K, ids, k);
    NextNamesFree(t, t'.accounts, K, ids, k);
    NextAccounts(t.accounts, t'.accounts, K, ids, k);
    hide LooksPayments, LooksSettlements, LooksAccounts, FreshIds, UniqueAccounts;
  }

  lemma NothingHandled(t: Tables, now: nat, ids: IdsFor, at: ClockFor)
    requires Sound(t)
    ensures Looks(t, now, t, {}, ids, at) && Elements([]) == {}
  {
  }

  /** Whatever the order, handling every listed group commits each time and gives the look above. */
  lemma {:induction false} HandleAllLooks(t: Tables, now: nat, keys: seq<GroupKey>, ids: IdsFor, at: ClockFor)
    requires Sound(t) && FreshIds(t, ids) && Distinct(keys)
    requires forall i :: 0 <= i < |keys| ==> keys[i] in DueKeys(t, now)
    ensures HandleAll(t, now, keys, ids, at).Some?
    ensures var t' := HandleAll(t, now, keys, ids, at).value;
            Looks(t, now, t', Elements(keys), ids, at) && t'.ledger == t.ledger + PairsFor(t, now, keys, ids)
  {
    hide Sound, FreshIds, Looks, DueKeys, SettleEffect, PairFor;
    if keys == [] {
      NothingHandled(t, now, ids, at);
      assert t.ledger + PairsFor(t, now, keys, ids) == t.ledger;
    } else {
      var n := |keys| - 1;
      var k, before := keys[n], keys[..n];
      HandleAllLooks(t, now, before, ids, at);
      assert k !in Elements(before);
      assert before + [k] == keys;
      assert Elements(keys) == Elements(before) + {k};
      var t' := HandleAll(t, now, before, ids, at).value;
      HandleNext(t, now, t', Elements(before), ids, at, k);
      assert t.ledger + PairsFor(t, now, before, ids) + PairFor(t, now, k, ids)
             == t.ledger + PairsFor(t, now, keys, ids);
    }
  }

  // ----- the theorems -----

  lemma {:induction false} PairsPermute(t: Tables, now: nat, a: seq<GroupKey>, b: seq<GroupKey>, ids: IdsFor)
    requires multiset(a) == multiset(b)
    ensures multiset(PairsFor(t, now, a, ids)) == multiset(PairsFor(t, now, b, ids))
    decreases |a|
  {
    hide PairFor;
    if a == [] {
      assert |multiset(b)| == 0 == |b|;
    } else {
      var n := |a| - 1;
      assert a[n] in multiset(b);
      var j :| 0 <= j < |b| && b[j] == a[n];
      Without(a, n);
      Without(b, j);
      assert a[..n] + a[n + 1..] == a[..n];
      PairsPermute(t, now, a[..n], b[..j] + b[j + 1..], ids);
      PairsRemove(t, now, b, j, ids);
    }
  }

  lemma Without(s: seq<GroupKey>, j: nat)
    requires j < |s|
    ensures multiset(s[..j] + s[j + 1..]) == multiset(s) - multiset{s[j]}
  {
    assert s == s[..j] + [s[j]] + s[j + 1..];
  }

  lemma {:induction false} PairsRemove(t: Tables, now: nat, keys: seq<GroupKey>, j: nat, ids: IdsFor)
    requires j < |keys|
    ensures multiset(PairsFor(t, now, keys, ids))
            == multiset(PairsFor(t, now, keys[..j] + keys[j + 1..], ids)) + multiset(PairFor(t, now, keys[j], ids))
  {
    hide PairFor;
    var n := |keys| - 1;
    if j == n {
      assert keys[..j] + keys[j + 1..] == keys[..n];
    } else {
      PairsRemove(t, now, keys[..n], j, ids);
      var rest := keys[..j] + keys[j + 1..];
      assert rest[..|rest| - 1] == keys[..n][..j] + keys[..n][j + 1..];
      assert rest[|rest| - 1] == keys[n];
    }
  }

  lemma SameLookSameTables(t: Tables, now: nat, x: Tables, y: Tables, K: set<GroupKey>, ids: IdsFor, at: ClockFor)
    requires Looks(t, now, x, K, ids, at) && Looks(t, now, y, K, ids, at)
    ensures x == y.(ledger := x.ledger)
  {
    assert x.payments == y.payments;
    SameSettlements(t, now, x.settlements, y.settlements, K, ids);
    SameAccounts(t.accounts, x.accounts, y.accounts, K, ids);
    SameAccounts(t.accounts, y.accounts, x.accounts, K, ids);
    assert x.accounts == y.accounts;
  }

  lemma SameSettlements(t: Tables, now: nat, x: map<SettlementId, Settlement>, y: map<SettlementId, Settlement>,
                        K: set<GroupKey>, ids: IdsFor)
    requires LooksSettlements(t, now, x, K, ids) && LooksSettlements(t, now, y, K, ids)
    ensures x == y
  {
    forall s | s in x || s in y ensures s in x && s in y && x[s] == y[s] {
      if s !in t.settlements {
        var k :| k in K && s == ids(k).settlement;
      }
    }
  }

  lemma SameAccounts(before: map<AccountId, Account>, x: map<AccountId, Account>, y: map<AccountId, Account>,
                     K: set<GroupKey>, ids: IdsFor)
    requires LooksAccounts(before, x, K, ids) && LooksAccounts(before, y, K, ids)
    ensures forall a :: a in x ==> a in y && y[a] == x[a]
  {
    hide UniqueAccounts, HasAccounts;
    forall a | a in x ensures a in y && y[a] == x[a] {
      if a !in before {
        var k :| k in K && NewAccount(a, x[a], k, ids(k));
        assert HasAccounts(before, x, k, ids) && HasAccounts(before, y, k, ids);
        SameNewAccount(before, x, y, k, ids, a);
      }
    }
  }

  lemma SameNewAccount(before: map<AccountId, Account>, x: map<AccountId, Account>, y: map<AccountId, Account>,
                       k: GroupKey, ids: IdsFor, a: AccountId)
    requires UniqueAccounts(x) && HasAccounts(before, x, k, ids) && HasAccounts(before, y, k, ids)
    requires a in x && NewAccount(a, x[a], k, ids(k))
    ensures a in y && y[a] == x[a]
  {
    hide PayableOf, BankOf;
    var found := if x[a].kind == MerchantPayable then PayableOf(before, k, ids) else BankOf(before, k, ids);
    assert x[found] == x[a];
  }

  /** Handling the events of one poll in any two orders gives the same tables; the ledger holds the
      same entries, in a different sequence. */
  lemma OrderDoesNotMatter(t: Tables, now: nat, a: seq<GroupKey>, b: seq<GroupKey>, ids: IdsFor, at: ClockFor)
    requires Sound(t) && FreshIds(t, ids) && Distinct(a) && Distinct(b) && multiset(a) == multiset(b)
    requires forall i :: 0 <= i < |a| ==> a[i] in DueKeys(t, now)
    ensures HandleAll(t, now, a, ids, at).Some? && HandleAll(t, now, b, ids, at).Some?
    ensures var x, y := HandleAll(t, now, a, ids, at).value, HandleAll(t, now, b, ids, at).value;
            x == y.(ledger := x.ledger) && multiset(x.ledger) == multiset(y.ledger)
  {
    hide Looks, Sound, FreshIds, DueKeys, HandleAll, PairsFor;
    forall k ensures k in a <==> k in b { assert k in multiset(a) <==> k in multiset(b); }
    assert Elements(a) == Elements(b);
    HandleAllLooks(t, now, a, ids, at);
    DueToo(t, now, a, b);
    HandleAllLooks(t, now, b, ids, at);
    var x, y := HandleAll(t, now, a, ids, at).value, HandleAll(t, now, b, ids, at).value;
    SameLookSameTables(t, now, x, y, Elements(a), ids, at);
    PairsPermute(t, now, a, b, ids);
  }

  lemma DueToo(t: Tables, now: nat, a: seq<GroupKey>, b: seq<GroupKey>)
    requires multiset(a) == multiset(b)
    requires forall i :: 0 <= i < |a| ==> a[i] in DueKeys(t, now)
    ensures forall i :: 0 <= i < |b| ==> b[i] in DueKeys(t, now)
  {
    forall i | 0 <= i < |b| ensures b[i] in DueKeys(t, now) { assert b[i] in multiset(a); }
  }

  // ----- draining -----

  /** What the query returns when nothing goes wrong: some hundred due groups, or all if there are
      fewer, each sum within 64 bits. */
  ghost predicate FullPoll(t: Tables, now: nat, keys: seq<GroupKey>) {
    CanPublish(t, now, keys) && |keys| == if |DueKeys(t, now)| <= POLL_LIMIT then |DueKeys(t, now)| else POLL_LIMIT
  }

  lemma {:induction false} ElementsCount(keys: seq<GroupKey>)
    requires Distinct(keys)
    ensures |Elements(keys)| == |keys|
  {
    if keys != [] {
      var n := |keys| - 1;
      ElementsCount(keys[..n]);
      assert Elements(keys) == Elements(keys[..n]) + {keys[n]};
      assert keys[n] !in Elements(keys[..n]);
    }
  }

  lemma CountRest(all: set<GroupKey>, part: set<GroupKey>)
    requires part <= all
    ensures |all - part| == |all| - |part|
  {
    assert all == part + (all - part);
  }

  /** Handling the published groups takes exactly them out of what is due. */
  lemma HandledAreNotDue(t: Tables, now: nat, t': Tables, K: set<GroupKey>, ids: IdsFor, at: ClockFor)
    requires Looks(t, now, t', K, ids, at)
    ensures DueKeys(t', now) == DueKeys(t, now) - K
    ensures forall p :: p in DueSet(t, now) ==>
              p in t'.payments && (p in DueSet(t', now) || t'.payments[p].settlement.Some?)
  {
    hide LooksSettlements, LooksAccounts;
    forall p | p in t.payments
      ensures DueRow(t'.merchants, now, t'.payments[p]) <==>
              DueRow(t.merchants, now, t.payments[p]) && KeyOf(t.payments[p]) !in K
      ensures KeyOf(t'.payments[p]) == KeyOf(t.payments[p])
    {
    }
    forall k ensures k in DueKeys(t', now) <==> k in DueKeys(t, now) - K {
      if k in DueKeys(t', now) {
        var p :| p in t'.payments && DueRow(t'.merchants, now, t'.payments[p]) && KeyOf(t'.payments[p]) == k;
        assert p in t.payments;
      }
      if k in DueKeys(t, now) - K {
        var p :| p in t.payments && DueRow(t.merchants, now, t.payments[p]) && KeyOf(t.payments[p]) == k;
        assert p in t'.payments;
      }
    }
  }

  /** One poll with at most a hundred groups due settles everything that is due, and its settlements
      are worth exactly that. */
  lemma OnePollSettlesAll(t: Tables, now: nat, keys: seq<GroupKey>, ids: IdsFor, at: ClockFor)
    requires Sound(t) && FreshIds(t, ids) && FullPoll(t, now, keys) && |DueKeys(t, now)| <= 100
    ensures HandleAll(t, now, keys, ids, at).Some?
    ensures var t' := HandleAll(t, now, keys, ids, at).value;
            && (forall p :: p in DueSet(t, now) ==> p in t'.payments && t'.payments[p].settlement.Some?)
            && (forall k :: k in DueKeys(t, now) ==> ids(k).settlement in t'.settlements)
            && Sum(DueKeys(t, now), k => AmountIn(t'.settlements, ids(k).settlement))
               == Total(t.payments, DueSet(t, now))
  {
    HandleAllLooks(t, now, keys, ids, at);
    var t' := HandleAll(t, now, keys, ids, at).value;
    AllKeysPolled(t, now, keys);
    hide Sound, FreshIds, FullPoll, HandleAll, DueKeys, LooksAccounts, LooksPayments;
    HandledAreNotDue(t, now, t', Elements(keys), ids, at);
    NoKeysNoneDue(t', now);
    GroupSums(t, now);
    hide Looks, DueSet;
    SumCongruent(DueKeys(t, now), k => AmountIn(t'.settlements, ids(k).settlement),
                 k => Total(t.payments, Group(t, now, k)));
  }

  lemma AllKeysPolled(t: Tables, now: nat, keys: seq<GroupKey>)
    requires FullPoll(t, now, keys) && |DueKeys(t, now)| <= POLL_LIMIT
    ensures Elements(keys) == DueKeys(t, now)
  {
    ElementsCount(keys);
    CountRest(DueKeys(t, now), Elements(keys));
    assert DueKeys(t, now) - Elements(keys) == {};
  }

  function AmountIn(settlements: map<SettlementId, Settlement>, sid: SettlementId): int {
    if sid in settlements then settlements[sid].amount else 0
  }

  lemma NoKeysNoneDue(t: Tables, now: nat)
    requires DueKeys(t, now) == {}
    ensures DueSet(t, now) == {}
  {
    forall p | p in DueSet(t, now) ensures KeyOf(t.payments[p]) in DueKeys(t, now) { }
  }

  /** One failure-free round: a full poll and the handling of all its events. */
  ghost predicate Round(t: Tables, now: nat, t': Tables) {
    exists keys, ids, at :: FullPoll(t, now, keys) && FreshIds(t, ids) && HandleAll(t, now, keys, ids, at) == Some(t')
  }

  function Less(n: nat, d: nat): nat {
    if n <= d then 0 else n - d
  }

  lemma RoundShrinks(t: Tables, now: nat, t': Tables)
    requires Sound(t) && Round(t, now, t')
    ensures Sound(t') && |DueKeys(t', now)| == Less(|DueKeys(t, now)|, 100)
    ensures forall p :: p in DueSet(t, now) ==>
              p in t'.payments && (p in DueSet(t', now) || t'.payments[p].settlement.Some?)
    ensures forall p :: p in t.payments && t.payments[p].settlement.Some? ==>
              p in t'.payments && t'.payments[p].settlement.Some?
  {
    var keys, ids, at :| FullPoll(t, now, keys) && FreshIds(t, ids) && HandleAll(t, now, keys, ids, at) == Some(t');
    HandleAllLooks(t, now, keys, ids, at);
    SoundAfter(t, now, t', Elements(keys), ids, at);
    ElementsCount(keys);
    CountRest(DueKeys(t, now), Elements(keys));
    HandledAreNotDue(t, now, t', Elements(keys), ids, at);
    hide HandleAll, FreshIds, LooksAccounts, LooksSettlements, DueKeys;
  }

  lemma SoundAfter(t: Tables, now: nat, t': Tables, K: set<GroupKey>, ids: IdsFor, at: ClockFor)
    requires Sound(t) && Looks(t, now, t', K, ids, at)
    ensures Sound(t')
    ensures forall p :: p in t.payments && t.payments[p].settlement.Some? ==>
              p in t'.payments && t'.payments[p].settlement.Some?
  {
    hide LooksSettlements, AccountsKeptIn, OnlyNewAccounts, HasAccounts;
  }

  /** With the clock fixed, every failure-free round takes out exactly a hundred groups, whichever
      they are, until none is left; so ceil(G/100) rounds settle everything that was due. */
  lemma {:induction false} DrainBound(ts: seq<Tables>, now: nat)
    requires ts != [] && Sound(ts[0])
    requires forall i :: 0 <= i < |ts| - 1 ==> Round(ts[i], now, ts[i + 1])
    ensures var last := ts[|ts| - 1];
            && Sound(last)
            && |DueKeys(last, now)| == Less(|DueKeys(ts[0], now)|, 100 * (|ts| - 1))
            && (forall p :: p in DueSet(ts[0], now) ==>
                p in last.payments && (p in DueSet(last, now) || last.payments[p].settlement.Some?))
            && (|DueKeys(ts[0], now)| <= 100 * (|ts| - 1)
                ==> forall p :: p in DueSet(ts[0], now) ==> p in last.payments && last.payments[p].settlement.Some?)
  {
    hide Round, Sound, DueKeys;
    var n := |ts| - 1;
    if n > 0 {
      DrainBound(ts[..n], now);
      RoundShrinks(ts[n - 1], now, ts[n]);
    }
    if |DueKeys(ts[0], now)| <= 100 * n {
      NoKeysNoneDue(ts[n], now);
    }
  }
}
