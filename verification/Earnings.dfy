/** What a referrer earned, added up from the order and deposit rows it was earned on. */
module Earnings {
  import opened Results
  import opened Sums
  import opened Keys
  import opened Wallet
  import opened Tables
  import opened Referrals
  import opened Books
  import opened Commissions
  import opened DepositRewards

  /** Staff adjustments and bonuses: no row but the entry itself explains them. */
  function GrantedTo(user: UserId): Entry -> int {
    (e: Entry) => if e.user == user && (e.ref.ForAdmin? || e.ref.ForBonus?) then e.amount else 0
  }

  function EarnedOnOrders(user: UserId): Entry -> int {
    (e: Entry) => if e.user == user && e.ref.ForReferredOrder? then e.amount else 0
  }

  function EarnedOnDeposits(user: UserId): Entry -> int {
    (e: Entry) => if e.user == user && e.ref.ForReferredDeposit? then e.amount else 0
  }

  lemma {:induction false} OutsideSplits(ledger: seq<Entry>, user: UserId)
    ensures Sum(ledger, OutsideOf(user))
         == Sum(ledger, GrantedTo(user)) + Sum(ledger, EarnedOnOrders(user)) + Sum(ledger, EarnedOnDeposits(user))
  {
    if ledger != [] { OutsideSplits(ledger[..|ledger| - 1], user); }
  }

  // ---------------------------------------------------------------- orders

  /** 8% of an order that a commission was paid for, when this is the account that referred its buyer. */
  function OrderCommissionTo(b: Bank, user: UserId): Order -> int {
    (o: Order) =>
      if HasKey(b.ledger, OrderCommissionKey(o.id)) && ReferrerOf(b, o.user) == Some(user)
        then Commission(o.charge, REFERRAL_ORDER_COMMISSION_PERCENT) else 0
  }

  /** The same, with only the first entries of the ledger looked at. */
  function OrderCommissionIn(s: Db, n: nat, user: UserId): Order -> int
    requires n <= |s.bank.ledger|
  {
    (o: Order) =>
      if HasKey(s.bank.ledger[..n], OrderCommissionKey(o.id)) && ReferrerOf(s.bank, o.user) == Some(user)
        then Commission(o.charge, REFERRAL_ORDER_COMMISSION_PERCENT) else 0
  }

  ghost predicate Numbered(orders: seq<Order>) {
    forall i | 0 <= i < |orders| :: orders[i].id == i
  }

  lemma KeyNext(ledger: seq<Entry>, n: nat, key: Key)
    requires n < |ledger|
    ensures HasKey(ledger[..n + 1], key) <==> HasKey(ledger[..n], key) || ledger[n].key == key
    ensures UniqueKeys(ledger) && ledger[n].key == key ==> !HasKey(ledger[..n], key)
  {
    if HasKey(ledger[..n], key) {
      var k :| 0 <= k < n && ledger[..n][k].key == key;
      assert ledger[..n + 1][k].key == key;
    }
    if ledger[n].key == key { assert ledger[..n + 1][n].key == key; }
  }

  lemma CommissionAt(s: Db, n: nat)
    requires CommissionsOk(s) && n < |s.bank.ledger|
    ensures CommissionOk(s, s.bank.ledger[n]) && UniqueKeys(s.bank.ledger)
  {
  }

  /** One more entry: it is the commission of one order, or about no order commission at all. */
  lemma OrderEntry(s: Db, n: nat, user: UserId)
    requires CommissionsOk(s) && Numbered(s.orders) && n < |s.bank.ledger|
    ensures Sum(s.orders, OrderCommissionIn(s, n + 1, user))
         == Sum(s.orders, OrderCommissionIn(s, n, user)) + EarnedOnOrders(user)(s.bank.ledger[n])
  {
    CommissionAt(s, n);
    hide CommissionsOk, UniqueKeys, Commission, HasKey, ReferrerOf;
    var e := s.bank.ledger[n];
    forall i | 0 <= i < |s.orders|
      ensures HasKey(s.bank.ledger[..n + 1], OrderCommissionKey(i)) <==>
              HasKey(s.bank.ledger[..n], OrderCommissionKey(i)) || e.key == OrderCommissionKey(i)
    {
      KeyNext(s.bank.ledger, n, OrderCommissionKey(i));
    }
    if e.ref.ForReferredOrder? {
      KeyNext(s.bank.ledger, n, e.key);
      SumChange(s.orders, s.orders, OrderCommissionIn(s, n, user), OrderCommissionIn(s, n + 1, user), e.ref.order);
    } else {
      SumSame(s.orders, s.orders, OrderCommissionIn(s, n, user), OrderCommissionIn(s, n + 1, user));
    }
  }

  lemma {:induction false} OrderEntries(s: Db, n: nat, user: UserId)
    requires CommissionsOk(s) && Numbered(s.orders) && n <= |s.bank.ledger|
    ensures Sum(s.bank.ledger[..n], EarnedOnOrders(user)) == Sum(s.orders, OrderCommissionIn(s, n, user))
  {
    hide CommissionsOk, Numbered, ReferrerOf, Commission;
    if n == 0 {
      SumZero(s.orders, OrderCommissionIn(s, 0, user));
    } else {
      hide OrderCommissionIn, EarnedOnOrders;
      OrderEntries(s, n - 1, user);
      OrderEntry(s, n - 1, user);
      assert s.bank.ledger[..n][..n - 1] == s.bank.ledger[..n - 1];
    }
  }

  // ---------------------------------------------------------------- deposits

  function Positions(n: nat): seq<nat> {
    seq(n, i requires 0 <= i => i)
  }

  /** The deposit is among those that the first entries of the ledger reward. */
  predicate RewardedIn(ledger: seq<Entry>, p: nat) {
    exists k | 0 <= k < |ledger| :: ledger[k].ref == ForReferredDeposit(p)
  }

  /** 5% of a deposit that a commission was paid for, when this is the account that referred its owner. */
  function DepositCommissionTo(s: Db, user: UserId): nat -> int {
    (p: nat) =>
      if p < |s.payments| && Rewarded(s, p) && ReferrerOf(s.bank, s.payments[p].user) == Some(user)
        then Commission(s.payments[p].amount, REFERRAL_DEPOSIT_COMMISSION_PERCENT) else 0
  }

  function DepositCommissionIn(s: Db, n: nat, user: UserId): nat -> int
    requires n <= |s.bank.ledger|
  {
    (p: nat) =>
      if p < |s.payments| && RewardedIn(s.bank.ledger[..n], p) && ReferrerOf(s.bank, s.payments[p].user) == Some(user)
        then Commission(s.payments[p].amount, REFERRAL_DEPOSIT_COMMISSION_PERCENT) else 0
  }

  lemma RewardedNext(ledger: seq<Entry>, n: nat, p: nat)
    requires n < |ledger|
    ensures RewardedIn(ledger[..n + 1], p) <==> RewardedIn(ledger[..n], p) || ledger[n].ref == ForReferredDeposit(p)
  {
    if RewardedIn(ledger[..n], p) {
      var k :| 0 <= k < n && ledger[..n][k].ref == ForReferredDeposit(p);
      assert ledger[..n + 1][k].ref == ForReferredDeposit(p);
    }
    if ledger[n].ref == ForReferredDeposit(p) { assert ledger[..n + 1][n].ref == ForReferredDeposit(p); }
  }

  /** No deposit is rewarded by two entries: both would carry its owner's one key. */
  lemma RewardedOnce(s: Db, n: nat, p: nat)
    requires CommissionsOk(s) && n < |s.bank.ledger| && s.bank.ledger[n].ref == ForReferredDeposit(p)
    ensures !RewardedIn(s.bank.ledger[..n], p)
  {
    forall k | 0 <= k < n ensures s.bank.ledger[..n][k].ref != ForReferredDeposit(p) {
      CommissionAt(s, k);
      CommissionAt(s, n);
    }
  }

  lemma DepositEntry(s: Db, n: nat, user: UserId)
    requires CommissionsOk(s) && n < |s.bank.ledger|
    ensures Sum(Positions(|s.payments|), DepositCommissionIn(s, n + 1, user))
         == Sum(Positions(|s.payments|), DepositCommissionIn(s, n, user)) + EarnedOnDeposits(user)(s.bank.ledger[n])
  {
    CommissionAt(s, n);
    var e, ps := s.bank.ledger[n], Positions(|s.payments|);
    forall p: nat | p < |s.payments|
      ensures RewardedIn(s.bank.ledger[..n + 1], p) <==>
              RewardedIn(s.bank.ledger[..n], p) || e.ref == ForReferredDeposit(p)
    {
      RewardedNext(s.bank.ledger, n, p);
    }
    if e.ref.ForReferredDeposit? {
      RewardedOnce(s, n, e.ref.payment);
      hide CommissionsOk, UniqueKeys, Commission, RewardedIn, ReferrerOf;
      SumChange(ps, ps, DepositCommissionIn(s, n, user), DepositCommissionIn(s, n + 1, user), e.ref.payment);
    } else {
      hide CommissionsOk, UniqueKeys, Commission, RewardedIn, ReferrerOf;
      SumSame(ps, ps, DepositCommissionIn(s, n, user), DepositCommissionIn(s, n + 1, user));
    }
  }

  lemma {:induction false} DepositEntries(s: Db, n: nat, user: UserId)
    requires CommissionsOk(s) && n <= |s.bank.ledger|
    ensures Sum(s.bank.ledger[..n], EarnedOnDeposits(user))
         == Sum(Positions(|s.payments|), DepositCommissionIn(s, n, user))
  {
    if n == 0 {
      SumZero(Positions(|s.payments|), DepositCommissionIn(s, 0, user));
    } else {
      hide CommissionsOk, DepositCommissionIn;
      DepositEntries(s, n - 1, user);
      DepositEntry(s, n - 1, user);
      assert s.bank.ledger[..n][..n - 1] == s.bank.ledger[..n - 1];
    }
  }

  // ---------------------------------------------------------------- both

  /** Everything credited from outside: adjustments and bonuses, and percentages of the rows commissions are for. */
  lemma OutsideIsEarned(s: Db, user: UserId)
    requires CommissionsOk(s) && Numbered(s.orders)
    ensures Sum(s.bank.ledger, OutsideOf(user))
         == Sum(s.bank.ledger, GrantedTo(user)) + Sum(s.orders, OrderCommissionTo(s.bank, user))
           + Sum(Positions(|s.payments|), DepositCommissionTo(s, user))
  {
    var n := |s.bank.ledger|;
    OutsideSplits(s.bank.ledger, user);
    OrderEntries(s, n, user);
    DepositEntries(s, n, user);
    hide CommissionsOk, Numbered, Commission, ReferrerOf, HasKey;
    assert s.bank.ledger[..n] == s.bank.ledger;
    SumSame(s.orders, s.orders, OrderCommissionIn(s, n, user), OrderCommissionTo(s.bank, user));
    SumSame(Positions(|s.payments|), Positions(|s.payments|), DepositCommissionIn(s, n, user),
            DepositCommissionTo(s, user));
  }
}
