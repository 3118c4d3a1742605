/**
 * Which deposit earns the commission, over every run: the buyer's first paid deposit if it was
 * settled while the buyer had a referrer, else the second under the same condition, else none.
 */
module DepositRewards {
  import opened Results
  import opened Sums
  import opened Keys
  import opened Wallet
  import opened Pricing
  import opened Tables
  import opened Referrals
  import opened Payments
  import opened Engine
  import opened Commissions
  import opened Deposits

  // ---------------------------------------------------------------- the order in which deposits are paid

  /** The buyer's paid deposits, in the order of the ledger. */
  function PaidDeposits(ledger: seq<Entry>, buyer: UserId): seq<nat> {
    if ledger == [] then []
    else
      var e := ledger[|ledger| - 1];
      PaidDeposits(ledger[..|ledger| - 1], buyer) + if e.key.DepositKey? && e.user == buyer then [e.key.payment] else []
  }

  predicate Rewarded(s: Db, p: nat) {
    exists k | 0 <= k < |s.bank.ledger| :: s.bank.ledger[k].ref == ForReferredDeposit(p)
  }

  predicate WorthReward(row: Payment) {
    Commission(row.amount, REFERRAL_DEPOSIT_COMMISSION_PERCENT) > 0
  }

  /** The buyer's deposits that became paid in between while the buyer had a referrer, worth at least a paisa. */
  function EligibleNow(s: Db, after: Db, buyer: UserId): set<nat> {
    set p: nat | p < |s.payments| && p < |after.payments| && s.payments[p].user == buyer
                 && s.payments[p].status != Paid && after.payments[p].status == Paid
                 && ReferrerOf(s.bank, buyer).Some? && WorthReward(s.payments[p])
  }

  /** Over a run: the buyer's deposits that were settled while the buyer had a referrer, worth at least a paisa. */
  function EligibleDeposits(s: Db, events: seq<Event>, buyer: UserId): set<nat> {
    if events == [] then {}
    else
      var before := Run(s, events[..|events| - 1]);
      EligibleDeposits(s, events[..|events| - 1], buyer)
        + EligibleNow(before, Step(before, events[|events| - 1]), buyer)
  }

  /** The deposit that earns: the first paid one when it is eligible, else the second when it is. */
  function Earning(paid: seq<nat>, eligible: set<nat>): Option<nat> {
    if |paid| > 0 && paid[0] in eligible then Some(paid[0])
    else if |paid| > 1 && paid[1] in eligible then Some(paid[1])
    else None
  }

  ghost predicate ListsPaid(s: Db, paid: seq<nat>, buyer: UserId) {
    && (forall k | 0 <= k < |paid| ::
          paid[k] < |s.payments| && s.payments[paid[k]].user == buyer && s.payments[paid[k]].status == Paid)
    && (forall j, k | 0 <= j < k < |paid| :: paid[j] != paid[k])
    && |paid| == Sum(s.payments, PaidPaymentOf(buyer))
  }

  /** The ledger rewards exactly the deposit that earns. */
  ghost predicate RewardsOk(s: Db, eligible: set<nat>, buyer: UserId) {
    var paid := PaidDeposits(s.bank.ledger, buyer);
    && ListsPaid(s, paid, buyer)
    && (forall p | p in eligible :: p < |s.payments| && s.payments[p].status == Paid)
    && (forall p | 0 <= p < |s.payments| && s.payments[p].user == buyer ::
          Rewarded(s, p) <==> Earning(paid, eligible) == Some(p))
    && (HasKey(s.bank.ledger, DepositCommissionKey(buyer)) <==> Earning(paid, eligible).Some?)
    && (forall k | 0 <= k < |s.bank.ledger| && s.bank.ledger[k].ref.ForReferredDeposit? ::
          s.bank.ledger[k].ref.payment < |s.payments|)
  }

  // ---------------------------------------------------------------- growing ledgers

  lemma {:induction false} PaidDepositsConcat(ledger: seq<Entry>, rest: seq<Entry>, buyer: UserId)
    ensures PaidDeposits(ledger + rest, buyer) == PaidDeposits(ledger, buyer) + PaidDeposits(rest, buyer)
  {
    if rest == [] {
      assert ledger + rest == ledger;
    } else {
      PaidDepositsConcat(ledger, rest[..|rest| - 1], buyer);
      assert (ledger + rest)[..|ledger + rest| - 1] == ledger + rest[..|rest| - 1];
    }
  }

  lemma {:induction false} NoPaidDeposits(rest: seq<Entry>, buyer: UserId)
    requires forall k | 0 <= k < |rest| :: !(rest[k].key.DepositKey? && rest[k].user == buyer)
    ensures PaidDeposits(rest, buyer) == []
  {
    if rest != [] { NoPaidDeposits(rest[..|rest| - 1], buyer); }
  }

  /** An entry that is about neither deposits nor their commissions. */
  predicate IsQuiet(e: Entry) {
    !IsDeposit(e) && !e.key.DepositCommissionKey? && !e.ref.ForReferredDeposit?
  }

  /** The ledger grew by quiet entries, and no invoice became paid. */
  ghost predicate Quiet(s: Db, after: Db) {
    && s.bank.ledger <= after.bank.ledger
    && (forall k | |s.bank.ledger| <= k < |after.bank.ledger| :: IsQuiet(after.bank.ledger[k]))
    && |s.payments| <= |after.payments|
    && (forall p | 0 <= p < |s.payments| ::
          && after.payments[p].user == s.payments[p].user && after.payments[p].amount == s.payments[p].amount
          && (after.payments[p].status == Paid <==> s.payments[p].status == Paid))
    && (forall p | |s.payments| <= p < |after.payments| :: after.payments[p].status != Paid)
  }

  lemma QuietKeeps(s: Db, after: Db, eligible: set<nat>, buyer: UserId)
    requires RewardsOk(s, eligible, buyer) && Quiet(s, after)
    ensures RewardsOk(after, eligible + EligibleNow(s, after, buyer), buyer)
  {
    assert EligibleNow(s, after, buyer) == {};
    assert eligible + {} == eligible;
    QuietLedger(s, after, buyer);
    QuietPayments(s, after, buyer);
    hide Earning, PaidDeposits;
    forall p | 0 <= p < |after.payments| && after.payments[p].user == buyer
      ensures Rewarded(after, p) <==> Earning(PaidDeposits(after.bank.ledger, buyer), eligible) == Some(p)
    {
      SameRewards(s, after, p);
      if p >= |s.payments| { NeverEarns(s, eligible, buyer, p); }
    }
  }

  lemma QuietLedger(s: Db, after: Db, buyer: UserId)
    requires Quiet(s, after)
    ensures PaidDeposits(after.bank.ledger, buyer) == PaidDeposits(s.bank.ledger, buyer)
    ensures HasKey(after.bank.ledger, DepositCommissionKey(buyer)) <==>
            HasKey(s.bank.ledger, DepositCommissionKey(buyer))
  {
    var rest := after.bank.ledger[|s.bank.ledger|..];
    assert after.bank.ledger == s.bank.ledger + rest;
    forall k | 0 <= k < |rest| ensures IsQuiet(rest[k]) { assert rest[k] == after.bank.ledger[|s.bank.ledger| + k]; }
    PaidDepositsConcat(s.bank.ledger, rest, buyer);
    NoPaidDeposits(rest, buyer);
    if HasKey(s.bank.ledger, DepositCommissionKey(buyer)) {
      var k :| 0 <= k < |s.bank.ledger| && s.bank.ledger[k].key == DepositCommissionKey(buyer);
      assert after.bank.ledger[k].key == DepositCommissionKey(buyer);
    }
  }

  lemma QuietPayments(s: Db, after: Db, buyer: UserId)
    requires Quiet(s, after)
    ensures Sum(after.payments, PaidPaymentOf(buyer)) == Sum(s.payments, PaidPaymentOf(buyer))
  {
    var n := |s.payments|;
    assert after.payments == after.payments[..n] + after.payments[n..];
    SumConcat(after.payments[..n], after.payments[n..], PaidPaymentOf(buyer));
    SumSame(s.payments, after.payments[..n], PaidPaymentOf(buyer), PaidPaymentOf(buyer));
    SumZero(after.payments[n..], PaidPaymentOf(buyer));
  }

  lemma SameRewards(s: Db, after: Db, p: nat)
    requires Quiet(s, after)
    ensures Rewarded(after, p) <==> Rewarded(s, p)
  {
    if Rewarded(s, p) {
      var k :| 0 <= k < |s.bank.ledger| && s.bank.ledger[k].ref == ForReferredDeposit(p);
      assert after.bank.ledger[k].ref == ForReferredDeposit(p);
    }
  }

  lemma NeverEarns(s: Db, eligible: set<nat>, buyer: UserId, p: nat)
    requires RewardsOk(s, eligible, buyer) && p >= |s.payments|
    ensures !Rewarded(s, p) && Earning(PaidDeposits(s.bank.ledger, buyer), eligible) != Some(p)
  {
  }

  // ---------------------------------------------------------------- settling one deposit

  /** The bank after the credit of a deposit and of its commission. */
  ghost predicate Deposited(s: Db, bank: Bank, p: nat)
    requires p < |s.payments|
  {
    var row := s.payments[p];
    var earns :=
      && ReferrerOf(s.bank, row.user).Some? && Sum(s.payments, PaidPaymentOf(row.user)) <= 1 && WorthReward(row)
      && !HasKey(s.bank.ledger, DepositCommissionKey(row.user));
    var n := |s.bank.ledger|;
    && |bank.ledger| == n + (if earns then 2 else 1)
    && s.bank.ledger <= bank.ledger
    && bank.ledger[n].key == DepositKey(p) && bank.ledger[n].user == row.user && bank.ledger[n].ref == ForPayment(p)
    && (earns ==>
          && bank.ledger[n + 1].ref == ForReferredDeposit(p)
          && bank.ledger[n + 1].key == DepositCommissionKey(row.user))
  }

  lemma CreditOfDeposit(s: Db, p: nat)
    requires DepositsOk(s) && p < |s.payments| && s.payments[p].status != Paid
    requires s.payments[p].user in s.bank.users
    requires Credit(s.bank, s.payments[p].user, s.payments[p].amount, ForPayment(p), DepositKey(p)).Success?
    ensures var row := s.payments[p];
            var bank := Credit(s.bank, row.user, row.amount, ForPayment(p), DepositKey(p)).value;
            && LedgerOk(bank)
            && |bank.ledger| == |s.bank.ledger| + 1
            && bank.ledger == s.bank.ledger + [bank.ledger[|s.bank.ledger|]]
            && bank.ledger[|s.bank.ledger|].key == DepositKey(p) && bank.ledger[|s.bank.ledger|].ref == ForPayment(p)
            && bank.ledger[|s.bank.ledger|].user == row.user
            && bank.users.Keys == s.bank.users.Keys
            && (forall u | u in s.bank.users :: bank.users[u].referredBy == s.bank.users[u].referredBy)
  {
    NoDepositKeyBeyond(s, p);
    var row := s.payments[p];
    var c := CreditCall(row.user, row.amount, ForPayment(p), DepositKey(p));
    CallPosts(s.bank, c);
    CallExtends(s.bank, c);
    hide LedgerOk;
  }

  lemma DepositedBank(s: Db, p: nat)
    requires DepositsOk(s) && p < |s.payments| && s.payments[p].status != Paid
    requires s.payments[p].user in s.bank.users
    requires Credit(s.bank, s.payments[p].user, s.payments[p].amount, ForPayment(p), DepositKey(p)).Success?
    ensures var bank := Credit(s.bank, s.payments[p].user, s.payments[p].amount, ForPayment(p), DepositKey(p)).value;
            var rewarded := CreditDepositCommission(s.(bank := bank), p);
            && rewarded.Success? && rewarded.value == s.(bank := rewarded.value.bank)
            && Deposited(s, rewarded.value.bank, p)
            && SameReferrers(s.bank, rewarded.value.bank)
  {
    hide DepositsOk, LedgerOk, Credit, Commission, CreditDepositCommission;
    var row := s.payments[p];
    CreditOfDeposit(s, p);
    var credited := s.(bank := Credit(s.bank, row.user, row.amount, ForPayment(p), DepositKey(p)).value);
    RewardSucceeds(credited, p);
    RewardPosts(credited, p);
    SameCommissionKey(s.bank.ledger, credited.bank.ledger, row.user);
  }

  lemma SameCommissionKey(ledger: seq<Entry>, after: seq<Entry>, buyer: UserId)
    requires |after| == |ledger| + 1 && ledger <= after && after[|ledger|].key.DepositKey?
    ensures HasKey(after, DepositCommissionKey(buyer)) <==> HasKey(ledger, DepositCommissionKey(buyer))
  {
    if HasKey(ledger, DepositCommissionKey(buyer)) {
      var k :| 0 <= k < |ledger| && ledger[k].key == DepositCommissionKey(buyer);
      assert after[k].key == DepositCommissionKey(buyer);
    }
  }

  /** No user joined, left, or changed referrer. */
  ghost predicate SameReferrers(b: Bank, after: Bank) {
    && after.users.Keys == b.users.Keys
    && (forall u | u in b.users :: after.users[u].referredBy == b.users[u].referredBy)
  }

  lemma SameReferrer(b: Bank, after: Bank, buyer: UserId)
    requires SameReferrers(b, after)
    ensures ReferrerOf(after, buyer) == ReferrerOf(b, buyer)
  {
  }

  /** The commission of a deposit: one entry under the buyer's key exactly when it earns, else nothing. */
  lemma RewardPosts(s: Db, p: nat)
    requires LedgerOk(s.bank) && p < |s.payments|
    requires CreditDepositCommission(s, p).Success?
    ensures var row := s.payments[p];
            var after := CreditDepositCommission(s, p).value;
            var earns :=
              && ReferrerOf(s.bank, row.user).Some? && Sum(s.payments, PaidPaymentOf(row.user)) <= 1 && WorthReward(row)
              && !HasKey(s.bank.ledger, DepositCommissionKey(row.user));
            && after == s.(bank := after.bank) && SameReferrers(s.bank, after.bank)
            && |after.bank.ledger| == |s.bank.ledger| + (if earns then 1 else 0) && s.bank.ledger <= after.bank.ledger
            && (earns ==>
                  && after.bank.ledger[|s.bank.ledger|].ref == ForReferredDeposit(p)
                  && after.bank.ledger[|s.bank.ledger|].key == DepositCommissionKey(row.user))
  {
    hide LedgerOk, Commission;
    var buyer := s.payments[p].user;
    var due := Commission(s.payments[p].amount, REFERRAL_DEPOSIT_COMMISSION_PERCENT);
    if ReferrerOf(s.bank, buyer).Some? && due > 0 {
      var c := CreditCall(ReferrerOf(s.bank, buyer).value, due, ForReferredDeposit(p), DepositCommissionKey(buyer));
      CreditSucceeds(s.bank, c.user, due, c.ref, c.key);
      CallPosts(s.bank, c);
      assert Attempt(s.bank, c) == Credit(s.bank, c.user, due, c.ref, c.key);
      hide Attempt, Credit;
    }
  }

  /** The list of paid deposits after one more was credited, by its owner. */
  lemma DepositedList(s: Db, bank: Bank, p: nat, buyer: UserId)
    requires p < |s.payments| && Deposited(s, bank, p)
    ensures PaidDeposits(bank.ledger, buyer)
         == PaidDeposits(s.bank.ledger, buyer) + if s.payments[p].user == buyer then [p] else []
  {
    var n := |s.bank.ledger|;
    var rest := bank.ledger[n..];
    assert bank.ledger == s.bank.ledger + rest;
    PaidDepositsConcat(s.bank.ledger, rest, buyer);
    assert rest[..1] == [bank.ledger[n]] && [bank.ledger[n]][..0] == [];
    assert |rest| == 2 ==> rest[..|rest| - 1] == rest[..1] && rest[1] == bank.ledger[n + 1];
    assert |rest| == 1 ==> rest == rest[..1];
    assert PaidDeposits(rest[..1], buyer) == if s.payments[p].user == buyer then [p] else [];
  }

  lemma DepositedEntries(s: Db, bank: Bank, p: nat, buyer: UserId, q: nat)
    requires p < |s.payments| && Deposited(s, bank, p)
    ensures (exists k | 0 <= k < |bank.ledger| :: bank.ledger[k].ref == ForReferredDeposit(q))
       <==> Rewarded(s, q) || (q == p && |bank.ledger| == |s.bank.ledger| + 2)
    ensures HasKey(bank.ledger, DepositCommissionKey(buyer))
       <==> HasKey(s.bank.ledger, DepositCommissionKey(buyer))
            || (s.payments[p].user == buyer && |bank.ledger| == |s.bank.ledger| + 2)
  {
    var n := |s.bank.ledger|;
    if Rewarded(s, q) {
      var k :| 0 <= k < n && s.bank.ledger[k].ref == ForReferredDeposit(q);
      assert bank.ledger[k].ref == ForReferredDeposit(q);
    }
    if HasKey(s.bank.ledger, DepositCommissionKey(buyer)) {
      var k :| 0 <= k < n && s.bank.ledger[k].key == DepositCommissionKey(buyer);
      assert bank.ledger[k].key == DepositCommissionKey(buyer);
    }
    if |bank.ledger| == n + 2 {
      assert bank.ledger[n + 1].ref == ForReferredDeposit(p);
      assert bank.ledger[n + 1].key == DepositCommissionKey(s.payments[p].user);
    }
    assert bank.ledger[n].key == DepositKey(p) && bank.ledger[n].ref == ForPayment(p);
    assert forall k | 0 <= k < n :: bank.ledger[k] == s.bank.ledger[k];
  }

  /** Which deposit earns after one more was paid. */
  lemma EarningNext(paid: seq<nat>, eligible: set<nat>, p: nat, now: set<nat>)
    requires p !in paid && now <= {p}
    ensures var before, after := Earning(paid, eligible), Earning(paid + [p], eligible + now);
            && (before.Some? ==> after == before)
            && (before.None? ==> after == if |paid| <= 1 && p in eligible + now then Some(p) else None)
  {
  }

  ghost predicate SettlesTo(s: Db, after: Db, p: nat)
    requires p < |s.payments|
  {
    && |after.payments| == |s.payments| && after.payments == s.payments[p := after.payments[p]]
    && s.payments[p].status != Paid && after.payments[p].status == Paid
    && after.payments[p].user == s.payments[p].user && after.payments[p].amount == s.payments[p].amount
    && Deposited(s, after.bank, p)
  }

  /** Settling one deposit, seen from one buyer. */
  lemma DepositedRewards(s: Db, after: Db, p: nat, eligible: set<nat>, buyer: UserId)
    requires RewardsOk(s, eligible, buyer) && p < |s.payments| && SettlesTo(s, after, p)
    ensures RewardsOk(after, eligible + EligibleNow(s, after, buyer), buyer)
  {
    hide Deposited, Earning, PaidDeposits, Rewarded, HasKey, WorthReward;
    var paid := PaidDeposits(s.bank.ledger, buyer);
    var now := EligibleNow(s, after, buyer);
    DepositedList(s, after.bank, p, buyer);
    SumChange(s.payments, after.payments, PaidPaymentOf(buyer), PaidPaymentOf(buyer), p);
    OneEligible(s, after, p, buyer);
    RewardFacts(s, after, p, eligible, buyer);
    forall q | 0 <= q < |after.payments| && after.payments[q].user == buyer
      ensures Rewarded(after, q) <==> Earning(PaidDeposits(after.bank.ledger, buyer), eligible + now) == Some(q)
    {
      RewardOf(s, after, p, eligible, buyer, q);
    }
    RewardRefs(s, after, p);
  }

  lemma OneEligible(s: Db, after: Db, p: nat, buyer: UserId)
    requires p < |s.payments| && SettlesTo(s, after, p)
    ensures EligibleNow(s, after, buyer)
         == if s.payments[p].user == buyer && ReferrerOf(s.bank, buyer).Some? && WorthReward(s.payments[p]) then {p}
           else {}
  {
    hide Deposited, WorthReward;
  }

  lemma RewardRefs(s: Db, after: Db, p: nat)
    requires p < |s.payments| && SettlesTo(s, after, p)
    requires forall k | 0 <= k < |s.bank.ledger| && s.bank.ledger[k].ref.ForReferredDeposit? ::
               s.bank.ledger[k].ref.payment < |s.payments|
    ensures forall k | 0 <= k < |after.bank.ledger| && after.bank.ledger[k].ref.ForReferredDeposit? ::
              after.bank.ledger[k].ref.payment < |after.payments|
  {
    hide HasKey, WorthReward;
    assert forall k | 0 <= k < |s.bank.ledger| :: after.bank.ledger[k] == s.bank.ledger[k];
  }

  /** The buyer's key is used exactly when some deposit earns. */
  lemma RewardFacts(s: Db, after: Db, p: nat, eligible: set<nat>, buyer: UserId)
    requires RewardsOk(s, eligible, buyer) && p < |s.payments| && SettlesTo(s, after, p)
    ensures HasKey(after.bank.ledger, DepositCommissionKey(buyer))
       <==> Earning(PaidDeposits(after.bank.ledger, buyer), eligible + EligibleNow(s, after, buyer)).Some?
  {
    var paid := PaidDeposits(s.bank.ledger, buyer);
    DepositedList(s, after.bank, p, buyer);
    DepositedEntries(s, after.bank, p, buyer, p);
    OneEligible(s, after, p, buyer);
    assert p !in paid;
    hide Earning, PaidDeposits, Rewarded, HasKey, WorthReward, EligibleNow, ReferrerOf;
    EarningNext(paid, eligible, p, EligibleNow(s, after, buyer));
    assert eligible + {} == eligible;
  }

  lemma RewardOf(s: Db, after: Db, p: nat, eligible: set<nat>, buyer: UserId, q: nat)
    requires RewardsOk(s, eligible, buyer) && p < |s.payments| && SettlesTo(s, after, p)
    requires q < |s.payments| && s.payments[q].user == buyer
    ensures Rewarded(after, q)
       <==> Earning(PaidDeposits(after.bank.ledger, buyer), eligible + EligibleNow(s, after, buyer)) == Some(q)
  {
    var paid := PaidDeposits(s.bank.ledger, buyer);
    DepositedList(s, after.bank, p, buyer);
    DepositedEntries(s, after.bank, p, buyer, q);
    OneEligible(s, after, p, buyer);
    assert p !in paid;
    NotEarningYet(paid, eligible, p);
    hide Earning, PaidDeposits, HasKey, WorthReward, EligibleNow, ReferrerOf;
    EarningNext(paid, eligible, p, EligibleNow(s, after, buyer));
    assert eligible + {} == eligible;
  }

  lemma NotEarningYet(paid: seq<nat>, eligible: set<nat>, p: nat)
    requires p !in paid
    ensures Earning(paid, eligible) != Some(p)
  {
  }

  // ---------------------------------------------------------------- every call

  /** Referrers and invoices are the same, and what was paid stays paid. */
  ghost predicate DepositStep(s: Db, after: Db) {
    && SameReferrers(s.bank, after.bank)
    && |after.payments| == |s.payments|
    && (forall p | 0 <= p < |s.payments| ::
          && after.payments[p].user == s.payments[p].user && after.payments[p].amount == s.payments[p].amount
          && (s.payments[p].status == Paid ==> after.payments[p].status == Paid))
  }

  /** What is eligible over two steps is what is eligible in either. */
  lemma EligibleTwice(s: Db, mid: Db, after: Db, buyer: UserId)
    requires DepositStep(s, mid) && DepositStep(mid, after)
    ensures DepositStep(s, after)
    ensures EligibleNow(s, after, buyer) == EligibleNow(s, mid, buyer) + EligibleNow(mid, after, buyer)
  {
    SameReferrer(s.bank, mid.bank, buyer);
    hide ReferrerOf, WorthReward;
  }

  /** A call that ends well keeps the rewards, counting what it makes eligible. */
  ghost predicate RewardStep(s: Db, after: Db, eligible: set<nat>, buyer: UserId) {
    DepositStep(s, after) && DepositsOk(after) && RewardsOk(after, eligible + EligibleNow(s, after, buyer), buyer)
  }

  lemma RewardStepTwice(s: Db, mid: Db, after: Db, eligible: set<nat>, buyer: UserId)
    requires RewardStep(s, mid, eligible, buyer)
    requires RewardStep(mid, after, eligible + EligibleNow(s, mid, buyer), buyer)
    ensures RewardStep(s, after, eligible, buyer)
  {
    hide DepositStep, DepositsOk, RewardsOk, EligibleNow;
    EligibleTwice(s, mid, after, buyer);
    assert eligible + EligibleNow(s, mid, buyer) + EligibleNow(mid, after, buyer) == eligible
      + EligibleNow(s, after, buyer);
  }

  /** Invoices may be held or expire, and notices remembered. */
  lemma QuietStep(s: Db, after: Db, eligible: set<nat>, buyer: UserId)
    requires DepositsOk(after) && RewardsOk(s, eligible, buyer)
    requires after.bank == s.bank && |after.payments| == |s.payments|
    requires forall p | 0 <= p < |s.payments| ::
               && after.payments[p].user == s.payments[p].user && after.payments[p].amount == s.payments[p].amount
               && (after.payments[p].status == Paid <==> s.payments[p].status == Paid)
    ensures RewardStep(s, after, eligible, buyer)
  {
    hide DepositsOk, RewardsOk, EligibleNow;
    QuietKeeps(s, after, eligible, buyer);
  }

  lemma SettleKeepsRewards(s: Db, p: nat, r: Receipt, eligible: set<nat>, buyer: UserId)
    requires DepositsOk(s) && RewardsOk(s, eligible, buyer) && p < |s.payments| && Settle(s, p, r).Success?
    ensures RewardStep(s, Settle(s, p, r).value, eligible, buyer)
  {
    hide DepositsOk, RewardsOk, EligibleNow, Credit, CreditDepositCommission, Verdict, Deposited, SameReferrers;
    SettleKeepsDeposits(s, p, r);
    var row, after := s.payments[p], Settle(s, p, r).value;
    VerdictMeans(row, r, row.user in s.bank.users);
    if Verdict(row, r, row.user in s.bank.users) == Credited {
      DepositedBank(s, p);
      var bank := Credit(s.bank, row.user, row.amount, ForPayment(p), DepositKey(p)).value;
      var rewarded := CreditDepositCommission(s.(bank := bank), p).value;
      assert after == SetPayment(rewarded, p, PaidRow(row, r.ref));
      DepositedRewards(s, after, p, eligible, buyer);
    } else {
      QuietStep(s, after, eligible, buyer);
    }
  }

  lemma AnswerKeepsRewards(s: Db, p: nat, gateway: string, answer: GatewayAnswer, eligible: set<nat>, buyer: UserId)
    requires DepositsOk(s) && RewardsOk(s, eligible, buyer) && p < |s.payments|
    requires ApplyAnswer(s, p, gateway, answer).Success?
    ensures RewardStep(s, ApplyAnswer(s, p, gateway, answer).value, eligible, buyer)
  {
    hide DepositsOk, RewardsOk, Settle, RewardStep;
    match answer
    case SaysPaid(amount, currency) =>
      SettleKeepsRewards(s, p, Receipt(gateway, s.payments[p].ref, amount, currency, false), eligible, buyer);
    case _ =>
      AnswerKeepsDeposits(s, p, gateway, answer);
      QuietStep(s, ApplyAnswer(s, p, gateway, answer).value, eligible, buyer);
  }

  lemma {:induction false} ReconcileKeepsRewards(
    s: Db, rows: seq<nat>, gateway: string, answers: map<nat, GatewayAnswer>, eligible: set<nat>, buyer: UserId
  )
    requires DepositsOk(s) && RewardsOk(s, eligible, buyer) && ReconcileAll(s, rows, gateway, answers).Success?
    ensures RewardStep(s, ReconcileAll(s, rows, gateway, answers).value, eligible, buyer)
  {
    hide DepositsOk, RewardsOk, ApplyAnswer, RewardStep, EligibleNow;
    if rows == [] {
      QuietStep(s, s, eligible, buyer);
    } else {
      var p := rows[|rows| - 1];
      ReconcileKeepsRewards(s, rows[..|rows| - 1], gateway, answers, eligible, buyer);
      var before := ReconcileAll(s, rows[..|rows| - 1], gateway, answers).value;
      if p in answers && p < |before.payments| {
        StepFacts(s, before, eligible, buyer);
        AnswerKeepsRewards(before, p, gateway, answers[p], eligible + EligibleNow(s, before, buyer), buyer);
        RewardStepTwice(s, before, ApplyAnswer(before, p, gateway, answers[p]).value, eligible, buyer);
      }
    }
  }

  lemma StepFacts(s: Db, after: Db, eligible: set<nat>, buyer: UserId)
    requires RewardStep(s, after, eligible, buyer)
    ensures DepositsOk(after) && RewardsOk(after, eligible + EligibleNow(s, after, buyer), buyer)
  {
  }

  lemma WebhookKeepsRewards(s: Db, gateway: string, n: Notice, eligible: set<nat>, buyer: UserId)
    requires DepositsOk(s) && RewardsOk(s, eligible, buyer) && HandleWebhook(s, gateway, n).Success?
    ensures RewardStep(s, HandleWebhook(s, gateway, n).value, eligible, buyer)
  {
    hide DepositsOk, RewardsOk, Settle, Expire, RewardStep, EligibleNow;
    var known := s.(seen := s.seen + {(gateway, n.id)});
    SeenKeepsDeposits(s, known.seen);
    QuietStep(s, s, eligible, buyer);
    QuietStep(s, known, eligible, buyer);
    if (gateway, n.id) !in s.seen && n.payment.Some? && n.payment.value < |s.payments| {
      var q := n.payment.value;
      StepFacts(s, known, eligible, buyer);
      var counted := eligible + EligibleNow(s, known, buyer);
      if n.kind == PaidNotice {
        var r := Receipt(gateway, n.ref, n.amount, n.currency, false);
        SettleKeepsRewards(known, q, r, counted, buyer);
        RewardStepTwice(s, known, Settle(known, q, r).value, eligible, buyer);
      } else if n.kind == ExpiredNotice {
        ExpireKeepsRewards(known, q, counted, buyer);
        RewardStepTwice(s, known, Expire(known, q), eligible, buyer);
      }
    }
  }

  lemma ExpireKeepsRewards(s: Db, p: nat, eligible: set<nat>, buyer: UserId)
    requires DepositsOk(s) && RewardsOk(s, eligible, buyer) && p < |s.payments|
    ensures RewardStep(s, Expire(s, p), eligible, buyer)
  {
    hide DepositsOk, RewardsOk, RewardStep;
    ExpireKeepsDeposits(s, p);
    QuietStep(s, Expire(s, p), eligible, buyer);
  }

  lemma DepositCallKeepsRewards(s: Db, e: Event, eligible: set<nat>, buyer: UserId)
    requires DepositsOk(s) && RewardsOk(s, eligible, buyer)
    requires (e.Webhook? || e.Check? || e.Confirm? || e.ReconcilePending?) && Handle(s, e).Success?
    ensures RewardStep(s, Handle(s, e).value, eligible, buyer)
  {
    hide DepositsOk, RewardsOk, Settle, HandleWebhook, ApplyAnswer, ReconcileAll, RewardStep;
    QuietStep(s, s, eligible, buyer);
    match e
    case Webhook(gateway, notice) => WebhookKeepsRewards(s, gateway, notice, eligible, buyer);
    case Check(p, user, said) =>
      if Handle(s, e).value != s { AnswerKeepsRewards(s, p, RAZORPAY, said, eligible, buyer); }
    case Confirm(p) =>
      if p < |s.payments| {
        var row := s.payments[p];
        var r := Receipt(row.gateway, row.ref, Some(row.amount), Some(row.currency), true);
        SettleKeepsRewards(s, p, r, eligible, buyer);
      }
    case ReconcilePending(gateway, aged, limit, answers) =>
      ReconcileKeepsRewards(s, ToReconcile(s.payments, gateway, aged, limit), gateway, answers, eligible, buyer);
  }

  /** Every other call adds quiet entries only. */
  lemma OtherCallIsQuiet(s: Db, e: Event)
    requires LedgerOk(s.bank) && Handle(s, e).Success? && !(e.Webhook? || e.Check? || e.Confirm? || e.ReconcilePending?)
    ensures Quiet(s, Handle(s, e).value)
  {
    hide LedgerOk, Handle, CreditOrderCommission, CompletedState, OrderCommissionDue;
    OtherCallsLeavePayments(s, e);
    OtherCallIsUntouched(s, e);
    if Completes(s, e) {
      CompletingSync(s, e);
      CompletedBank(s, e);
      CompletionRewards(CompletedState(s, e), e.order);
    } else {
      OtherCallIsOrdinary(s, e);
    }
  }

  lemma StepKeepsRewards(s: Db, e: Event, eligible: set<nat>, buyer: UserId)
    requires DepositsOk(s) && RewardsOk(s, eligible, buyer)
    ensures RewardsOk(Step(s, e), eligible + EligibleNow(s, Step(s, e), buyer), buyer)
  {
    hide DepositsOk, RewardsOk, Handle, EligibleNow, RewardStep, Quiet, LedgerOk;
    LedgerOfDeposits(s);
    if Handle(s, e).Failure? {
      QuietStep(s, s, eligible, buyer);
      StepFacts(s, s, eligible, buyer);
    } else if e.Webhook? || e.Check? || e.Confirm? || e.ReconcilePending? {
      DepositCallKeepsRewards(s, e, eligible, buyer);
      StepFacts(s, Handle(s, e).value, eligible, buyer);
    } else {
      OtherCallIsQuiet(s, e);
      QuietKeeps(s, Handle(s, e).value, eligible, buyer);
    }
  }

  // ---------------------------------------------------------------- every run

  lemma {:induction false} RunKeepsRewards(s: Db, events: seq<Event>, buyer: UserId)
    requires DepositsOk(s) && RewardsOk(s, {}, buyer)
    ensures RewardsOk(Run(s, events), EligibleDeposits(s, events, buyer), buyer)
  {
    hide DepositsOk, RewardsOk, Step, EligibleNow;
    if events != [] {
      RunKeepsRewards(s, events[..|events| - 1], buyer);
      RunKeepsDeposits(s, events[..|events| - 1]);
      StepKeepsRewards(Run(s, events[..|events| - 1]), events[|events| - 1],
                       EligibleDeposits(s, events[..|events| - 1], buyer), buyer);
    }
  }

  /**
   * Over every run from the empty database, the deposit commission of a buyer is paid for the
   * buyer's first paid deposit if and only if that one was settled while the buyer had a
   * referrer and 5% of it was at least a paisa; for the second, if and only if that is so of the
   * second and not of the first; and for no other deposit.
   */
  lemma DepositEarnsIff(coupons: map<Code, Coupon>, events: seq<Event>, buyer: UserId, p: nat)
    requires p < |Run(EmptyDb(coupons), events).payments| && Run(EmptyDb(coupons), events).payments[p].user == buyer
    ensures var t := Run(EmptyDb(coupons), events);
            var paid := PaidDeposits(t.bank.ledger, buyer);
            var eligible := EligibleDeposits(EmptyDb(coupons), events, buyer);
            && ListsPaid(t, paid, buyer)
            && (Rewarded(t, p) ==> p in paid[..if |paid| < 2 then |paid| else 2])
            && (|paid| > 0 && p == paid[0] ==> (Rewarded(t, p) <==> p in eligible))
            && (|paid| > 1 && p == paid[1] ==> (Rewarded(t, p) <==> p in eligible && paid[0] !in eligible))
  {
    NoDepositsYet(coupons, buyer);
    hide DepositsOk, Run, EmptyDb, EligibleDeposits, PaidDeposits, Rewarded;
    RunKeepsRewards(EmptyDb(coupons), events, buyer);
  }

  lemma NoDepositsYet(coupons: map<Code, Coupon>, buyer: UserId)
    ensures DepositsOk(EmptyDb(coupons)) && RewardsOk(EmptyDb(coupons), {}, buyer)
  {
  }
}
