/**
 * The pending commission a referrer is shown, and what it promises: when the open orders complete
 * in id order, whatever else happens in between, exactly that amount is credited.
 */
module Forecast {
  import opened Results
  import opened Sums
  import opened Rounding
  import opened Keys
  import opened Wallet
  import opened Tables
  import opened Referrals
  import opened Engine
  import opened Lifecycle
  import opened Commissions
  import opened CommissionRuns

  /** The user was referred by this account. */
  predicate InDownline(b: Bank, user: UserId, referrer: UserId) {
    user in b.users && b.users[user].referredBy == Some(referrer)
  }

  predicate OpenFor(s: Db, o: Order, referrer: UserId) {
    Active(o.status) && InDownline(s.bank, o.user, referrer)
  }

  function OpenBy(user: UserId): Order -> int {
    (o: Order) => if o.user == user && Active(o.status) then 1 else 0
  }

  /** Order commissions a buyer can still earn. */
  function Slots(s: Db, buyer: UserId): int {
    Max(0, REFERRAL_ORDER_CAP - Sum(s.orders, CompletedBy(buyer)))
  }

  /** An open order counts while its buyer has slots left after the older open orders. */
  predicate Counts(s: Db, i: nat, referrer: UserId)
    requires i < |s.orders|
  {
    OpenFor(s, s.orders[i], referrer) && Sum(s.orders[..i], OpenBy(s.orders[i].user)) < Slots(s, s.orders[i].user)
  }

  /** The pending commission over the first `n` orders. */
  function PendingTo(s: Db, referrer: UserId, n: nat): int
    requires n <= |s.orders|
  {
    if n == 0 then 0
    else
      PendingTo(s, referrer, n - 1)
      + if Counts(s, n - 1, referrer) then Commission(s.orders[n - 1].charge, REFERRAL_ORDER_COMMISSION_PERCENT) else 0
  }

  lemma NotOpenCountsNot(s: Db, i: nat, referrer: UserId)
    requires i < |s.orders| && !OpenFor(s, s.orders[i], referrer)
    ensures !Counts(s, i, referrer)
  {
  }

  /** The lifetime earnings a referrer is shown, from the ledger. */
  function EarnedBy(user: UserId): Entry -> int {
    (e: Entry) =>
      if e.user == user && (e.ref.ForReferredOrder? || e.ref.ForReferredDeposit?) && e.kind == CreditEntry
        then e.amount else 0
  }

  function Earnings(s: Db, referrer: UserId): int {
    Sum(s.bank.ledger, EarnedBy(referrer))
  }

  /** The part of the earnings that is for deposits. */
  function DepositsEarnedBy(user: UserId): Entry -> int {
    (e: Entry) => if e.user == user && e.ref.ForReferredDeposit? && e.kind == CreditEntry then e.amount else 0
  }

  function DepositEarnings(s: Db, referrer: UserId): int {
    Sum(s.bank.ledger, DepositsEarnedBy(referrer))
  }

  /** The part of the earnings that is for orders. */
  function OrdersEarnedBy(user: UserId): Entry -> int {
    (e: Entry) => if e.user == user && e.ref.ForReferredOrder? && e.kind == CreditEntry then e.amount else 0
  }

  function OrderEarnings(s: Db, referrer: UserId): int {
    Sum(s.bank.ledger, OrdersEarnedBy(referrer))
  }

  lemma {:induction false} EarningsSplit(ledger: seq<Entry>, user: UserId)
    ensures Sum(ledger, EarnedBy(user)) == Sum(ledger, OrdersEarnedBy(user)) + Sum(ledger, DepositsEarnedBy(user))
  {
    if ledger != [] { EarningsSplit(ledger[..|ledger| - 1], user); }
  }

  // ---------------------------------------------------------------- completing the open orders

  /** The open orders of the downline among the first `n`, oldest first. */
  function OpenIds(s: Db, referrer: UserId, n: nat): seq<nat>
    requires n <= |s.orders|
  {
    if n == 0 then []
    else OpenIds(s, referrer, n - 1) + if OpenFor(s, s.orders[n - 1], referrer) then [n - 1] else []
  }

  predicate CompletesInDownline(s: Db, e: Event, referrer: UserId) {
    Completes(s, e) && InDownline(s.bank, s.orders[e.order].user, referrer)
  }

  /** The orders of the downline that a run completes, in the order in which it does. */
  function DownlineCompletions(s: Db, events: seq<Event>, referrer: UserId): seq<nat> {
    if events == [] then []
    else
      var earlier, e := events[..|events| - 1], events[|events| - 1];
      CompletedIds(Run(s, earlier), e, referrer, DownlineCompletions(s, earlier, referrer))
  }

  /** The list of completed ids after one more call. */
  function CompletedIds(s: Db, e: Event, referrer: UserId, ids: seq<nat>): seq<nat> {
    if CompletesInDownline(s, e, referrer) then ids + [e.order] else ids
  }

  predicate ReopensInDownline(s: Db, e: Event, referrer: UserId) {
    && e.Refill? && e.order < |s.orders| && s.orders[e.order].status == Completed
    && InDownline(s.bank, s.orders[e.order].user, referrer)
  }

  predicate NoneReopened(s: Db, events: seq<Event>, referrer: UserId) {
    events != [] ==>
      var earlier, e := events[..|events| - 1], events[|events| - 1];
      NoneReopened(s, earlier, referrer) && !ReopensInDownline(Run(s, earlier), e, referrer)
  }

  /**
   * When the forecast can be trusted: the order was never paid for, and no newer order of its buyer already
   * completed.
   */
  predicate Forecastable(s: Db, i: nat, referrer: UserId)
    requires i < |s.orders|
  {
    var o := s.orders[i];
    && o.user != referrer && !Commissioned(s, i)
    && forall j | 0 <= j < |s.orders| && s.orders[j].user == o.user && s.orders[j].status == Completed :: j < i
  }

  /** What an open order adds to the forecast. */
  function ValueOf(s: Db, referrer: UserId): nat -> int {
    (i: nat) =>
      if i < |s.orders| && Counts(s, i, referrer)
        then Commission(s.orders[i].charge, REFERRAL_ORDER_COMMISSION_PERCENT) else 0
  }

  lemma {:induction false} PendingIsSum(s: Db, referrer: UserId, n: nat)
    requires n <= |s.orders|
    ensures PendingTo(s, referrer, n) == Sum(OpenIds(s, referrer, n), ValueOf(s, referrer))
  {
    hide Commission, Counts;
    if n > 0 {
      PendingIsSum(s, referrer, n - 1);
      if OpenFor(s, s.orders[n - 1], referrer) {
        hide OpenFor;
        SumAppend<nat>(OpenIds(s, referrer, n - 1), n - 1, ValueOf(s, referrer));
      } else {
        NotOpenCountsNot(s, n - 1, referrer);
        hide OpenFor;
        assert OpenIds(s, referrer, n) == OpenIds(s, referrer, n - 1);
      }
    }
  }

  /** The list of open ids is ascending and complete. */
  lemma {:induction false} OpenIdsAscend(s: Db, referrer: UserId, n: nat)
    requires n <= |s.orders|
    ensures forall j, k | 0 <= j < k < |OpenIds(s, referrer, n)| ::
            OpenIds(s, referrer, n)[j] < OpenIds(s, referrer, n)[k]
    ensures forall k | 0 <= k < |OpenIds(s, referrer, n)| ::
              OpenIds(s, referrer, n)[k] < n && OpenFor(s, s.orders[OpenIds(s, referrer, n)[k]], referrer)
    ensures forall i | 0 <= i < n && OpenFor(s, s.orders[i], referrer) :: i in OpenIds(s, referrer, n)
  {
    hide OpenFor;
    if n > 0 {
      OpenIdsAscend(s, referrer, n - 1);
      var before, ids := OpenIds(s, referrer, n - 1), OpenIds(s, referrer, n);
      assert forall i | i in before :: i in ids;
      assert OpenFor(s, s.orders[n - 1], referrer) ==> ids[|before|] == n - 1;
    }
  }

  /** When no order of the buyer from `i` on is completed, all completed ones are below `i`. */
  lemma {:induction false} AllCompletedBelow(orders: seq<Order>, i: nat, buyer: UserId)
    requires i <= |orders| && forall j | i <= j < |orders| :: CompletedBy(buyer)(orders[j]) == 0
    ensures Sum(orders[..i], CompletedBy(buyer)) == Sum(orders, CompletedBy(buyer))
  {
    assert orders == orders[..i] + orders[i..];
    SumConcat(orders[..i], orders[i..], CompletedBy(buyer));
    SumZero(orders[i..], CompletedBy(buyer));
  }

  // ---------------------------------------------------------------- one call

  /** How far a run has come: these of the open orders have completed, and been paid for as forecast. */
  ghost predicate Progress(s: Db, t: Db, referrer: UserId, ids: seq<nat>) {
    && RowsStay(s, t) && Extends(s.bank, t.bank)
    && (forall i | i in ids :: i < |s.orders|)
    && (forall i | 0 <= i < |t.orders| && InDownline(s.bank, t.orders[i].user, referrer) ::
          t.orders[i].status == Completed <==> (i < |s.orders| && s.orders[i].status == Completed) || i in ids)
    && (forall i | 0 <= i < |s.orders| && OpenFor(s, s.orders[i], referrer) && i !in ids :: !Commissioned(t, i))
    && OrderEarnings(t, referrer) == OrderEarnings(s, referrer) + Sum(ids, ValueOf(s, referrer))
  }

  /** The next open order in line: open before, and all older open orders have completed. */
  ghost predicate NextInLine(s: Db, referrer: UserId, ids: seq<nat>, x: nat) {
    && x < |s.orders| && OpenFor(s, s.orders[x], referrer) && x !in ids
    && (forall i | i in ids :: i < |s.orders| && OpenFor(s, s.orders[i], referrer))
    && (forall i | 0 <= i < x && OpenFor(s, s.orders[i], referrer) :: i in ids)
  }

  lemma PrefixIsInLine(s: Db, referrer: UserId, ids: seq<nat>, x: nat)
    requires ids + [x] <= OpenIds(s, referrer, |s.orders|)
    ensures NextInLine(s, referrer, ids, x)
  {
    var all := OpenIds(s, referrer, |s.orders|);
    OpenIdsAscend(s, referrer, |s.orders|);
    hide OpenFor, OpenIds;
    assert all[|ids|] == x && forall k | 0 <= k < |ids| :: all[k] == ids[k];
    forall i | 0 <= i < x && OpenFor(s, s.orders[i], referrer) ensures i in ids {
      var k :| 0 <= k < |all| && all[k] == i;
      assert k < |ids|;
      assert ids[k] == i;
    }
  }

  /** Up to an order in line, a buyer has completed what was completed before and what was open. */
  lemma {:induction false} CompletedUpTo(s: Db, t: Db, referrer: UserId, ids: seq<nat>, x: nat, buyer: UserId, m: nat)
    requires Progress(s, t, referrer, ids) && NextInLine(s, referrer, ids, x) && m <= x
             && InDownline(s.bank, buyer, referrer)
    ensures m <= |t.orders|
    ensures Sum(t.orders[..m], CompletedBy(buyer)) == Sum(s.orders[..m], CompletedBy(buyer))
            + Sum(s.orders[..m], OpenBy(buyer))
  {
    hide LedgerOk, Commissioned, Counts, Commission, CommissionsOk, OrdersOk;
    if m > 0 {
      CompletedOrOpen(s, t, referrer, ids, x, buyer, m - 1);
      hide Progress, NextInLine, CompletedBy, OpenBy, InDownline;
      CompletedUpTo(s, t, referrer, ids, x, buyer, m - 1);
      assert t.orders[..m][..m - 1] == t.orders[..m - 1] && s.orders[..m][..m - 1] == s.orders[..m - 1];
    }
  }

  lemma CompletedOrOpen(s: Db, t: Db, referrer: UserId, ids: seq<nat>, x: nat, buyer: UserId, j: nat)
    requires Progress(s, t, referrer, ids) && NextInLine(s, referrer, ids, x) && j < x
             && InDownline(s.bank, buyer, referrer)
    ensures j < |t.orders|
    ensures CompletedBy(buyer)(t.orders[j]) == CompletedBy(buyer)(s.orders[j]) + OpenBy(buyer)(s.orders[j])
  {
    hide LedgerOk, Commissioned, Counts, Commission;
  }

  lemma CommissionSign(amount: int, percent: int)
    ensures Commission(amount, percent) >= 0
  {
    if amount > 0 && percent > 0 { assert amount * percent > 0; }
  }

  /** What is due when the order in line completes is what the forecast said. */
  lemma DueIsForecast(s: Db, t: Db, referrer: UserId, ids: seq<nat>, e: Event)
    requires Progress(s, t, referrer, ids) && Completes(t, e) && NextInLine(s, referrer, ids, e.order)
    requires referrer in s.bank.users && Forecastable(s, e.order, referrer)
    ensures Max(0, OrderCommissionDue(CompletedState(t, e), e.order)) == ValueOf(s, referrer)(e.order)
    ensures ReferrerOf(t.bank, t.orders[e.order].user) == Some(referrer)
  {
    hide LedgerOk, Commission, Commissioned;
    var x := e.order;
    var done := CompletedState(t, e);
    var buyer := s.orders[x].user;
    assert done.orders[..x] == t.orders[..x];
    CompletedUpTo(s, t, referrer, ids, x, buyer, x);
    SumNonNegative(s.orders[..x], OpenBy(buyer));
    AllCompletedBelow(s.orders, x, buyer);
    CommissionSign(s.orders[x].charge, REFERRAL_ORDER_COMMISSION_PERCENT);
  }

  /** Completing one order credits its referrer exactly what is due. */
  lemma CompletionEarns(s: Db, i: nat, referrer: UserId)
    requires LedgerOk(s.bank) && i < |s.orders| && s.orders[i].status == Completed && !Commissioned(s, i)
    requires ReferrerOf(s.bank, s.orders[i].user) == Some(referrer)
    ensures CreditOrderCommission(s, i).Success?
    ensures OrderEarnings(CreditOrderCommission(s, i).value, referrer)
         == OrderEarnings(s, referrer) + Max(0, OrderCommissionDue(s, i))
  {
    hide LedgerOk, Commission;
    CompletionRewards(s, i);
    var due := OrderCommissionDue(s, i);
    if due > 0 {
      CallPosts(s.bank, CreditCall(referrer, due, ForReferredOrder(i), OrderCommissionKey(i)));
      var after := CreditOrderCommission(s, i).value;
      SumAppend(s.bank.ledger, after.bank.ledger[|s.bank.ledger|], OrdersEarnedBy(referrer));
      hide Attempt, Credit;
    }
  }

  /** A call that completes no order of the downline adds nothing to the order earnings. */
  lemma OtherCallEarnsNothing(s: Db, e: Event, referrer: UserId)
    requires OrdersOk(s) && LedgerOk(s.bank) && !CompletesInDownline(s, e, referrer)
    ensures OrderEarnings(Step(s, e), referrer) == OrderEarnings(s, referrer)
  {
    hide LedgerOk, OrdersOk, Step, Commission, CompletedState;
    StepEffect(s, e);
    var ledger, after := s.bank.ledger, Step(s, e).bank.ledger;
    var rest := after[|ledger|..];
    assert after == ledger + rest;
    forall k | 0 <= k < |rest| ensures OrdersEarnedBy(referrer)(rest[k]) == 0 {
      assert rest[k] == after[|ledger| + k];
      if OrderRewardOk(Step(s, e), rest[k]) && Completes(s, e) && rest[k].ref.order == e.order {
        OtherReferrer(s, e, referrer, rest[k]);
      }
    }
    SumConcat(ledger, rest, OrdersEarnedBy(referrer));
    SumZero(rest, OrdersEarnedBy(referrer));
  }

  lemma OtherReferrer(s: Db, e: Event, referrer: UserId, entry: Entry)
    requires CallEffect(s, e, Step(s, e)) && Completes(s, e) && !CompletesInDownline(s, e, referrer)
    requires OrderRewardOk(Step(s, e), entry) && entry.ref.order == e.order
    requires OrderCommissionDue(CompletedState(s, e), e.order) > 0
    ensures entry.user != referrer
  {
    hide LedgerOk, Step, Commission;
  }

  /** One call of the run. */
  lemma ProgressStep(s: Db, t: Db, referrer: UserId, ids: seq<nat>, e: Event)
    requires OrdersOk(t) && CommissionsOk(t) && Progress(s, t, referrer, ids) && referrer in s.bank.users
    requires !ReopensInDownline(t, e, referrer)
    requires CompletesInDownline(t, e, referrer) ==>
               NextInLine(s, referrer, ids, e.order) && Forecastable(s, e.order, referrer)
    ensures Progress(s, Step(t, e), referrer, CompletedIds(t, e, referrer, ids))
  {
    hide OrdersOk, LedgerOk, Step, Commissioned, ValueOf, OrderEarnings, NextInLine, RowsStay, CommissionsOk,
      Forecastable, Active,
      CompletesInDownline;
    var ids' := CompletedIds(t, e, referrer, ids);
    ProgressIds(s, t, referrer, ids, e);
    LedgerOfCommissions(t);
    ProgressRows(s, t, e);
    forall i | 0 <= i < |Step(t, e).orders| && InDownline(s.bank, Step(t, e).orders[i].user, referrer)
      ensures Step(t, e).orders[i].status == Completed <==>
              (i < |s.orders| && s.orders[i].status == Completed) || i in ids'
    {
      ProgressRow(s, t, referrer, ids, e, i);
    }
    forall i | 0 <= i < |s.orders| && OpenFor(s, s.orders[i], referrer) && i !in ids'
      ensures !Commissioned(Step(t, e), i) {
      ProgressKey(s, t, referrer, ids, e, i);
    }
    if CompletesInDownline(t, e, referrer) {
      ProgressEarns(s, t, referrer, ids, e);
    } else {
      OtherCallEarnsNothing(t, e, referrer);
    }
  }

  lemma ProgressIds(s: Db, t: Db, referrer: UserId, ids: seq<nat>, e: Event)
    requires CompletesInDownline(t, e, referrer) ==> NextInLine(s, referrer, ids, e.order)
    requires forall i | i in ids :: i < |s.orders|
    ensures forall i | i in CompletedIds(t, e, referrer, ids) :: i < |s.orders|
    ensures forall i | i !in CompletedIds(t, e, referrer, ids) ::
              i !in ids && !(CompletesInDownline(t, e, referrer) && e.order == i)
    ensures !CompletesInDownline(t, e, referrer) ==> CompletedIds(t, e, referrer, ids) == ids
  {
    var ids' := CompletedIds(t, e, referrer, ids);
    assert forall k | 0 <= k < |ids| :: ids'[k] == ids[k];
    assert |ids'| > |ids| ==> ids'[|ids|] == e.order;
  }

  lemma LedgerOfCommissions(s: Db)
    requires CommissionsOk(s)
    ensures LedgerOk(s.bank)
  {
  }

  lemma ProgressRows(s: Db, t: Db, e: Event)
    requires OrdersOk(t) && LedgerOk(t.bank) && RowsStay(s, t) && Extends(s.bank, t.bank)
    ensures RowsStay(s, Step(t, e)) && Extends(s.bank, Step(t, e).bank)
    ensures RowsStay(t, Step(t, e)) && Extends(t.bank, Step(t, e).bank)
  {
    hide OrdersOk, LedgerOk, Step;
    StepEffect(t, e);
  }

  lemma ProgressRow(s: Db, t: Db, referrer: UserId, ids: seq<nat>, e: Event, i: nat)
    requires OrdersOk(t) && LedgerOk(t.bank) && Progress(s, t, referrer, ids) && !ReopensInDownline(t, e, referrer)
    requires i < |Step(t, e).orders| && InDownline(s.bank, Step(t, e).orders[i].user, referrer)
    requires RowsStay(t, Step(t, e))
    requires CompletesInDownline(t, e, referrer) ==> NextInLine(s, referrer, ids, e.order)
    ensures var ids' := CompletedIds(t, e, referrer, ids);
            Step(t, e).orders[i].status == Completed <==>
              (i < |s.orders| && s.orders[i].status == Completed) || i in ids'
  {
    hide OrdersOk, LedgerOk, Step, Commissioned, ValueOf, OrderEarnings, Active;
    CompletionStep(t, e, i);
    if i < |t.orders| {
      DownlineStays(s, t, referrer, t.orders[i].user);
    } else {
      IdsAreStored(s, t, referrer, ids);
    }
  }

  lemma DownlineStays(s: Db, t: Db, referrer: UserId, user: UserId)
    requires Extends(s.bank, t.bank) && InDownline(s.bank, user, referrer)
    ensures InDownline(t.bank, user, referrer)
  {
    hide LedgerOk;
  }

  lemma IdsAreStored(s: Db, t: Db, referrer: UserId, ids: seq<nat>)
    requires Progress(s, t, referrer, ids)
    ensures |s.orders| <= |t.orders|
  {
    hide LedgerOk;
  }

  lemma ProgressKey(s: Db, t: Db, referrer: UserId, ids: seq<nat>, e: Event, i: nat)
    requires OrdersOk(t) && CommissionsOk(t) && Progress(s, t, referrer, ids)
    requires i < |s.orders| && OpenFor(s, s.orders[i], referrer)
    requires i !in ids && !(CompletesInDownline(t, e, referrer) && e.order == i)
    ensures !Commissioned(Step(t, e), i)
  {
    hide OrdersOk, LedgerOk, Step, Commissioned, ValueOf, OrderEarnings, CommissionsOk, OrderCommissionDue,
      CompletedState;
    KeyStep(t, e, i);
    DownlineStays(s, t, referrer, s.orders[i].user);
  }

  lemma ProgressEarns(s: Db, t: Db, referrer: UserId, ids: seq<nat>, e: Event)
    requires OrdersOk(t) && LedgerOk(t.bank) && Progress(s, t, referrer, ids) && referrer in s.bank.users
    requires CompletesInDownline(t, e, referrer) && NextInLine(s, referrer, ids, e.order)
             && Forecastable(s, e.order, referrer)
    ensures OrderEarnings(Step(t, e), referrer) == OrderEarnings(s, referrer)
            + Sum(ids + [e.order], ValueOf(s, referrer))
  {
    hide OrdersOk, LedgerOk, Commissioned, ValueOf, Handle, Commission, CreditOrderCommission, OrderCommissionDue;
    CompletingSync(t, e);
    DueIsForecast(s, t, referrer, ids, e);
    SameLedgerEarnings(t, e, referrer);
    NotYetCommissioned(s, t, referrer, ids, e);
    CompletionEarns(CompletedState(t, e), e.order, referrer);
    SumAppend(ids, e.order, ValueOf(s, referrer));
  }

  lemma SameLedgerEarnings(t: Db, e: Event, referrer: UserId)
    requires Completes(t, e)
    ensures CompletedState(t, e).bank == t.bank && |CompletedState(t, e).orders| == |t.orders|
    ensures CompletedState(t, e).orders[e.order].status == Completed
    ensures CompletedState(t, e).orders[e.order].user == t.orders[e.order].user
    ensures OrderEarnings(CompletedState(t, e), referrer) == OrderEarnings(t, referrer)
  {
  }

  lemma NotYetCommissioned(s: Db, t: Db, referrer: UserId, ids: seq<nat>, e: Event)
    requires Progress(s, t, referrer, ids) && Completes(t, e) && NextInLine(s, referrer, ids, e.order)
    ensures !Commissioned(CompletedState(t, e), e.order)
  {
    hide LedgerOk, ValueOf, OrderEarnings;
    SameLedgerEarnings(t, e, referrer);
  }

  // ---------------------------------------------------------------- every run

  lemma {:induction false} ProgressOverRun(s: Db, events: seq<Event>, referrer: UserId)
    requires OrdersOk(s) && CommissionsOk(s) && referrer in s.bank.users
    requires forall i | 0 <= i < |s.orders| && OpenFor(s, s.orders[i], referrer) :: Forecastable(s, i, referrer)
    requires NoneReopened(s, events, referrer)
    requires DownlineCompletions(s, events, referrer) <= OpenIds(s, referrer, |s.orders|)
    ensures Progress(s, Run(s, events), referrer, DownlineCompletions(s, events, referrer))
  {
    hide OrdersOk, CommissionsOk, Progress, Step, OpenIds, CompletedIds, Forecastable, OpenFor, ReopensInDownline;
    if events == [] {
      ProgressAtStart(s, referrer);
    } else {
      var earlier, e := events[..|events| - 1], events[|events| - 1];
      var t, ids := Run(s, earlier), DownlineCompletions(s, earlier, referrer);
      CompletedIdsGrow(t, e, referrer, ids);
      ProgressOverRun(s, earlier, referrer);
      RunKeepsCommissions(s, earlier);
      ProgressInLine(s, t, referrer, ids, e);
    }
  }

  lemma CompletedIdsGrow(s: Db, e: Event, referrer: UserId, ids: seq<nat>)
    ensures ids <= CompletedIds(s, e, referrer, ids)
  {
  }

  lemma ProgressInLine(s: Db, t: Db, referrer: UserId, ids: seq<nat>, e: Event)
    requires OrdersOk(t) && CommissionsOk(t) && Progress(s, t, referrer, ids) && referrer in s.bank.users
    requires !ReopensInDownline(t, e, referrer)
    requires forall i | 0 <= i < |s.orders| && OpenFor(s, s.orders[i], referrer) :: Forecastable(s, i, referrer)
    requires CompletedIds(t, e, referrer, ids) <= OpenIds(s, referrer, |s.orders|)
    ensures Progress(s, Step(t, e), referrer, CompletedIds(t, e, referrer, ids))
  {
    hide OrdersOk, CommissionsOk, Progress, Step, OpenIds, NextInLine, Forecastable, OpenFor, ReopensInDownline;
    if CompletesInDownline(t, e, referrer) {
      PrefixIsInLine(s, referrer, ids, e.order);
      InLineIsForecastable(s, referrer, ids, e.order);
    }
    ProgressStep(s, t, referrer, ids, e);
  }

  lemma InLineIsForecastable(s: Db, referrer: UserId, ids: seq<nat>, x: nat)
    requires NextInLine(s, referrer, ids, x)
    requires forall i | 0 <= i < |s.orders| && OpenFor(s, s.orders[i], referrer) :: Forecastable(s, i, referrer)
    ensures x < |s.orders| && Forecastable(s, x, referrer)
  {
    hide OpenFor, Forecastable;
  }

  lemma ProgressAtStart(s: Db, referrer: UserId)
    requires forall i | 0 <= i < |s.orders| && OpenFor(s, s.orders[i], referrer) :: Forecastable(s, i, referrer)
    ensures Progress(s, s, referrer, [])
  {
    hide LedgerOk, Commissioned, OpenFor;
  }

  /**
   * The forecast is exact: over every run in which the downline's open orders are the ones that
   * complete, in id order, and none of its completed orders is reopened, the referrer's earnings
   * grow by exactly the pending commission shown, besides commissions for deposits. Any other
   * calls may come in between.
   */
  lemma PendingIsWhatCompletionCredits(s: Db, events: seq<Event>, referrer: UserId)
    requires OrdersOk(s) && CommissionsOk(s) && referrer in s.bank.users
    requires forall i | 0 <= i < |s.orders| && OpenFor(s, s.orders[i], referrer) :: Forecastable(s, i, referrer)
    requires NoneReopened(s, events, referrer)
    requires DownlineCompletions(s, events, referrer) == OpenIds(s, referrer, |s.orders|)
    ensures var t := Run(s, events);
            Earnings(t, referrer) - Earnings(s, referrer)
            == PendingTo(s, referrer, |s.orders|) + DepositEarnings(t, referrer) - DepositEarnings(s, referrer)
  {
    hide OrdersOk, CommissionsOk, OpenFor, Forecastable, NoneReopened, OpenIds, DownlineCompletions, Run, RowsStay,
      Extends;
    ProgressOverRun(s, events, referrer);
    PendingIsSum(s, referrer, |s.orders|);
    EarningsSplit(s.bank.ledger, referrer);
    EarningsSplit(Run(s, events).bank.ledger, referrer);
  }
}
