/** What the money core guarantees customers and the owner in every state of every run. */
module Consequences {
  import opened Results
  import opened Sums
  import opened Rounding
  import opened Keys
  import opened Wallet
  import opened Pricing
  import opened Tables
  import opened Referrals
  import opened Orders
  import opened Engine
  import opened Books
  import opened BooksKept
  import opened EngineBooks
  import opened EngineKept
  import opened Lifecycle
  import opened Commissions
  import opened CommissionRuns
  import opened Earnings

  lemma ReachedMoney(coupons: map<Code, Coupon>, events: seq<Event>)
    ensures MoneyOk(AccountsOf(Run(EmptyDb(coupons), events)))
  {
    EmptyBooks(coupons);
    hide MoneyOk, Run, EmptyDb;
    RunKeepsMoney(EmptyDb(coupons), events);
  }

  /**
   * In every state of every run, a balance is paid deposits, plus 8% of each order and 5% of each
   * deposit that earned the user a commission, plus adjustments and bonuses, plus order refunds,
   * less the charges of captured orders and less payouts, each added up from its own rows.
   */
  lemma BalanceIsTheBusiness(coupons: map<Code, Coupon>, events: seq<Event>, u: UserId)
    requires u in Run(EmptyDb(coupons), events).bank.users
    ensures var s := Run(EmptyDb(coupons), events);
            s.bank.users[u].balance
            == Sum(s.payments, DepositedBy(u)) + Sum(s.orders, RefundedTo(s.records, u))
              + Sum(s.orders, OrderCommissionTo(s.bank, u))
              + Sum(Positions(|s.payments|), DepositCommissionTo(s, u)) + Sum(s.bank.ledger, GrantedTo(u))
               - Sum(s.orders, CapturedFrom(u)) - Sum(s.payouts, PaidOutTo(u))
  {
    ReachedMoney(coupons, events);
    EmptyCommissions(coupons);
    hide Run, EmptyDb, MoneyOk, OrdersOk, CommissionsOk;
    var s := Run(EmptyDb(coupons), events);
    RunKeepsCommissions(EmptyDb(coupons), events);
    BalanceOf(AccountsOf(s), u);
    OrdersAreNumbered(AccountsOf(s));
    OutsideIsEarned(s, u);
  }

  lemma OrdersAreNumbered(a: Accounts)
    requires MoneyOk(a)
    ensures Numbered(a.orders)
  {
    forall i | 0 <= i < |a.orders| ensures a.orders[i].id == i { assert RowOk(a, i); }
  }

  lemma BalanceOf(a: Accounts, u: UserId)
    requires MoneyOk(a) && u in a.bank.users
    ensures BalanceOk(a, u)
  {
  }

  /**
   * In every state of every run, what the ledger credited for an order is what its rows say,
   * nothing before its funds were captured, never more than its charge, and exactly its charge
   * when it was closed after that in any way but a cancel from pending.
   */
  lemma RefundsFollowTheOrder(coupons: map<Code, Coupon>, events: seq<Event>, i: nat)
    requires i < |Run(EmptyDb(coupons), events).orders|
    ensures var s := Run(EmptyDb(coupons), events);
            var o := s.orders[i];
            && RefundedSoFar(s, i) == RefundOf(s.records, o)
            && (!IsCaptured(o) ==> RefundedSoFar(s, i) == 0)
            && 0 <= RefundedSoFar(s, i) <= o.charge
            && (ClosedAfterCapture(o) ==> RefundedSoFar(s, i) == o.charge)
  {
    ReachedMoney(coupons, events);
    hide Run, EmptyDb, MoneyOk;
    BooksAt(AccountsOf(Run(EmptyDb(coupons), events)), i);
  }

  /**
   * In every state of every run, each commission went to the account that referred the buyer, never
   * the buyer, and is 8% of the order or 5% of the deposit it is for, rounded down to a paisa.
   */
  lemma CommissionsArePercentages(coupons: map<Code, Coupon>, events: seq<Event>, k: nat)
    requires k < |Run(EmptyDb(coupons), events).bank.ledger|
    ensures var s := Run(EmptyDb(coupons), events);
            var e := s.bank.ledger[k];
            && (e.ref.ForReferredOrder? ==>
                  && e.ref.order < |s.orders| && IsReferrer(s.bank, s.orders[e.ref.order].user, e.user)
                  && 100 * e.amount <= 8 * s.orders[e.ref.order].charge < 100 * (e.amount + 1))
            && (e.ref.ForReferredDeposit? ==>
                  && e.ref.payment < |s.payments| && IsReferrer(s.bank, s.payments[e.ref.payment].user, e.user)
                  && 100 * e.amount <= 5 * s.payments[e.ref.payment].amount < 100 * (e.amount + 1))
  {
    ReachedMoney(coupons, events);
    EmptyCommissions(coupons);
    hide Run, EmptyDb, MoneyOk, OrdersOk;
    var s := Run(EmptyDb(coupons), events);
    RunKeepsCommissions(EmptyDb(coupons), events);
    CommissionAt(s, k);
    hide CommissionsOk;
    if s.bank.ledger[k].ref.ForReferredOrder? || s.bank.ledger[k].ref.ForReferredDeposit? {
      PositiveCredit(AccountsOf(s), k);
    }
    var e := s.bank.ledger[k];
    if e.ref.ForReferredOrder? {
      PercentOf(s.orders[e.ref.order].charge, 8);
    } else if e.ref.ForReferredDeposit? {
      PercentOf(s.payments[e.ref.payment].amount, 5);
    }
  }

  /** The account is the one that referred the buyer, and not the buyer's own. */
  predicate IsReferrer(b: Bank, buyer: UserId, referrer: UserId) {
    buyer in b.users && b.users[buyer].referredBy == Some(referrer) && referrer in b.users && referrer != buyer
  }

  lemma PositiveCredit(a: Accounts, k: nat)
    requires MoneyOk(a) && k < |a.bank.ledger| && a.bank.ledger[k].kind == CreditEntry
    ensures a.bank.ledger[k].amount > 0
  {
    assert EntryOk(a, a.bank.ledger[k]);
  }

  lemma PercentOf(amount: int, percent: int)
    requires percent > 0 && Commission(amount, percent) > 0
    ensures 100 * Commission(amount, percent) <= percent * amount < 100 * (Commission(amount, percent) + 1)
  {
  }

  // ---------------------------------------------------------------- closing an order, once and for all

  lemma {:induction false} RunConcat(s: Db, first: seq<Event>, second: seq<Event>)
    ensures Run(s, first + second) == Run(Run(s, first), second)
  {
    hide Step;
    if second == [] {
      assert first + second == first;
    } else {
      RunConcat(s, first, second[..|second| - 1]);
      assert (first + second)[..|first + second| - 1] == first + second[..|second| - 1];
    }
  }

  /** The provider closes a captured order, or somebody cancels one that is at work. */
  predicate ClosesAtWork(s: Db, e: Event, i: nat) {
    && i < |s.orders| && IsCaptured(s.orders[i])
    && ((e.Sync? && e.order == i && HasProvider(s.orders[i]) && !Terminal(s.orders[i].status)
         && e.report.Report? && e.report.status in {Canceled, Failed})
        || (e.Cancel? && e.order == i && s.orders[i].status in {Processing, InProgress}
            && CancelOrder(s, i, e.actor, e.staff, e.confirmed).Success?))
  }

  lemma ClosingRow(s: Db, e: Event, i: nat)
    requires MoneyOk(AccountsOf(s)) && ClosesAtWork(s, e, i)
    ensures i < |Step(s, e).orders| && Step(s, e).orders[i].charge == s.orders[i].charge
    ensures RefundedSoFar(Step(s, e), i) == s.orders[i].charge
  {
    hide MoneyOk, SyncOrder, CancelOrder, PlaceOrder, ResolveReview, RefillOrder, FlagStuck, RefundedSoFar;
    if e.Sync? {
      ClosingReportRefundsIff(s, i, e.report);
      SyncRow(s, i, e.report);
    } else {
      CancelRow(s, i, e.actor, e.staff, e.confirmed);
      StepKeepsMoney(s, e);
      hide Step;
      BooksAt(AccountsOf(s), i);
      CancelledRow(Step(s, e), i);
    }
  }

  lemma CancelledRow(s: Db, i: nat)
    requires MoneyOk(AccountsOf(s)) && i < |s.orders| && IsCaptured(s.orders[i]) && s.orders[i].status == Canceled
    requires !CancelledFromPending(s.orders[i])
    ensures RefundedSoFar(s, i) == s.orders[i].charge
  {
    hide MoneyOk;
    BooksAt(AccountsOf(s), i);
  }

  /** Credits for an order are never taken back. */
  lemma CreditsArePositive(a: Accounts, k: nat, i: nat, u: UserId)
    requires MoneyOk(a) && k < |a.bank.ledger|
    ensures RefundEntry(i, u)(a.bank.ledger[k]) >= 0
  {
    assert EntryOk(a, a.bank.ledger[k]);
  }

  lemma RefundsOnlyGrow(s: Db, t: Db, i: nat)
    requires MoneyOk(AccountsOf(t)) && s.bank.ledger <= t.bank.ledger && i < |s.orders| && i < |t.orders|
    requires t.orders[i].user == s.orders[i].user
    ensures RefundedSoFar(s, i) <= RefundedSoFar(t, i)
  {
    hide MoneyOk;
    var rest := t.bank.ledger[|s.bank.ledger|..];
    assert t.bank.ledger == s.bank.ledger + rest;
    SumConcat(s.bank.ledger, rest, RefundEntry(i, s.orders[i].user));
    forall k | 0 <= k < |rest| ensures RefundEntry(i, s.orders[i].user)(rest[k]) >= 0 {
      CreditsArePositive(AccountsOf(t), |s.bank.ledger| + k, i, s.orders[i].user);
    }
    hide RefundEntry;
    SumNonNegative(rest, RefundEntry(i, s.orders[i].user));
  }

  /**
   * Whatever happened before and whatever follows: once the provider closed a captured order as
   * canceled or failed, or it was cancelled while processing or in progress, the ledger credits
   * for it are exactly its charge, for ever.
   */
  lemma ClosedOrdersAreRepaid(coupons: map<Code, Coupon>, before: seq<Event>, e: Event, after: seq<Event>, i: nat)
    requires ClosesAtWork(Run(EmptyDb(coupons), before), e, i)
    ensures var t := Run(EmptyDb(coupons), before + [e] + after);
            i < |t.orders| && RefundedSoFar(t, i) == t.orders[i].charge
              == Run(EmptyDb(coupons), before).orders[i].charge
  {
    hide MoneyOk, OrdersOk, CommissionsOk, Step, ClosesAtWork, EmptyDb, RefundedSoFar;
    var s := Run(EmptyDb(coupons), before);
    var closed := Run(EmptyDb(coupons), before + [e]);
    var t := Run(EmptyDb(coupons), before + [e] + after);
    assert (before + [e])[..|before|] == before;
    EmptyCommissions(coupons);
    RunKeepsCommissions(EmptyDb(coupons), before + [e]);
    RunConcat(EmptyDb(coupons), before + [e], after);
    ReachedMoney(coupons, before);
    ReachedMoney(coupons, before + [e] + after);
    ClosingRow(s, e, i);
    LedgerAndAttributionOnlyGrow(closed, after);
    ClosedOrdersStayClosed(closed, after, i);
    hide Run;
    RefundsOnlyGrow(closed, t, i);
    RefundsAreCapped(t, i);
  }

  lemma RefundsAreCapped(s: Db, i: nat)
    requires MoneyOk(AccountsOf(s)) && i < |s.orders|
    ensures RefundedSoFar(s, i) <= s.orders[i].charge
  {
    hide MoneyOk;
    BooksAt(AccountsOf(s), i);
  }

  /** The one exception: cancelling a synced-back pending order credits nothing, whatever was owed. */
  lemma PendingCancelCreditsNothing(s: Db, i: nat, actor: UserId, staff: bool, confirmed: bool)
    requires MoneyOk(AccountsOf(s)) && CancelsSyncedPending(s, i, actor, staff, confirmed)
    ensures CancelOrder(s, i, actor, staff, confirmed).Success?
    ensures var t := CancelOrder(s, i, actor, staff, confirmed).value;
            && i < |t.orders| && t.orders[i].status == Canceled
            && RefundedSoFar(t, i) == RefundedSoFar(s, i)
  {
    hide MoneyOk, CancelOrder, OrderStep;
    PendingCancelReleases(s, i, actor, staff, confirmed);
    var a' := AfterPendingCancel(s, i);
    SumAppend(s.bank.ledger, a'.bank.ledger[|s.bank.ledger|], RefundEntry(i, s.orders[i].user));
    assert AccountsOf(CancelOrder(s, i, actor, staff, confirmed).value).bank == a'.bank;
    assert AccountsOf(CancelOrder(s, i, actor, staff, confirmed).value).orders == a'.orders;
  }

  // ---------------------------------------------------------------- closing reports

  /**
   * A provider report that closes an open captured order returns the whole charge if and only if
   * it says canceled or failed, or nothing was owed any more. A report of refunded credits nothing.
   */
  lemma ClosingReportRefundsIff(s: Db, i: nat, report: PanelReport)
    requires MoneyOk(AccountsOf(s)) && i < |s.orders| && HasProvider(s.orders[i]) && !Terminal(s.orders[i].status)
    requires report.Report? && report.status in {Canceled, Failed, Refunded}
    ensures SyncOrder(s, i, report).Success? && i < |SyncOrder(s, i, report).value.orders|
    ensures var after := SyncOrder(s, i, report).value;
            && (RefundedSoFar(after, i) == s.orders[i].charge
                <==> report.status != Refunded || RefundedSoFar(s, i) == s.orders[i].charge)
            && (report.status == Refunded ==> after.bank == s.bank && after.orders[i].status == Refunded)
  {
    hide MoneyOk, Keeps;
    BooksAt(AccountsOf(s), i);
    SyncKeeps(s, i, report);
    KeepsMoney(AccountsOf(s), AccountsOf(SyncOrder(s, i, report).value));
    if report.status == Refunded {
      RefundedReport(s, i, report);
      hide SyncOrder;
    } else {
      var moved := SetOrder(s, i, Move(Observe(s.orders[i], report.startCount, report.remains), report.status));
      assert SyncOrder(s, i, report) == RefundIfNeeded(moved, i, TagOf(report.status));
      hide SyncOrder;
      NoClosingRecord(AccountsOf(s), i, report.status);
      ClosedRow(moved, i, report.status);
      hide RefundIfNeeded;
      BooksAt(AccountsOf(SyncOrder(s, i, report).value), i);
    }
  }

  lemma RefundedReport(s: Db, i: nat, report: PanelReport)
    requires i < |s.orders| && HasProvider(s.orders[i]) && !Terminal(s.orders[i].status)
    requires report.Report? && report.status == Refunded
    ensures SyncOrder(s, i, report)
            == Success(SetOrder(s, i, Move(Observe(s.orders[i], report.startCount, report.remains), Refunded)))
  {
  }

  /** Closing a captured order credits what is owed, or finds that nothing is. */
  lemma ClosedRow(s: Db, i: nat, to: Status)
    requires i < |s.orders| && s.orders[i].status == to && to in {Canceled, Failed} && IsCaptured(s.orders[i])
    requires s.orders[i].user in s.bank.users && s.orders[i].charge > 0 && RefundKey(i, TagOf(to)) !in s.records
    requires RefundIfNeeded(s, i, TagOf(to)).Success?
    ensures var after := RefundIfNeeded(s, i, TagOf(to)).value;
            && |after.orders| == |s.orders|
            && after.orders[i].charge == s.orders[i].charge && after.orders[i].user == s.orders[i].user
            && (ClosedAfterCapture(after.orders[i]) || (after == s && RefundedSoFar(s, i) >= s.orders[i].charge))
  {
  }

  // ---------------------------------------------------------------- partial delivery

  /** The undelivered share of a charge, exactly. */
  function UndeliveredShare(o: Order, remains: int): real
    requires remains > 0 && o.quantity > 0
  {
    if remains >= o.quantity then o.charge as real else o.charge as real * (remains as real / o.quantity as real)
  }

  lemma {:induction false} ShareIsNearest(o: Order, remains: int)
    requires remains > 0 && o.quantity > 0 && o.charge > 0
    ensures UndeliveredShare(o, remains) - 0.5 <= PartialShare(o, remains) as real <= UndeliveredShare(o, remains) + 0.5
    ensures PartialShare(o, remains) >= 0
  {
    if remains < o.quantity {
      var share := o.charge as real * (remains as real / o.quantity as real);
      RoundsToNearest(share);
      assert share >= 0.0;
    }
  }
}
