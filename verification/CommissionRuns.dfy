/**
 * Commissions over whole runs: every entry is earned once, and goes to the buyer's referrer for
 * exactly its percentage.
 */
module CommissionRuns {
  import opened Keys
  import opened Wallet
  import opened Pricing
  import opened Tables
  import opened Referrals
  import opened Orders
  import opened Engine
  import opened Lifecycle
  import opened Deposits
  import opened Commissions

  // ---------------------------------------------------------------- one call

  /** What a call adds to the ledger under commission keys. */
  ghost predicate CallEffect(s: Db, e: Event, after: Db) {
    && Extends(s.bank, after.bank) && RowsStay(s, after)
    && forall k | |s.bank.ledger| <= k < |after.bank.ledger| && IsCommission(after.bank.ledger[k]) ::
         || DepositRewardOk(after, after.bank.ledger[k])
         || (OrderRewardOk(after, after.bank.ledger[k]) && Completes(s, e) && after.bank.ledger[k].ref.order == e.order
             && OrderCommissionDue(CompletedState(s, e), e.order) > 0)
  }

  lemma StepEffect(s: Db, e: Event)
    requires OrdersOk(s) && LedgerOk(s.bank)
    ensures CallEffect(s, e, Step(s, e))
  {
    hide LedgerOk, OrdersOk, Handle, OrderRewardOk, DepositRewardOk, OrderCommissionDue, CreditOrderCommission;
    if Handle(s, e).Success? {
      if e.Webhook? || e.Check? || e.Confirm? || e.ReconcilePending? {
        DepositCallRewards(s, e);
      } else {
        OrdersStay(s, e);
        OtherCallsLeavePayments(s, e);
        if Completes(s, e) {
          CompletingSync(s, e);
          CompletionRewards(CompletedState(s, e), e.order);
        } else {
          OtherCallIsOrdinary(s, e);
        }
      }
    }
  }

  lemma OrdersStay(s: Db, e: Event)
    requires OrdersOk(s)
    ensures var after := Step(s, e);
            && |s.orders| <= |after.orders|
            && forall i | 0 <= i < |s.orders| ::
                 after.orders[i].user == s.orders[i].user && after.orders[i].charge == s.orders[i].charge
  {
    hide Step, OrdersOk, OrderOk;
    forall i | 0 <= i < |s.orders|
      ensures |s.orders| <= |Step(s, e).orders|
      ensures Step(s, e).orders[i].user == s.orders[i].user && Step(s, e).orders[i].charge == s.orders[i].charge
    {
      OrderEvolves(s, e, i);
    }
    if |s.orders| > 0 { OrderEvolves(s, e, 0); }
  }

  lemma StepKeepsCommissions(s: Db, e: Event)
    requires OrdersOk(s) && CommissionsOk(s)
    ensures CommissionsOk(Step(s, e))
  {
    hide LedgerOk, OrdersOk, Step, OrderCommissionDue;
    StepEffect(s, e);
    var after := Step(s, e);
    forall k | 0 <= k < |after.bank.ledger| ensures CommissionOk(after, after.bank.ledger[k]) {
      if k < |s.bank.ledger| {
        assert after.bank.ledger[k] == s.bank.ledger[k];
        CommissionStays(s, after, s.bank.ledger[k]);
      }
    }
  }

  // ---------------------------------------------------------------- every run

  lemma {:induction false} RunKeepsCommissions(s: Db, events: seq<Event>)
    requires OrdersOk(s) && CommissionsOk(s)
    ensures OrdersOk(Run(s, events)) && CommissionsOk(Run(s, events))
  {
    hide OrdersOk, CommissionsOk, Step;
    if events != [] {
      RunKeepsCommissions(s, events[..|events| - 1]);
      StepKeepsOrders(Run(s, events[..|events| - 1]), events[|events| - 1]);
      StepKeepsCommissions(Run(s, events[..|events| - 1]), events[|events| - 1]);
    }
  }

  /**
   * In every run from the empty database, the ledger replays; every commission entry goes to the
   * account that referred the buyer, for exactly 8% of an order or 5% of a deposit; no order has
   * two commission entries, and no buyer has two deposit commissions.
   */
  lemma CommissionsAreEarnedOnce(coupons: map<Code, Coupon>, events: seq<Event>)
    ensures var s := Run(EmptyDb(coupons), events);
            && CommissionsOk(s)
            && (forall j, k | 0 <= j < k < |s.bank.ledger| && s.bank.ledger[j].ref.ForReferredOrder? ::
                 s.bank.ledger[j].ref != s.bank.ledger[k].ref)
            && (forall j, k | 0 <= j < k < |s.bank.ledger| && s.bank.ledger[j].ref.ForReferredDeposit?
                 && s.bank.ledger[k].ref.ForReferredDeposit? ::
                  && s.bank.ledger[j].ref.payment < |s.payments| && s.bank.ledger[k].ref.payment < |s.payments|
                  && s.payments[s.bank.ledger[j].ref.payment].user != s.payments[s.bank.ledger[k].ref.payment].user)
  {
    EmptyCommissions(coupons);
    hide Run, EmptyDb, CommissionsOk, OrdersOk;
    RunKeepsCommissions(EmptyDb(coupons), events);
    EarnedOnce(Run(EmptyDb(coupons), events));
  }

  lemma EmptyCommissions(coupons: map<Code, Coupon>)
    ensures CommissionsOk(EmptyDb(coupons)) && OrdersOk(EmptyDb(coupons))
  {
  }

  lemma EarnedOnce(s: Db)
    requires CommissionsOk(s)
    ensures forall j, k | 0 <= j < k < |s.bank.ledger| && s.bank.ledger[j].ref.ForReferredOrder? ::
            s.bank.ledger[j].ref != s.bank.ledger[k].ref
    ensures forall j, k | 0 <= j < k < |s.bank.ledger| && s.bank.ledger[j].ref.ForReferredDeposit?
            && s.bank.ledger[k].ref.ForReferredDeposit? ::
              && s.bank.ledger[j].ref.payment < |s.payments| && s.bank.ledger[k].ref.payment < |s.payments|
              && s.payments[s.bank.ledger[j].ref.payment].user != s.payments[s.bank.ledger[k].ref.payment].user
  {
    hide Commission, ReferrerOf;
    forall k | 0 <= k < |s.bank.ledger| ensures CommissionOk(s, s.bank.ledger[k]) {}
    assert UniqueKeys(s.bank.ledger);
  }

  /** The ledger is append-only over every run, and whoever referred a user stays that user's referrer. */
  lemma {:induction false} LedgerAndAttributionOnlyGrow(s: Db, events: seq<Event>)
    requires OrdersOk(s) && CommissionsOk(s)
    ensures s.bank.ledger <= Run(s, events).bank.ledger
    ensures forall u | u in s.bank.users ::
              && u in Run(s, events).bank.users
              && (s.bank.users[u].referredBy.Some? ==>
                   Run(s, events).bank.users[u].referredBy == s.bank.users[u].referredBy)
  {
    hide OrdersOk, LedgerOk, Step;
    if events != [] {
      var before := Run(s, events[..|events| - 1]);
      LedgerAndAttributionOnlyGrow(s, events[..|events| - 1]);
      RunKeepsCommissions(s, events[..|events| - 1]);
      StepEffect(before, events[|events| - 1]);
    }
  }

  // ---------------------------------------------------------------- becoming completed

  predicate CompletesFor(s: Db, e: Event, buyer: UserId) {
    Completes(s, e) && s.orders[e.order].user == buyer
  }

  /** A completed order of the buyer is sent back for a refill. */
  predicate Reopens(s: Db, e: Event, buyer: UserId) {
    && e.Refill? && e.order < |s.orders|
    && s.orders[e.order].user == buyer && s.orders[e.order].status == Completed && Handle(s, e).Success?
  }

  /** An order becomes completed only by a report on it, and stops being so only by a refill. */
  lemma CompletionStep(s: Db, e: Event, i: nat)
    requires OrdersOk(s) && LedgerOk(s.bank) && i < |Step(s, e).orders|
    ensures Step(s, e).orders[i].status == Completed <==>
              || (Completes(s, e) && e.order == i)
              || (i < |s.orders| && s.orders[i].status == Completed && Step(s, e).orders[i] == s.orders[i])
    ensures i < |s.orders| && s.orders[i].status == Completed && Step(s, e).orders[i] != s.orders[i] ==>
            e.Refill? && e.order == i
  {
    hide LedgerOk, SyncOrder, PlaceOrder, RefillOrder, CancelOrder, ResolveReview, FlagStuck, OrdersOk, OrderOk;
    if i < |s.orders| { OrderEvolves(s, e, i); }
    if i >= |s.orders| {
      NewOrdersOnlyFromPlace(s, e);
      NewRowIsOpen(s, e.request, e.answer);
    } else if Completes(s, e) {
      CompletingSync(s, e);
      CompletionRewards(CompletedState(s, e), e.order);
      hide Handle, CreditOrderCommission;
    } else if Handle(s, e).Success? && Handle(s, e).value.orders[i] != s.orders[i] {
      CompletionRow(s, e, i);
    }
  }

  lemma NewRowIsOpen(s: Db, r: OrderRequest, answer: Answer)
    requires PlaceOrder(s, r, answer).Success? && |PlaceOrder(s, r, answer).value.orders| > |s.orders|
    ensures |PlaceOrder(s, r, answer).value.orders| == |s.orders| + 1
    ensures PlaceOrder(s, r, answer).value.orders[|s.orders|].status != Completed
  {
    hide CheckRequest, OpenOrder, Submit;
    var q := CheckRequest(s, r).value;
    if !ReplaysOrder(s, r.key) {
      CheckedUser(s, r);
      StoredRow(s, r, q, KeyToStore(s, r));
      SubmitRow(OpenOrder(s, r, q, KeyToStore(s, r)).value, |s.orders|, answer);
    }
  }

  lemma CompletionRow(s: Db, e: Event, i: nat)
    requires OrdersOk(s) && i < |s.orders| && Handle(s, e).Success? && !Completes(s, e)
    requires i < |Handle(s, e).value.orders| && Handle(s, e).value.orders[i] != s.orders[i]
    ensures Handle(s, e).value.orders[i].status != Completed
  {
    hide SyncOrder, PlaceOrder, RefillOrder, CancelOrder, ResolveReview, FlagStuck, OrdersOk, OrderOk;
    if e.Sync? {
      ReportRow(s, e.order, e.report, i);
    } else if e.Place? || e.FlagStuckOrders? {
      AddedOrFlaggedRow(s, e, i);
    } else if e.Refill? || e.Cancel? || e.Resolve? {
      ReworkedRow(s, e, i);
    } else {
      hide Handle;
      OtherCallsLeaveOrders(s, e);
    }
  }

  lemma ReportRow(s: Db, j: nat, report: PanelReport, i: nat)
    requires i < |s.orders| && j < |s.orders| && SyncOrder(s, j, report).Success? && !Completes(s, Sync(j, report))
    ensures |SyncOrder(s, j, report).value.orders| == |s.orders|
    ensures SyncOrder(s, j, report).value.orders[i] != s.orders[i] ==>
            SyncOrder(s, j, report).value.orders[i].status != Completed
  {
    SyncRow(s, j, report);
    hide SyncOrder;
  }

  lemma AddedOrFlaggedRow(s: Db, e: Event, i: nat)
    requires (e.Place? || e.FlagStuckOrders?) && i < |s.orders| && Handle(s, e).Success?
    ensures i < |Handle(s, e).value.orders|
    ensures Handle(s, e).value.orders[i] != s.orders[i] ==> Handle(s, e).value.orders[i].status != Completed
  {
    hide PlaceOrder, FlagStuck, OrderOk;
    if e.Place? {
      PlaceRow(s, e.request, e.answer);
    } else {
      FlaggedRow(s.orders, e.stale, e.limit, i);
    }
  }

  lemma ReworkedRow(s: Db, e: Event, i: nat)
    requires (e.Refill? || e.Cancel? || e.Resolve?) && i < |s.orders| && Handle(s, e).Success?
    ensures i < |Handle(s, e).value.orders|
    ensures Handle(s, e).value.orders[i] != s.orders[i] ==> Handle(s, e).value.orders[i].status != Completed
  {
    hide RefillOrder, CancelOrder, ResolveReview;
    match e
    case Refill(j, actor, staff, open, accepted) => RefillRow(s, j, actor, staff, open, accepted);
    case Cancel(j, actor, staff, confirmed) => CancelRow(s, j, actor, staff, confirmed);
    case Resolve(j, release, attach) => ResolveRow(s, j, release, attach);
  }

  // ---------------------------------------------------------------- commission keys

  /** A commission was paid for the order. */
  predicate Commissioned(s: Db, i: nat) {
    HasKey(s.bank.ledger, OrderCommissionKey(i))
  }

  /** A commission key appears only when its order completes and something is due for it. */
  lemma KeyStep(s: Db, e: Event, i: nat)
    requires OrdersOk(s) && CommissionsOk(s)
    ensures Commissioned(Step(s, e), i) <==>
              Commissioned(s, i) || (Completes(s, e) && e.order == i && OrderCommissionDue(CompletedState(s, e), i) > 0)
  {
    hide LedgerOk, OrdersOk, OrderCommissionDue, CreditOrderCommission, Handle;
    StepEffect(s, e);
    if Completes(s, e) {
      CompletingSync(s, e);
      CompletionRewards(CompletedState(s, e), e.order);
    }
    hide Step;
    var before, after := s.bank.ledger, Step(s, e).bank.ledger;
    if HasKey(before, OrderCommissionKey(i)) {
      var k :| 0 <= k < |before| && before[k].key == OrderCommissionKey(i);
      assert after[k].key == OrderCommissionKey(i);
    }
  }

  lemma NoKeyBeyond(s: Db, i: nat)
    requires CommissionsOk(s) && i >= |s.orders|
    ensures !Commissioned(s, i)
  {
    forall k | 0 <= k < |s.bank.ledger| ensures s.bank.ledger[k].key != OrderCommissionKey(i) {
      assert CommissionOk(s, s.bank.ledger[k]);
    }
  }

  lemma StepKeepsRows(s: Db, e: Event)
    requires OrdersOk(s) && LedgerOk(s.bank)
    ensures RowsStay(s, Step(s, e))
  {
    hide Step, LedgerOk, OrdersOk;
    StepEffect(s, e);
  }
}
