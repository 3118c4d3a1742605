/** Coupon accounting over every run: counters, redemption rows and limits stay in agreement. */
module Coupons {
  import opened Results
  import opened Rounding
  import opened Keys
  import opened Pricing
  import opened Tables
  import opened Referrals
  import opened Orders
  import opened Payments
  import opened Engine
  import opened Lifecycle

  function RedeemedWith(redemptions: set<Redemption>, code: Code): set<Redemption> {
    set r | r in redemptions && r.code == code
  }

  /** The order failed before the provider had it: its coupon use was given back. */
  predicate NotAccepted(o: Order) {
    o.status == Failed && o.provider.None?
  }

  /** A redemption row belongs to a stored order that used this coupon and was not rejected. */
  predicate RedemptionOk(s: Db, r: Redemption) {
    && r.code in s.coupons
    && r.order < |s.orders|
    && s.orders[r.order].coupon == Some(r.code) && s.orders[r.order].user == r.user
    && !NotAccepted(s.orders[r.order])
  }

  ghost predicate CouponOk(coupons: map<Code, Coupon>, redemptions: set<Redemption>, code: Code)
    requires code in coupons
  {
    var c := coupons[code];
    && c.usedCount == |RedeemedWith(redemptions, code)|
    && (c.maxUses.Some? ==> c.usedCount <= Max(0, c.maxUses.value))
    && (c.perUserLimit != 0 ==> forall u :: |RedeemedBy(redemptions, code, u)| <= Max(0, c.perUserLimit))
  }

  ghost predicate CouponsOk(s: Db) {
    && (forall r | r in s.redemptions :: RedemptionOk(s, r))
    && (forall code | code in s.coupons :: CouponOk(s.coupons, s.redemptions, code))
  }

  /** A call that touches no coupon, and rejects no order. */
  ghost predicate LeavesCoupons(s: Db, after: Db) {
    && after.coupons == s.coupons && after.redemptions == s.redemptions
    && |after.orders| >= |s.orders|
    && forall i | 0 <= i < |s.orders| ::
         && after.orders[i].coupon == s.orders[i].coupon && after.orders[i].user == s.orders[i].user
         && (NotAccepted(after.orders[i]) ==> NotAccepted(s.orders[i]))
  }

  lemma LeavingKeepsCoupons(s: Db, after: Db)
    requires CouponsOk(s) && LeavesCoupons(s, after)
    ensures CouponsOk(after)
  {
    forall r | r in after.redemptions ensures RedemptionOk(after, r) { assert RedemptionOk(s, r); }
  }

  // ---------------------------------------------------------------- using and giving back

  lemma AddedRow(redemptions: set<Redemption>, r: Redemption)
    requires r !in redemptions
    ensures |RedeemedWith(redemptions + {r}, r.code)| == |RedeemedWith(redemptions, r.code)| + 1
    ensures forall code | code != r.code :: RedeemedWith(redemptions + {r}, code) == RedeemedWith(redemptions, code)
    ensures |RedeemedBy(redemptions + {r}, r.code, r.user)| == |RedeemedBy(redemptions, r.code, r.user)| + 1
    ensures forall code, u | code != r.code || u != r.user ::
            RedeemedBy(redemptions + {r}, code, u) == RedeemedBy(redemptions, code, u)
  {
    assert RedeemedWith(redemptions + {r}, r.code) == RedeemedWith(redemptions, r.code) + {r};
    assert RedeemedBy(redemptions + {r}, r.code, r.user) == RedeemedBy(redemptions, r.code, r.user) + {r};
  }

  lemma RemovedRow(redemptions: set<Redemption>, r: Redemption)
    requires r in redemptions
    ensures |RedeemedWith(redemptions - {r}, r.code)| == |RedeemedWith(redemptions, r.code)| - 1
    ensures forall code | code != r.code :: RedeemedWith(redemptions - {r}, code) == RedeemedWith(redemptions, code)
    ensures forall code, u :: |RedeemedBy(redemptions - {r}, code, u)| <= |RedeemedBy(redemptions, code, u)|
  {
    assert RedeemedWith(redemptions - {r}, r.code) == RedeemedWith(redemptions, r.code) - {r};
    forall code, u ensures |RedeemedBy(redemptions - {r}, code, u)| <= |RedeemedBy(redemptions, code, u)| {
      assert RedeemedBy(redemptions - {r}, code, u) == RedeemedBy(redemptions, code, u) - {r};
    }
  }

  /** An accepted coupon leaves room for the use it is about to count. */
  lemma UseKeepsCoupon(coupons: map<Code, Coupon>, redemptions: set<Redemption>, r: Redemption, subtotal: int, now: int)
    requires r !in redemptions && forall code | code in coupons :: CouponOk(coupons, redemptions, code)
    requires ApplyCoupon(coupons, redemptions, r.code, r.user, subtotal, now).Success?
    ensures var counted := coupons[r.code := coupons[r.code].(usedCount := coupons[r.code].usedCount + 1)];
            forall code | code in counted :: CouponOk(counted, redemptions + {r}, code)
  {
    AddedRow(redemptions, r);
    var counted := coupons[r.code := coupons[r.code].(usedCount := coupons[r.code].usedCount + 1)];
    forall code | code in counted ensures CouponOk(counted, redemptions + {r}, code) {
      assert CouponOk(coupons, redemptions, code);
      var c := counted[code];
      if c.perUserLimit != 0 {
        forall u ensures |RedeemedBy(redemptions + {r}, code, u)| <= Max(0, c.perUserLimit) {
          if code != r.code || u != r.user {
            assert RedeemedBy(redemptions + {r}, code, u) == RedeemedBy(redemptions, code, u);
          }
        }
      }
    }
  }

  /** The coupon of a quote was accepted in the state the quote was made in. */
  lemma QuotedCouponWasAccepted(s: Db, r: OrderRequest)
    requires CheckRequest(s, r).Success? && CheckRequest(s, r).value.coupon.Some?
    ensures r.code.Some? && CheckRequest(s, r).value.coupon == r.code
    ensures ApplyCoupon(s.coupons, s.redemptions, r.code.value, r.user, CheckRequest(s, r).value.subtotal,
            r.now).Success?
  {
  }

  /** The coupon tables after the use of a quoted coupon is counted for a new order. */
  lemma UsedCoupons(s: Db, r: OrderRequest)
    requires CouponsOk(s) && CheckRequest(s, r).Success?
    ensures var code := CheckRequest(s, r).value.coupon;
            var used := UseCoupon(s, code, r.user, |s.orders|);
            && (forall c | c in used.coupons :: CouponOk(used.coupons, used.redemptions, c))
            && used.coupons.Keys == s.coupons.Keys
            && (code.Some? ==> code.value in s.coupons)
            && (forall x | x in used.redemptions ::
                 x in s.redemptions || (code.Some? && x == Redemption(code.value, r.user, |s.orders|)))
  {
    hide CheckRequest, ApplyCoupon, CouponOk;
    var q := CheckRequest(s, r).value;
    if q.coupon.Some? {
      QuotedCouponWasAccepted(s, r);
      AcceptedCouponExists(s, q.coupon.value, r.user, q.subtotal, r.now);
      var row := Redemption(q.coupon.value, r.user, |s.orders|);
      assert row in s.redemptions ==> RedemptionOk(s, row);
      UseKeepsCoupon(s.coupons, s.redemptions, row, q.subtotal, r.now);
    }
  }

  lemma StoreKeepsCoupons(s: Db, r: OrderRequest, key: OrderKey)
    requires CouponsOk(s) && CheckRequest(s, r).Success?
    requires r.user in s.bank.users && OpenOrder(s, r, CheckRequest(s, r).value, key).Success?
    ensures CouponsOk(OpenOrder(s, r, CheckRequest(s, r).value, key).value)
  {
    hide CheckRequest, OpenOrder, CouponOk, UseCoupon;
    var q := CheckRequest(s, r).value;
    StoredRow(s, r, q, key);
    StoredCoupons(s, r, q, key);
    UsedCoupons(s, r);
    var after := OpenOrder(s, r, q, key).value;
    forall x | x in after.redemptions ensures RedemptionOk(after, x) {
      assert x in s.redemptions ==> RedemptionOk(s, x);
    }
  }

  lemma AcceptedCouponExists(s: Db, code: Code, user: UserId, subtotal: int, now: int)
    requires ApplyCoupon(s.coupons, s.redemptions, code, user, subtotal, now).Success?
    ensures code in s.coupons
  {
  }

  lemma StoredCoupons(s: Db, r: OrderRequest, q: Quote, key: OrderKey)
    requires r.user in s.bank.users && OpenOrder(s, r, q, key).Success?
    ensures var after := OpenOrder(s, r, q, key).value;
            var used := UseCoupon(s, q.coupon, r.user, |s.orders|);
            after.coupons == used.coupons && after.redemptions == used.redemptions
  {
  }

  /** An order has at most one redemption row, and only for its own coupon. */
  lemma OneRedemption(s: Db, i: nat)
    requires CouponsOk(s) && i < |s.orders|
    ensures forall r | r in s.redemptions && r.order == i ::
            s.orders[i].coupon == Some(r.code) && r.user == s.orders[i].user
    ensures s.orders[i].coupon.Some? ==>
              var row := Redemption(s.orders[i].coupon.value, s.orders[i].user, i);
              var mine := RedemptionsOf(s.redemptions, row.code, i);
              mine == if row in s.redemptions then {row} else {}
    ensures forall r | r in s.redemptions :: r.code in s.coupons
  {
    forall r | r in s.redemptions ensures RedemptionOk(s, r) {}
  }

  /** The coupon tables after giving the use of an order back. */
  lemma FreedCoupons(s: Db, i: nat)
    requires CouponsOk(s) && i < |s.orders|
    ensures var freed := ReleaseCouponUse(s, i);
            && (forall code | code in freed.coupons :: CouponOk(freed.coupons, freed.redemptions, code))
            && (forall r | r in freed.redemptions :: r in s.redemptions && r.order != i)
            && freed.coupons.Keys == s.coupons.Keys
  {
    OneRedemption(s, i);
    hide CouponOk;
    var o := s.orders[i];
    if o.coupon.Some? {
      var row := Redemption(o.coupon.value, o.user, i);
      if row in s.redemptions { GiveBackKeepsCoupon(s.coupons, s.redemptions, row); }
    }
  }

  /** A rejected order gives its one coupon use back. */
  lemma FailKeepsCoupons(s: Db, i: nat, tag: ReleaseTag)
    requires CouponsOk(s) && i < |s.orders| && s.orders[i].provider.None? && FailAndRelease(s, i, tag).Success?
    ensures CouponsOk(FailAndRelease(s, i, tag).value)
  {
    hide FailAndRelease, CouponOk, ReleaseCouponUse;
    FailedCoupons(s, i, tag);
    FreedCoupons(s, i);
    var after := FailAndRelease(s, i, tag).value;
    forall r | r in after.redemptions ensures RedemptionOk(after, r) { assert RedemptionOk(s, r); }
  }

  lemma FailedCoupons(s: Db, i: nat, tag: ReleaseTag)
    requires i < |s.orders| && FailAndRelease(s, i, tag).Success?
    ensures var after := FailAndRelease(s, i, tag).value;
            var freed := ReleaseCouponUse(s, i);
            && after.coupons == freed.coupons && after.redemptions == freed.redemptions
            && after.orders == s.orders[i := Move(s.orders[i], Failed)]
  {
  }

  lemma GiveBackKeepsCoupon(coupons: map<Code, Coupon>, redemptions: set<Redemption>, r: Redemption)
    requires r in redemptions && r.code in coupons && forall code | code in coupons ::
             CouponOk(coupons, redemptions, code)
    ensures coupons[r.code].usedCount > 0
    ensures var counted := coupons[r.code := coupons[r.code].(usedCount := coupons[r.code].usedCount - 1)];
            forall code | code in counted :: CouponOk(counted, redemptions - {r}, code)
  {
    RemovedRow(redemptions, r);
    assert r in RedeemedWith(redemptions, r.code);
    assert CouponOk(coupons, redemptions, r.code);
    var counted := coupons[r.code := coupons[r.code].(usedCount := coupons[r.code].usedCount - 1)];
    forall code | code in counted ensures CouponOk(counted, redemptions - {r}, code) {
      assert CouponOk(coupons, redemptions, code);
    }
  }

  // ---------------------------------------------------------------- every call

  lemma SubmitKeepsCoupons(s: Db, i: nat, answer: Answer)
    requires CouponsOk(s) && i < |s.orders| && s.orders[i].provider.None? && s.orders[i].status != Failed
             && Submit(s, i, answer).Success?
    ensures CouponsOk(Submit(s, i, answer).value)
  {
    if answer.Rejected? || answer.Broken? {
      FailKeepsCoupons(s, i, if answer.Rejected? then ProviderTag else InternalTag);
    } else {
      LeavingKeepsCoupons(s, Submit(s, i, answer).value);
    }
  }

  lemma PlaceKeepsCoupons(s: Db, r: OrderRequest, answer: Answer)
    requires CouponsOk(s) && PlaceOrder(s, r, answer).Success?
    ensures CouponsOk(PlaceOrder(s, r, answer).value)
  {
    if !ReplaysOrder(s, r.key) {
      var key := KeyToStore(s, r);
      var stored := OpenOrder(s, r, CheckRequest(s, r).value, key).value;
      StoreKeepsCoupons(s, r, key);
      StoredRow(s, r, CheckRequest(s, r).value, key);
      hide OpenOrder, CheckRequest, CouponsOk;
      SubmitKeepsCoupons(stored, |s.orders|, answer);
    }
  }

  /** Coupons, redemptions and remembered request keys are as before. */
  predicate SameRequestTables(s: Db, after: Db) {
    after.coupons == s.coupons && after.redemptions == s.redemptions && after.placed == s.placed
  }

  lemma MoneyCallsLeaveCoupons(s: Db, e: Event)
    requires !e.Place? && !(e.Resolve? && e.release) && Handle(s, e).Success?
    ensures SameRequestTables(s, Handle(s, e).value)
  {
    hide SyncOrder, CancelOrder, ResolveReview, HandleWebhook, CheckPayment, ManualConfirm, ReconcileAll, Settle;
    match e
    case Sync(i, report) => SyncLeavesCoupons(s, i, report);
    case Cancel(i, actor, staff, confirmed) => CancelLeavesCoupons(s, i, actor, staff, confirmed);
    case Resolve(i, release, attach) => AttachLeavesCoupons(s, i, attach);
    case Webhook(gateway, notice) => WebhookLeavesCoupons(s, gateway, notice);
    case Check(p, user, said) => if p < |s.payments| { CheckLeavesCoupons(s, p, user, said); }
    case Confirm(p) => if p < |s.payments| { ConfirmLeavesCoupons(s, p); }
    case ReconcilePending(gateway, aged, limit, answers) =>
      ReconcileLeavesCoupons(s, ToReconcile(s.payments, gateway, aged, limit), gateway, answers);
    case _ =>
  }

  lemma SyncLeavesCoupons(s: Db, i: nat, report: PanelReport)
    requires i < |s.orders| && SyncOrder(s, i, report).Success?
    ensures SameRequestTables(s, SyncOrder(s, i, report).value)
  {
    hide PartialShare, OrderCommissionDue, Owed, RefundedSoFar, Observe;
  }

  lemma CancelLeavesCoupons(s: Db, i: nat, actor: UserId, staff: bool, confirmed: bool)
    requires i < |s.orders| && CancelOrder(s, i, actor, staff, confirmed).Success?
    ensures SameRequestTables(s, CancelOrder(s, i, actor, staff, confirmed).value)
  {
  }

  lemma AttachLeavesCoupons(s: Db, i: nat, attach: Option<string>)
    requires i < |s.orders| && ResolveReview(s, i, false, attach).Success?
    ensures SameRequestTables(s, ResolveReview(s, i, false, attach).value)
  {
  }

  lemma SettleLeavesCoupons(s: Db, p: nat, r: Receipt)
    requires p < |s.payments| && Settle(s, p, r).Success?
    ensures SameRequestTables(s, Settle(s, p, r).value)
  {
  }

  lemma AnswerLeavesCoupons(s: Db, p: nat, gateway: string, answer: GatewayAnswer)
    requires p < |s.payments| && ApplyAnswer(s, p, gateway, answer).Success?
    ensures SameRequestTables(s, ApplyAnswer(s, p, gateway, answer).value)
  {
    hide Settle;
    if answer.SaysPaid? {
      SettleLeavesCoupons(s, p, Receipt(gateway, s.payments[p].ref, answer.amount, answer.currency, false));
    }
  }

  lemma WebhookLeavesCoupons(s: Db, gateway: string, n: Notice)
    requires HandleWebhook(s, gateway, n).Success?
    ensures SameRequestTables(s, HandleWebhook(s, gateway, n).value)
  {
    hide Settle;
    var known := s.(seen := s.seen + {(gateway, n.id)});
    if (gateway, n.id) !in s.seen && n.kind == PaidNotice && n.payment.Some? && n.payment.value < |s.payments| {
      SettleLeavesCoupons(known, n.payment.value, Receipt(gateway, n.ref, n.amount, n.currency, false));
    }
  }

  lemma CheckLeavesCoupons(s: Db, p: nat, user: UserId, answer: GatewayAnswer)
    requires p < |s.payments| && CheckPayment(s, p, user, answer).Success?
    ensures SameRequestTables(s, CheckPayment(s, p, user, answer).value)
  {
    hide ApplyAnswer;
    if CheckPayment(s, p, user, answer) == ApplyAnswer(s, p, RAZORPAY, answer) {
      AnswerLeavesCoupons(s, p, RAZORPAY, answer);
    }
  }

  lemma ConfirmLeavesCoupons(s: Db, p: nat)
    requires p < |s.payments| && ManualConfirm(s, p).Success?
    ensures SameRequestTables(s, ManualConfirm(s, p).value)
  {
    hide Settle;
    var row := s.payments[p];
    SettleLeavesCoupons(s, p, Receipt(row.gateway, row.ref, Some(row.amount), Some(row.currency), true));
  }

  lemma {:induction false} ReconcileLeavesCoupons(s: Db, rows: seq<nat>, gateway: string,
      answers: map<nat, GatewayAnswer>)
    requires ReconcileAll(s, rows, gateway, answers).Success?
    ensures SameRequestTables(s, ReconcileAll(s, rows, gateway, answers).value)
  {
    hide ApplyAnswer;
    if rows != [] {
      var q := rows[|rows| - 1];
      ReconcileLeavesCoupons(s, rows[..|rows| - 1], gateway, answers);
      var before := ReconcileAll(s, rows[..|rows| - 1], gateway, answers).value;
      if q in answers && q < |before.payments| { AnswerLeavesCoupons(before, q, gateway, answers[q]); }
    }
  }

  lemma StepLeavesCoupons(s: Db, e: Event)
    requires !e.Place? && !(e.Resolve? && e.release) && OrdersOk(s) && Handle(s, e).Success?
    ensures LeavesCoupons(s, Handle(s, e).value)
  {
    MoneyCallsLeaveCoupons(s, e);
    var after := Handle(s, e).value;
    forall i | 0 <= i < |s.orders|
      ensures |after.orders| >= |s.orders|
      ensures after.orders[i].coupon == s.orders[i].coupon && after.orders[i].user == s.orders[i].user
      ensures NotAccepted(after.orders[i]) ==> NotAccepted(s.orders[i])
    {
      OrderEvolves(s, e, i);
      NewlyFailedHasProvider(s, e, i);
    }
    hide Handle;
    assert |after.orders| >= |s.orders| by { if |s.orders| > 0 { assert s.orders[0].user == s.orders[0].user; } }
  }

  /** Outside placing and releasing a review, only a provider report can fail an order. */
  lemma NewlyFailedHasProvider(s: Db, e: Event, i: nat)
    requires !e.Place? && !(e.Resolve? && e.release) && OrdersOk(s) && i < |s.orders| && Handle(s, e).Success?
    requires i < |Handle(s, e).value.orders|
    ensures NotAccepted(Handle(s, e).value.orders[i]) ==> NotAccepted(s.orders[i])
  {
    if e.Place? || e.Sync? || e.Refill? || e.Cancel? || e.Resolve? || e.FlagStuckOrders? {
      hide HandleWebhook, CheckPayment, ManualConfirm, Reconcile, CreateDeposit, RequestPayout, AdjustBy, WelcomeBonus,
        SetProfile, RecordStart, JoinUser, OrderOk;
      hide SyncOrder, RefillOrder, CancelOrder, ResolveReview, FlagStuck, OrdersOk;
      match e
      case Sync(j, report) => SyncRow(s, j, report);
      case Refill(j, actor, staff, open, accepted) => RefillRow(s, j, actor, staff, open, accepted);
      case Cancel(j, actor, staff, confirmed) => CancelRow(s, j, actor, staff, confirmed);
      case Resolve(j, release, attach) => ResolveRow(s, j, release, attach);
      case FlagStuckOrders(stale, limit) => FlaggedRow(s.orders, stale, limit, i);
    } else {
      hide Handle, OrdersOk, OrderOk;
      OtherCallsLeaveOrders(s, e);
    }
  }

  lemma StepKeepsCoupons(s: Db, e: Event)
    requires CouponsOk(s) && OrdersOk(s)
    ensures CouponsOk(Step(s, e))
  {
    if Handle(s, e).Success? {
      if e.Place? {
        PlaceKeepsCoupons(s, e.request, e.answer);
      } else if e.Resolve? && e.release {
        assert OrderOk(s.orders[e.order]);
        FailKeepsCoupons(s, e.order, ReviewTag);
      } else {
        StepLeavesCoupons(s, e);
        hide Handle, CouponsOk;
        LeavingKeepsCoupons(s, Handle(s, e).value);
      }
    }
  }

  /**
   * Coupon accounting over every run from agreement: each counter equals its live redemption
   * rows, stays within the coupon's limits, and no redemption belongs to an order the provider
   * never accepted.
   */
  lemma {:induction false} RunsKeepCoupons(s: Db, events: seq<Event>)
    requires CouponsOk(s) && OrdersOk(s)
    ensures CouponsOk(Run(s, events)) && OrdersOk(Run(s, events))
  {
    hide CouponsOk, OrdersOk, Step;
    if events != [] {
      var before := events[..|events| - 1];
      RunsKeepCoupons(s, before);
      StepKeepsCoupons(Run(s, before), events[|events| - 1]);
      StepKeepsOrders(Run(s, before), events[|events| - 1]);
    }
  }

  /** The empty database with unused coupons is in agreement. */
  lemma UnusedCoupons(coupons: map<Code, Coupon>)
    requires forall code | code in coupons :: coupons[code].usedCount == 0
    ensures CouponsOk(EmptyDb(coupons)) && OrdersOk(EmptyDb(coupons))
  {
    forall code | code in coupons ensures CouponOk(coupons, {}, code) {
      assert RedeemedWith({}, code) == {};
      assert forall u :: RedeemedBy({}, code, u) == {};
    }
  }
}
