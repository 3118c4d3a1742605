/**
 * Which orders keep their coupon use: every stored one that was not rejected. Of the orders no
 * provider ever accepted, exactly the cancelled ones keep it for good.
 */
module CouponUses {
  import opened Keys
  import opened Pricing
  import opened Tables
  import opened Orders
  import opened Engine
  import opened Books
  import opened Lifecycle
  import opened Coupons
  import opened Consequences

  /** The redemption row of an order with a coupon is there. */
  predicate Redeemed(s: Db, i: nat)
    requires i < |s.orders|
  {
    s.orders[i].coupon.Some? && Redemption(s.orders[i].coupon.value, s.orders[i].user, i) in s.redemptions
  }

  predicate UseOk(s: Db, i: nat)
    requires i < |s.orders|
  {
    s.orders[i].coupon.Some? && !NotAccepted(s.orders[i]) ==> Redeemed(s, i)
  }

  ghost predicate UsesOk(s: Db) {
    forall i | 0 <= i < |s.orders| :: UseOk(s, i)
  }

  // ---------------------------------------------------------------- one call

  /** The rejection of an order takes away no other order's row. */
  lemma FailKeepsUses(s: Db, i: nat, tag: ReleaseTag)
    requires UsesOk(s) && i < |s.orders| && s.orders[i].provider.None? && FailAndRelease(s, i, tag).Success?
    ensures UsesOk(FailAndRelease(s, i, tag).value)
  {
    FailedCoupons(s, i, tag);
    hide FailAndRelease;
    var after := FailAndRelease(s, i, tag).value;
    forall j | 0 <= j < |after.orders| ensures UseOk(after, j) { assert UseOk(s, j); }
  }

  lemma SubmitKeepsUses(s: Db, i: nat, answer: Answer)
    requires UsesOk(s) && i < |s.orders| && s.orders[i].provider.None? && s.orders[i].status != Failed
             && Submit(s, i, answer).Success?
    ensures UsesOk(Submit(s, i, answer).value)
  {
    if answer.Rejected? || answer.Broken? {
      FailKeepsUses(s, i, if answer.Rejected? then ProviderTag else InternalTag);
    } else {
      SubmitRow(s, i, answer);
      var after := Submit(s, i, answer).value;
      assert after.redemptions == s.redemptions;
      hide Submit;
      forall j | 0 <= j < |after.orders| ensures UseOk(after, j) { assert UseOk(s, j); }
    }
  }

  lemma StoreKeepsUses(s: Db, r: OrderRequest, q: Quote, key: OrderKey)
    requires UsesOk(s) && r.user in s.bank.users && OpenOrder(s, r, q, key).Success?
    ensures UsesOk(OpenOrder(s, r, q, key).value)
  {
    StoredRow(s, r, q, key);
    StoredCoupons(s, r, q, key);
    hide OpenOrder;
    var after := OpenOrder(s, r, q, key).value;
    forall j | 0 <= j < |after.orders| ensures UseOk(after, j) {
      if j < |s.orders| { assert UseOk(s, j); }
    }
  }

  lemma PlaceKeepsUses(s: Db, r: OrderRequest, answer: Answer)
    requires UsesOk(s) && PlaceOrder(s, r, answer).Success?
    ensures UsesOk(PlaceOrder(s, r, answer).value)
  {
    hide OpenOrder, CheckRequest, Submit, UsesOk;
    if !ReplaysOrder(s, r.key) {
      var q, key := CheckRequest(s, r).value, KeyToStore(s, r);
      CheckedUser(s, r);
      StoredRow(s, r, q, key);
      StoreKeepsUses(s, r, q, key);
      SubmitKeepsUses(OpenOrder(s, r, q, key).value, |s.orders|, answer);
    }
  }

  /** A rejected order is closed for good, so no call makes it owe a row again. */
  lemma RejectedStays(s: Db, e: Event, i: nat)
    requires OrdersOk(s) && i < |s.orders|
    ensures i < |Step(s, e).orders| && (NotAccepted(s.orders[i]) ==> Step(s, e).orders[i] == s.orders[i])
  {
    hide OrdersOk, Step;
    OrderEvolves(s, e, i);
  }

  lemma OtherCallKeepsUses(s: Db, e: Event)
    requires UsesOk(s) && OrdersOk(s) && !e.Place? && !(e.Resolve? && e.release) && Handle(s, e).Success?
    ensures UsesOk(Handle(s, e).value)
  {
    StepLeavesCoupons(s, e);
    var after := Handle(s, e).value;
    assert |after.orders| == |s.orders| by { if |after.orders| > |s.orders| { NewOrdersOnlyFromPlace(s, e); } }
    forall i | 0 <= i < |after.orders| ensures UseOk(after, i) {
      assert UseOk(s, i);
      RejectedStays(s, e, i);
    }
  }

  lemma StepKeepsUses(s: Db, e: Event)
    requires UsesOk(s) && OrdersOk(s)
    ensures UsesOk(Step(s, e))
  {
    hide UsesOk;
    if Handle(s, e).Success? {
      if e.Place? {
        PlaceKeepsUses(s, e.request, e.answer);
      } else if e.Resolve? && e.release {
        assert OrderOk(s.orders[e.order]);
        FailKeepsUses(s, e.order, ReviewTag);
      } else {
        hide OrdersOk, Handle;
        OtherCallKeepsUses(s, e);
      }
    }
  }

  /** Only its own cancel closes an order as cancelled before a provider has it. */
  lemma OnlyCancelCancels(s: Db, e: Event, i: nat)
    requires OrdersOk(s) && i < |s.orders| && s.orders[i].status != Canceled
    ensures i < |Step(s, e).orders|
    ensures Step(s, e).orders[i].status == Canceled && Step(s, e).orders[i].provider.None? ==>
            e.Cancel? && e.order == i
  {
    OrderEvolves(s, e, i);
    hide OrdersOk, OrderOk;
    if Handle(s, e).Success? && Handle(s, e).value.orders[i] != s.orders[i] {
      if e.Sync? || e.Place? || e.FlagStuckOrders? {
        OpenRowNotCanceled(s, e, i);
      } else if e.Refill? || e.Cancel? || e.Resolve? {
        ActedRowNotCanceled(s, e, i);
      } else {
        hide Handle;
        OtherCallsLeaveOrders(s, e);
      }
    }
  }

  lemma OpenRowNotCanceled(s: Db, e: Event, i: nat)
    requires (e.Sync? || e.Place? || e.FlagStuckOrders?) && i < |s.orders| && Handle(s, e).Success?
    requires i < |Handle(s, e).value.orders| && Handle(s, e).value.orders[i] != s.orders[i]
    ensures Handle(s, e).value.orders[i].status == Canceled ==> Handle(s, e).value.orders[i].provider.Some?
  {
    hide SyncOrder, PlaceOrder, FlagStuck, OrderOk;
    match e
    case Sync(j, report) => SyncRow(s, j, report);
    case Place(request, answer) => PlaceRow(s, request, answer);
    case FlagStuckOrders(stale, limit) => FlaggedRow(s.orders, stale, limit, i);
  }

  lemma ActedRowNotCanceled(s: Db, e: Event, i: nat)
    requires (e.Refill? || e.Cancel? || e.Resolve?) && i < |s.orders| && Handle(s, e).Success?
    requires i < |Handle(s, e).value.orders| && Handle(s, e).value.orders[i] != s.orders[i]
    ensures Handle(s, e).value.orders[i].status == Canceled ==> e.Cancel? && e.order == i
  {
    hide RefillOrder, CancelOrder, ResolveReview;
    match e
    case Refill(j, actor, staff, open, accepted) => RefillRow(s, j, actor, staff, open, accepted);
    case Cancel(j, actor, staff, confirmed) => CancelRow(s, j, actor, staff, confirmed);
    case Resolve(j, release, attach) => ResolveRow(s, j, release, attach);
  }

  // ---------------------------------------------------------------- every run

  /** In every run from agreement, an order with a coupon keeps its use if and only if it was not rejected. */
  lemma {:induction false} RunsKeepUses(s: Db, events: seq<Event>)
    requires CouponsOk(s) && UsesOk(s) && OrdersOk(s)
    ensures CouponsOk(Run(s, events)) && UsesOk(Run(s, events)) && OrdersOk(Run(s, events))
    ensures forall i | 0 <= i < |Run(s, events).orders| && Run(s, events).orders[i].coupon.Some? ::
            Redeemed(Run(s, events), i) <==> !NotAccepted(Run(s, events).orders[i])
  {
    hide CouponsOk, UsesOk, OrdersOk, Step;
    RunsKeepCoupons(s, events);
    if events != [] {
      RunsKeepUses(s, events[..|events| - 1]);
      StepKeepsUses(Run(s, events[..|events| - 1]), events[|events| - 1]);
    }
    UseIff(Run(s, events));
  }

  lemma UseIff(s: Db)
    requires CouponsOk(s) && UsesOk(s)
    ensures forall i | 0 <= i < |s.orders| && s.orders[i].coupon.Some? ::
            Redeemed(s, i) <==> !NotAccepted(s.orders[i])
  {
    forall i | 0 <= i < |s.orders| && s.orders[i].coupon.Some?
      ensures Redeemed(s, i) <==> !NotAccepted(s.orders[i])
    {
      assert UseOk(s, i);
      if Redeemed(s, i) { assert RedemptionOk(s, Redemption(s.orders[i].coupon.value, s.orders[i].user, i)); }
    }
  }

  /**
   * A coupon is not only consumed by accepted orders: of the closed orders no provider ever had,
   * in any run from the empty database, exactly the cancelled ones keep their use.
   */
  lemma UnacceptedKeepsUseIff(coupons: map<Code, Coupon>, events: seq<Event>, i: nat)
    requires forall code | code in coupons :: coupons[code].usedCount == 0
    requires i < |Run(EmptyDb(coupons), events).orders|
    ensures var s := Run(EmptyDb(coupons), events);
            var o := s.orders[i];
            o.coupon.Some? && o.provider.None? && Terminal(o.status) ==>
              o.status in {Failed, Canceled} && (Redeemed(s, i) <==> o.status == Canceled)
  {
    UnusedCoupons(coupons);
    ReachedMoney(coupons, events);
    hide CouponsOk, OrdersOk, Run, EmptyDb, MoneyOk;
    assert UsesOk(EmptyDb(coupons)) by { NoOrdersYet(coupons); }
    RunsKeepUses(EmptyDb(coupons), events);
    PhaseAt(AccountsOf(Run(EmptyDb(coupons), events)), i);
  }

  lemma NoOrdersYet(coupons: map<Code, Coupon>)
    ensures UsesOk(EmptyDb(coupons))
  {
  }

  lemma PhaseAt(a: Accounts, i: nat)
    requires MoneyOk(a) && i < |a.orders|
    ensures PhaseOk(a.orders[i])
  {
    assert RowOk(a, i);
  }
}
