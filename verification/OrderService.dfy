/**
 * The order engine as the services perform it: status, provider id, coupon counters and wallet
 * change step by step on the session. Each method ends as its function in `Orders` says; one that
 * raises leaves the database as it found it.
 */
module OrderService {
  import opened Results
  import opened Rounding
  import opened Keys
  import opened Wallet
  import opened Pricing
  import opened Tables
  import opened Orders
  import WalletService
  import ReferralService

  method RecordEvent(session: Store, i: nat, to: Status)
    requires i < |session.orders|
    modifies session`orders
    ensures session.View() == SetOrder(old(session.View()), i, Move(old(session.orders[i]), to))
  {
    var o := session.orders[i];
    o := o.(events := o.events + [OrderEvent(o.status, to)]);
    session.orders := session.orders[i := o.(status := to)];
  }

  method GiveCouponBack(session: Store, i: nat)
    requires i < |session.orders|
    modifies session`coupons, session`redemptions
    ensures session.View() == ReleaseCouponUse(old(session.View()), i)
  {
    var o := session.orders[i];
    if o.coupon.None? {
      return;
    }
    var code := o.coupon.value;
    var mine := RedemptionsOf(session.redemptions, code, i);
    if mine != {} {
      session.redemptions := session.redemptions - mine;
      if code in session.coupons && session.coupons[code].usedCount > 0 {
        var c := session.coupons[code];
        session.coupons := session.coupons[code := c.(usedCount := c.usedCount - 1)];
      }
    }
  }

  method FailAndReleaseOrder(session: Store, i: nat, tag: ReleaseTag) returns (raised: Option<Error>)
    requires i < |session.orders|
    modifies session
    ensures Ended(old(session.View()), FailAndRelease(old(session.View()), i, tag), raised, session.View())
  {
    var o := session.orders[i];
    if o.user !in session.users {
      return Some(UnknownUser);
    }
    raised := WalletService.Release(session, o.user, o.charge, ForOrder(i), ReleaseKey(i, tag));
    if raised.Some? {
      return;
    }
    GiveCouponBack(session, i);
    RecordEvent(session, i, Failed);
  }

  method AttachAndCapture(session: Store, i: nat, id: string) returns (raised: Option<Error>)
    requires i < |session.orders|
    modifies session
    ensures Ended(old(session.View()), CaptureOrder(old(session.View()), i, id), raised, session.View())
  {
    var o := session.orders[i];
    if o.user !in session.users {
      return Some(UnknownUser);
    }
    var saved := session.View();
    session.orders := session.orders[i := o.(provider := Some(id))];
    raised := WalletService.Capture(session, o.user, o.charge, ForOrder(i), CaptureKey(i));
    if raised.Some? {
      session.Rollback(saved);
      return;
    }
    RecordEvent(session, i, Processing);
    assert session.orders == saved.orders[i := Move(o.(provider := Some(id)), Processing)];
  }

  method CountCouponUse(session: Store, coupon: Option<Code>, user: UserId, i: nat)
    modifies session`coupons, session`redemptions
    ensures session.View() == UseCoupon(old(session.View()), coupon, user, i)
  {
    if coupon.Some? {
      var code := coupon.value;
      if code in session.coupons {
        var c := session.coupons[code];
        session.coupons := session.coupons[code := c.(usedCount := c.usedCount + 1)];
      }
      session.redemptions := session.redemptions + {Redemption(code, user, i)};
    }
  }

  /** Stores the order with its funds reserved and its coupon used. */
  method StoreOrder(session: Store, r: OrderRequest, q: Quote, key: OrderKey) returns (raised: Option<Error>)
    requires r.user in session.users
    modifies session
    ensures Ended(old(session.View()), OpenOrder(old(session.View()), r, q, key), raised, session.View())
  {
    var saved := session.View();
    var i := |session.orders|;
    if Available(session.users[r.user]) < q.charge {
      return Some(InsufficientFunds);
    }
    if ExistingOrder(saved, key).Some? {
      return Some(DuplicateKey);
    }
    session.orders := session.orders + [NewOrder(saved, r, q, key)];
    session.placed := session.placed[key := i];
    raised := WalletService.Reserve(session, r.user, q.charge, ForOrder(i), ReserveKey(i));
    if raised.Some? {
      session.Rollback(saved);
      return;
    }
    RecordEvent(session, i, AwaitingProvider);
    assert session.orders == saved.orders + [Move(NewOrder(saved, r, q, key), AwaitingProvider)];
    CountCouponUse(session, q.coupon, r.user, i);
  }

  /** Acts on the provider's answer to a stored order. */
  method SubmitOrder(session: Store, i: nat, answer: Answer) returns (raised: Option<Error>)
    requires i < |session.orders|
    modifies session
    ensures Ended(old(session.View()), Submit(old(session.View()), i, answer), raised, session.View())
  {
    raised := None;
    match answer
    case Accepted(id) => raised := AttachAndCapture(session, i, id);
    case Rejected => raised := FailAndReleaseOrder(session, i, ProviderTag);
    case Broken => raised := FailAndReleaseOrder(session, i, InternalTag);
    case Ambiguous => RecordEvent(session, i, Review);
    case Crashed =>
  }

  method Place(session: Store, r: OrderRequest, answer: Answer) returns (raised: Option<Error>)
    modifies session
    ensures Ended(old(session.View()), PlaceOrder(old(session.View()), r, answer), raised, session.View())
  {
    hide CheckRequest, OpenOrder, Submit, ExistingOrder;
    var saved := session.View();
    var checked := CheckRequest(saved, r);
    if checked.Failure? {
      return Some(checked.error);
    }
    CheckedUser(saved, r);
    var q := checked.value;
    var key := r.key;
    var existing := ExistingOrder(saved, key);
    if existing.Some? {
      if existing.value < |session.orders| && session.orders[existing.value].status != Failed {
        return None;
      }
      key := RetryKey(key, r.stamp);
    }
    raised := StoreOrder(session, r, q, key);
    if raised.Some? {
      return;
    }
    StoredLength(saved, r, q, key);
    raised := SubmitOrder(session, |saved.orders|, answer);
    if raised.Some? {
      session.Rollback(saved);
    }
  }

  lemma StoredLength(s: Db, r: OrderRequest, q: Quote, key: OrderKey)
    requires r.user in s.bank.users && OpenOrder(s, r, q, key).Success?
    ensures |OpenOrder(s, r, q, key).value.orders| == |s.orders| + 1
  {
  }

  // ---------------------------------------------------------------- status sync

  method PayPartialRefund(session: Store, i: nat, remains: int) returns (raised: Option<Error>)
    requires i < |session.orders|
    modifies session
    ensures Ended(old(session.View()), MaybePartialRefund(old(session.View()), i, remains), raised, session.View())
  {
    raised := None;
    var o := session.orders[i];
    if remains <= 0 || o.quantity <= 0 || PartialKey(i) in session.records {
      return;
    }
    var refund := Min(PartialShare(o, remains), Max(0, o.charge - RefundedSoFar(session.View(), i)));
    if refund <= 0 || o.user !in session.users {
      return;
    }
    raised := WalletService.Credit(session, o.user, refund, ForOrder(i), PartialKey(i));
    if raised.None? {
      session.records := session.records[PartialKey(i) := refund];
    }
  }

  method RefundClosedOrder(session: Store, i: nat, tag: RefundTag) returns (raised: Option<Error>)
    requires i < |session.orders|
    modifies session
    ensures Ended(old(session.View()), RefundIfNeeded(old(session.View()), i, tag), raised, session.View())
  {
    raised := None;
    var key := RefundKey(i, tag);
    var o := session.orders[i];
    if key in session.records || o.user !in session.users || o.charge <= 0 {
      return;
    }
    var owed := Max(0, o.charge - RefundedSoFar(session.View(), i));
    if owed <= 0 {
      return;
    }
    raised := WalletService.Credit(session, o.user, owed, ForOrder(i), key);
    if raised.None? {
      session.records := session.records[key := owed];
      RecordEvent(session, i, Refunded);
    }
  }

  /** Takes over what the panel says about the counters of an order. */
  method TakeCounters(session: Store, i: nat, startCount: Option<int>, remains: Option<int>)
    requires i < |session.orders|
    modifies session`orders
    ensures session.View()
            == SetOrder(old(session.View()), i, Orders.Observe(old(session.orders[i]), startCount, remains))
  {
    var o := session.orders[i];
    if startCount.Some? && o.startCount != startCount {
      o := o.(startCount := startCount);
    }
    if remains.Some? && o.remains != remains {
      o := o.(remains := remains);
    }
    session.orders := session.orders[i := o];
  }

  method SyncStatus(session: Store, i: nat, report: PanelReport) returns (raised: Option<Error>)
    requires i < |session.orders|
    modifies session
    ensures Ended(old(session.View()), SyncOrder(old(session.View()), i, report), raised, session.View())
  {
    hide MaybePartialRefund, RefundIfNeeded, Referrals.CreditOrderCommission;
    raised := None;
    var saved := session.View();
    var before := session.orders[i];
    if Terminal(before.status) || !HasProvider(before) || report.Unreachable? {
      return;
    }
    var to: Status := report.status;
    TakeCounters(session, i, report.startCount, report.remains);
    if to != before.status {
      RecordEvent(session, i, to);
      assert session.View() == SetOrder(saved, i, Move(Orders.Observe(before, report.startCount, report.remains), to));
      if to == Partial && report.remains.Some? {
        raised := PayPartialRefund(session, i, report.remains.value);
      }
      if to in {Canceled, Refunded, Failed} && session.orders[i].status != Refunded {
        raised := RefundClosedOrder(session, i, TagOf(to));
      }
      if to == Completed {
        raised := ReferralService.CreditCompletedOrder(session, i);
      }
      if raised.Some? {
        session.Rollback(saved);
      }
    }
  }

  // ---------------------------------------------------------------- follow-up actions

  method RequestRefill(session: Store, i: nat, actor: UserId, staff: bool, open: bool, accepted: bool)
      returns (raised: Option<Error>)
    requires i < |session.orders|
    modifies session
    ensures Ended(old(session.View()), RefillOrder(old(session.View()), i, actor, staff, open, accepted), raised,
            session.View())
  {
    var o := session.orders[i];
    if !open {
      return Some(Closed);
    }
    if o.user != actor && !staff {
      return Some(NotYourOrder);
    }
    if !o.refillable {
      return Some(NotSupported);
    }
    if !Refillable(o.status) {
      return Some(WrongStatus);
    }
    if !HasProvider(o) {
      return Some(NoProviderOrder);
    }
    if !accepted {
      return Some(ProviderRefused);
    }
    ghost var before := session.orders;
    session.orders := session.orders[i := o.(refills := o.refills + 1)];
    RecordEvent(session, i, Refilling);
    assert session.orders == before[i := Move(o.(refills := o.refills + 1), Refilling)];
    return None;
  }

  method RequestCancel(session: Store, i: nat, actor: UserId, staff: bool, confirmed: bool)
      returns (raised: Option<Error>)
    requires i < |session.orders|
    modifies session
    ensures Ended(old(session.View()), CancelOrder(old(session.View()), i, actor, staff, confirmed), raised,
            session.View())
  {
    var o := session.orders[i];
    if o.user != actor && !staff {
      return Some(NotYourOrder);
    }
    if !o.cancelable {
      return Some(NotSupported);
    }
    if !Cancelable(o.status) {
      return Some(WrongStatus);
    }
    if HasProvider(o) && !confirmed {
      return Some(ProviderRefused);
    }
    raised := None;
    if o.user in session.users && o.charge > 0 {
      if o.status in {Pending, AwaitingProvider} {
        raised := WalletService.Release(session, o.user, o.charge, ForOrder(i), ReleaseKey(i, CancelTag));
      } else {
        var owed := Max(0, o.charge - RefundedSoFar(session.View(), i));
        if owed > 0 {
          raised := WalletService.Credit(session, o.user, owed, ForOrder(i), RefundKey(i, UserCancelTag));
        }
      }
    }
    if raised.None? {
      RecordEvent(session, i, Canceled);
    }
  }

  method ResolveReviewOrder(session: Store, i: nat, release: bool, attach: Option<string>)
      returns (raised: Option<Error>)
    requires i < |session.orders|
    modifies session
    ensures Ended(old(session.View()), ResolveReview(old(session.View()), i, release, attach), raised, session.View())
  {
    hide FailAndRelease, CaptureOrder;
    var o := session.orders[i];
    if o.status != Review {
      return Some(WrongStatus);
    }
    if release == (attach.Some? && attach.value != "") {
      return Some(ChooseExactlyOne);
    }
    if o.user !in session.users {
      return Some(UnknownUser);
    }
    if release {
      raised := FailAndReleaseOrder(session, i, ReviewTag);
    } else {
      raised := AttachAndCapture(session, i, if |attach.value| > 64 then attach.value[..64] else attach.value);
    }
  }

  /** The stuck-order pass after the first `i` orders. */
  ghost predicate FlaggedSoFar(before: seq<Order>, stale: set<nat>, limit: nat, i: nat, now: seq<Order>, selected: int)
    requires i <= |before|
  {
    && |FlagStuck(before[..i], stale, limit)| == i
    && now == FlagStuck(before[..i], stale, limit) + before[i..]
    && selected == Min(limit, Flagged(before[..i], stale))
  }

  lemma FlagNext(before: seq<Order>, stale: set<nat>, limit: nat, i: nat, now: seq<Order>, selected: int)
    requires i < |before| && FlaggedSoFar(before, stale, limit, i, now, selected)
    ensures |now| == |before| && now[i] == before[i]
    ensures var picked := Stuck(now[i]) && i in stale && selected < limit;
            FlaggedSoFar(before, stale, limit, i + 1,
                         if picked then now[i := Move(now[i], Review)] else now, if picked then selected + 1
                           else selected)
  {
    hide Stuck, Move;
    assert before[..i + 1][..i] == before[..i];
    var picked := Stuck(now[i]) && i in stale && selected < limit;
    var o := if picked then Move(before[i], Review) else before[i];
    assert FlagStuck(before[..i + 1], stale, limit) == FlagStuck(before[..i], stale, limit) + [o];
    assert (if picked then now[i := o] else now) == FlagStuck(before[..i], stale, limit) + [o] + before[i + 1..];
  }

  lemma FlagNone(orders: seq<Order>, stale: set<nat>, limit: nat)
    ensures FlaggedSoFar(orders, stale, limit, 0, orders, 0)
  {
  }

  lemma FlagAll(orders: seq<Order>, stale: set<nat>, limit: nat, now: seq<Order>, selected: int)
    requires FlaggedSoFar(orders, stale, limit, |orders|, now, selected)
    ensures now == FlagStuck(orders, stale, limit)
  {
    assert orders[..|orders|] == orders;
  }

  /** Moves the first `limit` stale orders that never got a provider outcome to review. */
  method FlagStuckOrders(session: Store, stale: set<nat>, limit: nat)
    modifies session`orders
    ensures session.View() == old(session.View()).(orders := FlagStuck(old(session.orders), stale, limit))
  {
    hide FlaggedSoFar, Stuck, Move, FlagStuck;
    ghost var before := session.orders;
    var selected := 0;
    var i := 0;
    FlagNone(before, stale, limit);
    while i < |session.orders|
      invariant 0 <= i <= |session.orders| == |before|
      invariant FlaggedSoFar(before, stale, limit, i, session.orders, selected)
    {
      FlagNext(before, stale, limit, i, session.orders, selected);
      if Stuck(session.orders[i]) && i in stale && selected < limit {
        RecordEvent(session, i, Review);
        selected := selected + 1;
      }
      i := i + 1;
    }
    FlagAll(before, stale, limit, session.orders, selected);
  }
}
