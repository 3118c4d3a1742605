/**
 * The main theorem about money: an engine call keeps the books if and only if it is not a
 * harmful cancel, for every call in every state whose books are in order.
 */
module EngineKept {
  import opened Results
  import opened Sums
  import opened Rounding
  import opened Keys
  import opened Wallet
  import opened Pricing
  import opened Tables
  import opened Referrals
  import opened Orders
  import opened Payments
  import opened Engine
  import opened Books
  import opened BooksKept
  import opened EngineBooks

  /** A call that ends well keeps what every run keeps, exact reserves and full refunds included. */
  ghost predicate Kept(s: Db, r: Result<Db>) {
    r.Success? ==> Keeps(AccountsOf(s), AccountsOf(r.value))
  }

  lemma KeptTwice(s: Db, mid: Db, r: Result<Db>)
    requires Keeps(AccountsOf(s), AccountsOf(mid)) && Kept(mid, r)
    ensures Kept(s, r)
  {
    hide Keeps;
    if r.Success? { KeepsTwice(AccountsOf(s), AccountsOf(mid), AccountsOf(r.value)); }
  }

  lemma KeptNothing(s: Db, r: Result<Db>)
    requires MoneyOk(AccountsOf(s)) && (r.Success? ==> AccountsOf(r.value) == AccountsOf(s))
    ensures Kept(s, r)
  {
    hide MoneyOk, Keeps;
    KeepsNothing(AccountsOf(s));
  }

  // ---------------------------------------------------------------- placing and resolving

  /** A held order that fails gives its hold back: the call always succeeds. */
  lemma FailKeeps(s: Db, i: nat, tag: ReleaseTag)
    requires MoneyOk(AccountsOf(s)) && i < |s.orders| && IsHeld(s.orders[i])
    ensures FailAndRelease(s, i, tag).Success? && Kept(s, FailAndRelease(s, i, tag))
    ensures var after := FailAndRelease(s, i, tag).value.bank;
            var u := s.orders[i].user;
            && u in s.bank.users && u in after.users
            && after.users[u].reserved == Max(0, s.bank.users[u].reserved - s.orders[i].charge)
  {
    hide MoneyOk, Keeps;
    BooksAt(AccountsOf(s), i);
    ReleaseHeldKeeps(AccountsOf(s), i, tag, Move(s.orders[i], Failed));
  }

  /** A held order can be captured exactly when its charge is reserved. */
  lemma CaptureKeeps(s: Db, i: nat, id: string)
    requires MoneyOk(AccountsOf(s)) && i < |s.orders| && IsHeld(s.orders[i])
    ensures s.orders[i].user in s.bank.users && Kept(s, CaptureOrder(s, i, id))
    ensures CaptureOrder(s, i, id).Success? <==> s.bank.users[s.orders[i].user].reserved >= s.orders[i].charge
    ensures CaptureOrder(s, i, id).Success? ==>
              var u := s.orders[i].user;
              var after := CaptureOrder(s, i, id).value.bank;
              u in after.users && after.users[u].reserved == s.bank.users[u].reserved - s.orders[i].charge
  {
    hide MoneyOk, Keeps;
    BooksAt(AccountsOf(s), i);
    CaptureHeldKeeps(AccountsOf(s), i, Move(s.orders[i].(provider := Some(id)), Processing));
  }

  /** What storing an order does to the accounts: one hold and one held row. */
  lemma StoredOrder(s: Db, r: OrderRequest, q: Quote, key: OrderKey)
    requires r.user in s.bank.users && OpenOrder(s, r, q, key).Success?
    ensures var i := |s.orders|;
            var bank := Reserve(s.bank, r.user, q.charge, ForOrder(i), ReserveKey(i));
            && Available(s.bank.users[r.user]) >= q.charge
            && bank.Success?
            && AccountsOf(OpenOrder(s, r, q, key).value)
               == AccountsOf(s).(bank := bank.value, orders := s.orders
                 + [Move(NewOrder(s, r, q, key), AwaitingProvider)])
  {
  }

  lemma OpenOrderKeeps(s: Db, r: OrderRequest, q: Quote, key: OrderKey)
    requires MoneyOk(AccountsOf(s)) && r.user in s.bank.users && q.charge > 0
    requires OpenOrder(s, r, q, key).Success?
    ensures var after := OpenOrder(s, r, q, key).value;
            && Keeps(AccountsOf(s), AccountsOf(after)) && MoneyOk(AccountsOf(after))
            && |after.orders| == |s.orders| + 1 && IsHeld(after.orders[|s.orders|])
            && after.orders[|s.orders|].user == r.user && after.orders[|s.orders|].charge == q.charge
            && r.user in after.bank.users
            && after.bank.users[r.user].reserved == s.bank.users[r.user].reserved + q.charge
  {
    hide MoneyOk, LedgerOk, EntriesOk, OpenOrder, Posts, Keeps;
    var i := |s.orders|;
    LedgerOf(AccountsOf(s));
    StoredOrder(s, r, q, key);
    KeyIsFresh(AccountsOf(s), ReserveKey(i));
    var e := ReservePosts(s.bank, r.user, q.charge, ForOrder(i), ReserveKey(i));
    OpenKeeps(AccountsOf(s), OpenOrder(s, r, q, key).value.bank, Move(NewOrder(s, r, q, key), AwaitingProvider), e);
    assert AccountsOf(OpenOrder(s, r, q, key).value).orders[i] == Move(NewOrder(s, r, q, key), AwaitingProvider);
    PostedReserve(s.bank, OpenOrder(s, r, q, key).value.bank, e);
    KeepsMoney(AccountsOf(s), AccountsOf(OpenOrder(s, r, q, key).value));
  }

  /** Whatever the provider answers, submitting a held order keeps the books; only a capture can raise. */
  lemma SubmitKeeps(s: Db, i: nat, answer: Answer)
    requires MoneyOk(AccountsOf(s)) && i < |s.orders| && IsHeld(s.orders[i])
    ensures s.orders[i].user in s.bank.users && Kept(s, Submit(s, i, answer))
    ensures Submit(s, i, answer).Success?
        <==> !answer.Accepted? || s.bank.users[s.orders[i].user].reserved >= s.orders[i].charge
  {
    hide MoneyOk, Keeps, FailAndRelease, CaptureOrder;
    BooksAt(AccountsOf(s), i);
    match answer
    case Accepted(id) => CaptureKeeps(s, i, id);
    case Rejected => FailKeeps(s, i, ProviderTag);
    case Broken => FailKeeps(s, i, InternalTag);
    case Ambiguous => RewriteKeeps(AccountsOf(s), i, Move(s.orders[i], Review));
    case Crashed => KeptNothing(s, Submit(s, i, answer));
  }

  /** Once an order is stored, the provider's answer is acted on without an error. */
  lemma PlaceKeeps(s: Db, r: OrderRequest, answer: Answer)
    requires MoneyOk(AccountsOf(s))
    ensures Kept(s, PlaceOrder(s, r, answer))
    ensures CheckRequest(s, r).Success? && !ReplaysOrder(s, r.key) && r.user in s.bank.users ==>
              (PlaceOrder(s, r, answer).Success? <==>
                OpenOrder(s, r, CheckRequest(s, r).value, KeyToStore(s, r)).Success?)
  {
    hide MoneyOk, Keeps, Kept, CheckRequest, OpenOrder, Submit;
    var q := CheckRequest(s, r);
    KeptNothing(s, Success(s));
    if q.Success? && !ReplaysOrder(s, r.key) {
      CheckedUser(s, r);
      var stored := OpenOrder(s, r, q.value, KeyToStore(s, r));
      if stored.Success? {
        UsersCover(s, r.user);
        OpenOrderKeeps(s, r, q.value, KeyToStore(s, r));
        SubmitKeeps(stored.value, |s.orders|, answer);
        KeptTwice(s, stored.value, PlaceOrder(s, r, answer));
      }
    }
    if PlaceOrder(s, r, answer).Failure? { KeptFailure(s, PlaceOrder(s, r, answer)); }
  }

  lemma KeptFailure(s: Db, r: Result<Db>)
    requires r.Failure?
    ensures Kept(s, r)
  {
  }

  lemma UsersCover(s: Db, u: UserId)
    requires MoneyOk(AccountsOf(s)) && u in s.bank.users
    ensures 0 <= s.bank.users[u].reserved <= s.bank.users[u].balance
  {
    assert CachedFromLedger(s.bank, u);
  }

  /** Closing a review: releasing always succeeds, attaching exactly when the charge is reserved. */
  lemma ResolveKeeps(s: Db, i: nat, release: bool, attach: Option<string>)
    requires MoneyOk(AccountsOf(s)) && i < |s.orders|
    ensures Kept(s, ResolveReview(s, i, release, attach))
    ensures s.orders[i].status == Review ==> s.orders[i].user in s.bank.users
    ensures s.orders[i].status == Review && release != (attach.Some? && attach.value != "") ==>
              (ResolveReview(s, i, release, attach).Success?
               <==> release || s.bank.users[s.orders[i].user].reserved >= s.orders[i].charge)
  {
    hide MoneyOk, Keeps, FailAndRelease, CaptureOrder;
    BooksAt(AccountsOf(s), i);
    if s.orders[i].status == Review {
      FailKeeps(s, i, ReviewTag);
      if attach.Some? {
        CaptureKeeps(s, i, if |attach.value| > 64 then attach.value[..64] else attach.value);
      }
    }
  }

  // ---------------------------------------------------------------- sync, refill, review flags

  lemma CommissionKeeps(s: Db, i: nat)
    requires MoneyOk(AccountsOf(s)) && i < |s.orders|
    ensures CreditOrderCommission(s, i).Success? && Kept(s, CreditOrderCommission(s, i))
  {
    hide MoneyOk, Keeps, Credit, Commission;
    KeepsNothing(AccountsOf(s));
    var due := OrderCommissionDue(s, i);
    if due > 0 {
      var referrer := ReferrerOf(s.bank, s.orders[i].user).value;
      OutsideCreditKeeps(AccountsOf(s), referrer, due, ForReferredOrder(i), OrderCommissionKey(i));
    }
  }

  lemma PartialKeeps(s: Db, i: nat, remains: int)
    requires MoneyOk(AccountsOf(s)) && i < |s.orders| && s.orders[i].status == Partial && IsCaptured(s.orders[i])
    ensures MaybePartialRefund(s, i, remains).Success? && Kept(s, MaybePartialRefund(s, i, remains))
  {
    hide MoneyOk, Keeps, LedgerOk, EntriesOk, Posts, PartialShare;
    var a, o := AccountsOf(s), s.orders[i];
    BooksAt(a, i);
    KeepsNothing(a);
    if remains > 0 && o.quantity > 0 && PartialKey(i) !in s.records {
      var refund := Min(PartialShare(o, remains), Owed(s, i));
      if refund > 0 {
        LedgerOf(a);
        KeyIsFresh(a, PartialKey(i));
        var e := CreditPosts(s.bank, o.user, refund, ForOrder(i), PartialKey(i));
        var after := MaybePartialRefund(s, i, remains).value;
        RefundKeeps(a, AccountsOf(after), i, refund, PartialKey(i));
      }
    }
  }

  /** What closing an order comes to: nothing is owed, or one credit under a fresh record key. */
  lemma ClosingRefund(s: Db, i: nat, o: Order, to: Status)
    requires i < |s.orders| && o.user == s.orders[i].user && o.charge == s.orders[i].charge > 0
             && o.user in s.bank.users
    requires RefundKey(i, TagOf(to)) !in s.records
    ensures var moved := SetOrder(s, i, Move(o, to));
            var key := RefundKey(i, TagOf(to));
            var owed := Owed(s, i);
            RefundIfNeeded(moved, i, TagOf(to)) ==
            if owed <= 0 then Success(moved)
            else
              var bank := Credit(s.bank, o.user, owed, ForOrder(i), key);
              if bank.Failure? then Failure(bank.error)
              else Success(s.(bank := bank.value, orders := s.orders[i := Move(Move(o, to), Refunded)], records :=
                s.records[key := owed]))
  {
    assert s.orders[i := Move(o, to)][i := Move(Move(o, to), Refunded)] == s.orders[i := Move(Move(o, to), Refunded)];
  }

  lemma NoClosingRecord(a: Accounts, i: nat, to: Status)
    requires MoneyOk(a) && i < |a.orders| && a.orders[i].status != Refunded
    ensures RefundKey(i, TagOf(to)) !in a.records
  {
    hide MoneyOk;
    RecordAt(a, RefundKey(i, TagOf(to)));
  }

  /** The provider closes a captured order: whatever was still owed is returned, exactly. */
  lemma CloseKeeps(s: Db, i: nat, o: Order, to: Status)
    requires MoneyOk(AccountsOf(s)) && i < |s.orders| && IsCaptured(s.orders[i]) && !Terminal(s.orders[i].status)
    requires o == Observe(s.orders[i], o.startCount, o.remains) && to in {Canceled, Failed}
    ensures var r := RefundIfNeeded(SetOrder(s, i, Move(o, to)), i, TagOf(to)); r.Success? && Kept(s, r)
  {
    hide MoneyOk, Keeps, LedgerOk, EntriesOk, Posts, RefundIfNeeded, RecordOk, EntryOk, Credit;
    var a := AccountsOf(s);
    var key := RefundKey(i, TagOf(to));
    BooksAt(a, i);
    LedgerOf(a);
    NoClosingRecord(a, i, to);
    ClosingRefund(s, i, o, to);
    var owed := Owed(s, i);
    if owed > 0 {
      KeyIsFresh(a, key);
      var e := CreditPosts(s.bank, o.user, owed, ForOrder(i), key);
      var after := RefundIfNeeded(SetOrder(s, i, Move(o, to)), i, TagOf(to)).value;
      RefundKeeps(a, AccountsOf(after), i, owed, key);
    } else {
      RewriteKeeps(a, i, Move(o, to));
    }
  }

  lemma SyncKeeps(s: Db, i: nat, report: PanelReport)
    requires MoneyOk(AccountsOf(s)) && i < |s.orders|
    ensures SyncOrder(s, i, report).Success? && Kept(s, SyncOrder(s, i, report))
  {
    hide MoneyOk, Keeps, Kept, MaybePartialRefund, RefundIfNeeded, CreditOrderCommission;
    var a, o := AccountsOf(s), s.orders[i];
    BooksAt(a, i);
    KeptNothing(s, Success(s));
    if !Terminal(o.status) && HasProvider(o) && report.Report? {
      var seen := Observe(o, report.startCount, report.remains);
      var to: Status := report.status;
      if to in {Canceled, Failed} {
        CloseKeeps(s, i, seen, to);
      } else {
        var o' := if to == o.status then seen else Move(seen, to);
        var moved := SetOrder(s, i, o');
        RewriteKeeps(a, i, o');
        MovedKeeps(s, moved);
        if to != o.status && to == Partial && report.remains.Some? {
          PartialKeeps(moved, i, report.remains.value);
          KeptTwice(s, moved, MaybePartialRefund(moved, i, report.remains.value));
        } else if to != o.status && to == Completed {
          CommissionKeeps(moved, i);
          KeptTwice(s, moved, CreditOrderCommission(moved, i));
        }
      }
    }
  }

  lemma MovedKeeps(s: Db, moved: Db)
    requires Keeps(AccountsOf(s), AccountsOf(moved))
    ensures Kept(s, Success(moved)) && MoneyOk(AccountsOf(moved))
  {
    hide MoneyOk;
  }

  lemma RefillKeeps(s: Db, i: nat, actor: UserId, staff: bool, open: bool, accepted: bool)
    requires MoneyOk(AccountsOf(s)) && i < |s.orders|
    ensures Kept(s, RefillOrder(s, i, actor, staff, open, accepted))
  {
    hide MoneyOk, Keeps;
    var o := s.orders[i];
    if RefillOrder(s, i, actor, staff, open, accepted).Success? {
      RewriteKeeps(AccountsOf(s), i, Move(o.(refills := o.refills + 1), Refilling));
    }
  }

  /** The orders with the first `n` of them passed over by the stuck-order check. */
  function FlaggedTo(orders: seq<Order>, stale: set<nat>, limit: nat, n: nat): seq<Order>
    requires n <= |orders|
  {
    FlagStuck(orders[..n], stale, limit) + orders[n..]
  }

  /** Passing over one more order leaves it alone or moves a held order to review. */
  lemma FlaggedNext(orders: seq<Order>, stale: set<nat>, limit: nat, n: nat)
    requires n < |orders| && |FlagStuck(orders[..n], stale, limit)| == n
    ensures |FlagStuck(orders[..n + 1], stale, limit)| == n + 1
    ensures var before := FlaggedTo(orders, stale, limit, n);
            && |before| == |orders| && before[n] == orders[n]
            && var after := FlaggedTo(orders, stale, limit, n + 1);
               after == before || (Stuck(orders[n]) && after == before[n := Move(orders[n], Review)])
  {
    hide Stuck, Move;
    assert orders[..n + 1][..n] == orders[..n];
    var o' := FlagStuck(orders[..n + 1], stale, limit)[n];
    assert FlaggedTo(orders, stale, limit, n + 1) == FlaggedTo(orders, stale, limit, n)[n := o'];
  }

  lemma {:induction false} FlagKeeps(s: Db, stale: set<nat>, limit: nat, n: nat)
    requires MoneyOk(AccountsOf(s)) && n <= |s.orders|
    ensures |FlagStuck(s.orders[..n], stale, limit)| == n
    ensures Keeps(AccountsOf(s), AccountsOf(s.(orders := FlaggedTo(s.orders, stale, limit, n))))
  {
    hide MoneyOk, Keeps;
    if n == 0 {
      assert FlaggedTo(s.orders, stale, limit, 0) == s.orders;
      KeepsNothing(AccountsOf(s));
    } else {
      FlagKeeps(s, stale, limit, n - 1);
      FlaggedNext(s.orders, stale, limit, n - 1);
      hide FlaggedTo, FlagStuck;
      var before := AccountsOf(s.(orders := FlaggedTo(s.orders, stale, limit, n - 1)));
      var after := AccountsOf(s.(orders := FlaggedTo(s.orders, stale, limit, n)));
      KeepsMoney(AccountsOf(s), before);
      if after.orders != before.orders {
        BooksAt(before, n - 1);
        RewriteKeeps(before, n - 1, Move(s.orders[n - 1], Review));
        assert after == before.(orders := before.orders[n - 1 := Move(s.orders[n - 1], Review)]);
        KeepsTwice(AccountsOf(s), before, after);
      }
    }
  }

  // ---------------------------------------------------------------- cancel

  /** A cancel that succeeds on a captured order which the provider reported as pending. */
  predicate CancelsSyncedPending(s: Db, i: nat, actor: UserId, staff: bool, confirmed: bool) {
    && i < |s.orders|
    && (s.orders[i].user == actor || staff)
    && s.orders[i].cancelable
    && s.orders[i].status == Pending && IsCaptured(s.orders[i])
    && (HasProvider(s.orders[i]) ==> confirmed)
  }

  /** Such a cancel does harm unless nothing is held for its owner and nothing is owed on the order. */
  predicate HarmfulCancel(s: Db, i: nat, actor: UserId, staff: bool, confirmed: bool) {
    && CancelsSyncedPending(s, i, actor, staff, confirmed)
    && s.orders[i].user in s.bank.users
    && (s.bank.users[s.orders[i].user].reserved > 0 || RefundedSoFar(s, i) < s.orders[i].charge)
  }

  lemma CancelKeeps(s: Db, i: nat, actor: UserId, staff: bool, confirmed: bool)
    requires MoneyOk(AccountsOf(s)) && i < |s.orders|
    requires !CancelsSyncedPending(s, i, actor, staff, confirmed)
    ensures Kept(s, CancelOrder(s, i, actor, staff, confirmed))
  {
    hide MoneyOk, Keeps, LedgerOk, EntriesOk, Posts;
    var a, o := AccountsOf(s), s.orders[i];
    BooksAt(a, i);
    if CancelOrder(s, i, actor, staff, confirmed).Success? {
      var after := CancelOrder(s, i, actor, staff, confirmed).value;
      if o.status == AwaitingProvider {
        ReleaseHeldKeeps(a, i, CancelTag, Move(o, Canceled));
      } else if Owed(s, i) > 0 {
        LedgerOf(a);
        RecordAt(a, RefundKey(i, UserCancelTag));
        KeyIsFresh(a, RefundKey(i, UserCancelTag));
        var e := CreditPosts(s.bank, o.user, Owed(s, i), ForOrder(i), RefundKey(i, UserCancelTag));
        RefundKeeps(a, AccountsOf(after), i, Owed(s, i), RefundKey(i, UserCancelTag));
      } else {
        RewriteKeeps(a, i, Move(o, Canceled));
      }
    }
  }

  /** The accounts after a cancel through the release branch. */
  function AfterPendingCancel(s: Db, i: nat): Accounts
    requires i < |s.orders| && s.orders[i].user in s.bank.users
  {
    var o := s.orders[i];
    var row := s.bank.users[o.user];
    var left := Max(0, row.reserved - o.charge);
    var e := Entry(o.user, 0, ReleaseEntry, ForOrder(i), ReleaseKey(i, CancelTag), row.balance, left);
    AccountsOf(s).(
      bank := Bank(s.bank.users[o.user := row.(reserved := left)], s.bank.ledger + [e]),
      orders := s.orders[i := Move(o, Canceled)])
  }

  /** What the release branch does to a captured order: no refund, and up to its charge off the owner's holds. */
  lemma PendingCancelReleases(s: Db, i: nat, actor: UserId, staff: bool, confirmed: bool)
    requires MoneyOk(AccountsOf(s)) && CancelsSyncedPending(s, i, actor, staff, confirmed)
    ensures s.orders[i].user in s.bank.users && CancelOrder(s, i, actor, staff, confirmed).Success?
    ensures AccountsOf(CancelOrder(s, i, actor, staff, confirmed).value) == AfterPendingCancel(s, i)
    ensures var a' := AfterPendingCancel(s, i);
            && |a'.bank.ledger| == |s.bank.ledger| + 1
            && OrderStep(AccountsOf(s), a', i, Some(a'.bank.ledger[|s.bank.ledger|]))
  {
    hide MoneyOk, LedgerOk, EntriesOk;
    var a, o := AccountsOf(s), s.orders[i];
    BooksAt(a, i);
    LedgerOf(a);
    KeyIsFresh(a, ReleaseKey(i, CancelTag));
    var e := ReleasePosts(s.bank, o.user, o.charge, ForOrder(i), ReleaseKey(i, CancelTag));
    ReleasedBank(s.bank, o.user, o.charge, ForOrder(i), ReleaseKey(i, CancelTag));
    hide Release;
    PendingReleaseIsStep(a, AfterPendingCancel(s, i), i, e);
  }

  lemma ReleasedBank(b: Bank, u: UserId, amount: int, ref: Ref, key: Key)
    requires u in b.users && amount > 0 && b.users[u].reserved >= 0 && !HasKey(b.ledger, key)
    requires Release(b, u, amount, ref, key).Success?
    ensures var row := b.users[u];
            var left := Max(0, row.reserved - amount);
            Release(b, u, amount, ref, key).value
            == Bank(b.users[u := row.(reserved := left)], b.ledger
              + [Entry(u, 0, ReleaseEntry, ref, key, row.balance, left)])
  {
    var row := b.users[u];
    var left := Max(0, row.reserved - amount);
    assert row.(balance := row.balance, reserved := left) == row.(reserved := left);
  }

  lemma PendingReleaseIsStep(a: Accounts, a': Accounts, i: nat, e: Entry)
    requires i < |a.orders| && a.orders[i].user in a.bank.users
    requires RowOk(a, i) && RefundsOk(a, i) && a.orders[i].status == Pending && IsCaptured(a.orders[i])
    requires Posts(a.bank, a'.bank, e)
             && a' == a.(bank := a'.bank, orders := a.orders[i := Move(a.orders[i], Canceled)])
    requires e.user == a.orders[i].user && e.amount == 0 && e.kind == ReleaseEntry && e.ref == ForOrder(i)
    requires e.key == ReleaseKey(i, CancelTag)
    ensures OrderStep(a, a', i, Some(e))
  {
  }

  /**
   * Cancelling a synced-back pending order: it always succeeds and keeps what every run keeps. The
   * owner's reserve stays exact if and only if nothing was reserved; the order is refunded in full
   * if and only if it was already; everybody and everything else is as before.
   */
  lemma PendingCancelOutcome(s: Db, i: nat, actor: UserId, staff: bool, confirmed: bool)
    requires MoneyOk(AccountsOf(s)) && CancelsSyncedPending(s, i, actor, staff, confirmed)
    ensures s.orders[i].user in s.bank.users && CancelOrder(s, i, actor, staff, confirmed).Success?
    ensures var a, after := AccountsOf(s), AccountsOf(CancelOrder(s, i, actor, staff, confirmed).value);
            var u := s.orders[i].user;
            && MoneyOk(after)
            && after.bank.users.Keys == a.bank.users.Keys && |after.orders| == |a.orders|
            && after.bank.users[u].reserved == Max(0, a.bank.users[u].reserved - s.orders[i].charge)
            && (HoldsOk(a, u) ==> (HoldsOk(after, u) <==> a.bank.users[u].reserved == 0))
            && (InFull(after, i) <==> RefundedSoFar(s, i) == s.orders[i].charge)
            && (forall v | v in a.bank.users && v != u && HoldsOk(a, v) :: HoldsOk(after, v))
            && (forall j | 0 <= j < |a.orders| && j != i && InFull(a, j) :: InFull(after, j))
  {
    hide MoneyOk, OrderStep, HoldsOk, InFull, Posts, LedgerOk, CancelOrder, CancelsSyncedPending, AfterPendingCancel,
      RowsOk;
    SyncedPendingRow(s, i, actor, staff, confirmed);
    PendingCancelReleases(s, i, actor, staff, confirmed);
    var a, after, u := AccountsOf(s), AccountsOf(CancelOrder(s, i, actor, staff, confirmed).value), s.orders[i].user;
    var posted := Some(after.bank.ledger[|s.bank.ledger|]);
    OrderStepMoney(a, after, i, posted);
    OrderStepUsers(a, after, i, posted);
    MoneyRows(a);
    PendingCancelRow(s, i);
    forall v | v in a.bank.users && v != u && HoldsOk(a, v) ensures HoldsOk(after, v) {
      OrderStepHolds(a, after, i, posted, v);
    }
    forall j | 0 <= j < |a.orders| && j != i && InFull(a, j) ensures InFull(after, j) {
      OrderStepInFull(a, after, i, posted, j);
    }
  }

  lemma SyncedPendingRow(s: Db, i: nat, actor: UserId, staff: bool, confirmed: bool)
    requires MoneyOk(AccountsOf(s)) && CancelsSyncedPending(s, i, actor, staff, confirmed)
    ensures i < |s.orders| && s.orders[i].status == Pending && IsCaptured(s.orders[i])
            && s.orders[i].user in s.bank.users
  {
    hide MoneyOk;
    BooksAt(AccountsOf(s), i);
  }

  lemma PendingCancelRow(s: Db, i: nat)
    requires MoneyOk(AccountsOf(s)) && i < |s.orders| && s.orders[i].status == Pending && IsCaptured(s.orders[i])
    requires s.orders[i].user in s.bank.users
    ensures var a, after := AccountsOf(s), AfterPendingCancel(s, i);
            var u := s.orders[i].user;
            && u in after.bank.users && |after.orders| == |a.orders|
            && after.bank.users[u].reserved == Max(0, a.bank.users[u].reserved - s.orders[i].charge)
            && (HoldsOk(a, u) ==> (HoldsOk(after, u) <==> a.bank.users[u].reserved == 0))
            && (InFull(after, i) <==> RefundedSoFar(s, i) == s.orders[i].charge)
  {
    hide MoneyOk, InFull;
    BooksAt(AccountsOf(s), i);
    PendingCancelRefund(s, i);
    var a, after := AccountsOf(s), AfterPendingCancel(s, i);
    SumChange(a.orders, after.orders, HeldBy(s.orders[i].user), HeldBy(s.orders[i].user), i);
  }

  lemma PendingCancelRefund(s: Db, i: nat)
    requires i < |s.orders| && s.orders[i].status == Pending && IsCaptured(s.orders[i])
    requires s.orders[i].user in s.bank.users && RefundsOk(AccountsOf(s), i)
    ensures |AfterPendingCancel(s, i).orders| == |s.orders|
    ensures InFull(AfterPendingCancel(s, i), i) <==> RefundedSoFar(s, i) == s.orders[i].charge
  {
  }

  /** A harmful cancel leaves holds that no longer match the orders, or a cancelled order short of its refund. */
  lemma HarmBreaksBooks(s: Db, i: nat, actor: UserId, staff: bool, confirmed: bool)
    requires BooksOk(AccountsOf(s)) && HarmfulCancel(s, i, actor, staff, confirmed)
    ensures CancelOrder(s, i, actor, staff, confirmed).Success?
    ensures var after := AccountsOf(CancelOrder(s, i, actor, staff, confirmed).value);
            var u := s.orders[i].user;
            && (s.bank.users[u].reserved > 0 ==> u in after.bank.users && !HoldsOk(after, u))
            && (RefundedSoFar(s, i) < s.orders[i].charge ==> i < |after.orders| && !InFull(after, i))
            && !BooksOk(after)
  {
    hide MoneyOk, HoldsOk, InFull, CancelOrder, CancelsSyncedPending;
    SyncedPendingRow(s, i, actor, staff, confirmed);
    PendingCancelOutcome(s, i, actor, staff, confirmed);
  }

  /** A cancel through the release branch that finds nothing held and nothing owed. */
  lemma HarmlessPendingCancel(s: Db, i: nat, actor: UserId, staff: bool, confirmed: bool)
    requires BooksOk(AccountsOf(s)) && CancelsSyncedPending(s, i, actor, staff, confirmed)
    requires !HarmfulCancel(s, i, actor, staff, confirmed)
    ensures CancelOrder(s, i, actor, staff, confirmed).Success?
    ensures BooksOk(AccountsOf(CancelOrder(s, i, actor, staff, confirmed).value))
  {
    hide MoneyOk, HoldsOk, InFull, CancelOrder, CancelsSyncedPending;
    SyncedPendingRow(s, i, actor, staff, confirmed);
    BooksAt(AccountsOf(s), i);
    PendingCancelOutcome(s, i, actor, staff, confirmed);
  }

  // ---------------------------------------------------------------- deposits

  lemma SettleKeeps(s: Db, p: nat, r: Receipt)
    requires MoneyOk(AccountsOf(s)) && p < |s.payments|
    ensures Kept(s, Settle(s, p, r))
  {
    hide MoneyOk, Keeps, Verdict, Credit, CreditDepositCommission;
    var row, a := s.payments[p], AccountsOf(s);
    var verdict := Verdict(row, r, row.user in s.bank.users);
    VerdictMeans(row, r, row.user in s.bank.users);
    KeepsNothing(a);
    if verdict == Credited {
      if row.amount > 0 { CreditedKeeps(s, p, r.ref); } else {
        NothingToCredit(s.bank, row.user, row.amount, ForPayment(p), DepositKey(p));
      }
    } else if verdict in {AmountMismatch, OwnerMissing} {
      InvoiceRewriteKeeps(a, p, row.(status := Held));
    }
  }

  lemma DepositCreditKeeps(a: Accounts, p: nat, ref: Option<string>)
    requires MoneyOk(a) && p < |a.payments|
    requires a.payments[p].user in a.bank.users && a.payments[p].amount > 0 && a.payments[p].status != Paid
    ensures var row := a.payments[p];
            var bank := Credit(a.bank, row.user, row.amount, ForPayment(p), DepositKey(p));
            && bank.Success? && row.user in bank.value.users
            && Keeps(a, a.(bank := bank.value, payments := a.payments[p := PaidRow(row, ref)]))
  {
    hide MoneyOk, Keeps, LedgerOk, EntriesOk;
    var row := a.payments[p];
    LedgerOf(a);
    KeyIsFresh(a, DepositKey(p));
    var e := CreditPosts(a.bank, row.user, row.amount, ForPayment(p), DepositKey(p));
    DepositKeeps(a, Credit(a.bank, row.user, row.amount, ForPayment(p), DepositKey(p)).value, p, PaidRow(row, ref), e);
  }

  lemma CreditedKeeps(s: Db, p: nat, ref: Option<string>)
    requires MoneyOk(AccountsOf(s)) && p < |s.payments|
    requires s.payments[p].user in s.bank.users && s.payments[p].amount > 0 && s.payments[p].status != Paid
    ensures var row := s.payments[p];
            var bank := Credit(s.bank, row.user, row.amount, ForPayment(p), DepositKey(p));
            && bank.Success?
            && var rewarded := CreditDepositCommission(s.(bank := bank.value), p);
               rewarded.Success? && Keeps(AccountsOf(s), AccountsOf(SetPayment(rewarded.value, p, PaidRow(row, ref))))
  {
    hide MoneyOk, Keeps, Credit, PaidRow, Commission;
    var row, a := s.payments[p], AccountsOf(s);
    DepositCreditKeeps(a, p, ref);
    var bank := Credit(s.bank, row.user, row.amount, ForPayment(p), DepositKey(p)).value;
    var paid := a.(bank := bank, payments := s.payments[p := PaidRow(row, ref)]);
    KeepsMoney(a, paid);
    var due := Commission(row.amount, REFERRAL_DEPOSIT_COMMISSION_PERCENT);
    if ReferrerOf(bank, row.user).Some? {
      var referrer := ReferrerOf(bank, row.user).value;
      OutsideCreditKeeps(paid, referrer, due, ForReferredDeposit(p), DepositCommissionKey(row.user));
      var credited := Credit(bank, referrer, due, ForReferredDeposit(p), DepositCommissionKey(row.user));
      if credited.Success? { KeepsTwice(a, paid, paid.(bank := credited.value)); }
    }
  }

  lemma ExpireKeeps(s: Db, p: nat)
    requires MoneyOk(AccountsOf(s)) && p < |s.payments|
    ensures Keeps(AccountsOf(s), AccountsOf(Expire(s, p)))
  {
    hide MoneyOk, Keeps;
    KeepsNothing(AccountsOf(s));
    if s.payments[p].status == Unpaid {
      InvoiceRewriteKeeps(AccountsOf(s), p, s.payments[p].(status := Expired));
    }
  }

  lemma AnswerKeeps(s: Db, p: nat, gateway: string, answer: GatewayAnswer)
    requires MoneyOk(AccountsOf(s)) && p < |s.payments|
    ensures Kept(s, ApplyAnswer(s, p, gateway, answer))
  {
    hide MoneyOk, Keeps, Settle, Expire;
    KeepsNothing(AccountsOf(s));
    match answer
    case SaysPaid(amount, currency) => SettleKeeps(s, p, Receipt(gateway, s.payments[p].ref, amount, currency, false));
    case SaysExpired => ExpireKeeps(s, p);
    case _ =>
  }

  lemma WebhookKeeps(s: Db, gateway: string, n: Notice)
    requires MoneyOk(AccountsOf(s))
    ensures Kept(s, HandleWebhook(s, gateway, n))
  {
    hide MoneyOk, Keeps, Settle, Expire;
    var known := s.(seen := s.seen + {(gateway, n.id)});
    assert AccountsOf(known) == AccountsOf(s);
    KeepsNothing(AccountsOf(s));
    if n.payment.Some? && n.payment.value < |s.payments| {
      SettleKeeps(known, n.payment.value, Receipt(gateway, n.ref, n.amount, n.currency, false));
      ExpireKeeps(known, n.payment.value);
    }
  }

  lemma {:induction false} ReconcileKeeps(s: Db, rows: seq<nat>, gateway: string, answers: map<nat, GatewayAnswer>)
    requires MoneyOk(AccountsOf(s))
    ensures Kept(s, ReconcileAll(s, rows, gateway, answers))
  {
    hide MoneyOk, Keeps, ApplyAnswer;
    KeepsNothing(AccountsOf(s));
    if rows != [] {
      var p := rows[|rows| - 1];
      var before := ReconcileAll(s, rows[..|rows| - 1], gateway, answers);
      ReconcileKeeps(s, rows[..|rows| - 1], gateway, answers);
      if before.Success? && p in answers && p < |before.value.payments| {
        KeepsMoney(AccountsOf(s), AccountsOf(before.value));
        AnswerKeeps(before.value, p, gateway, answers[p]);
        KeptTwice(s, before.value, ApplyAnswer(before.value, p, gateway, answers[p]));
      }
    }
  }

  lemma NewDepositKeeps(s: Db, r: DepositRequest, checkout: Option<string>)
    requires MoneyOk(AccountsOf(s))
    ensures Kept(s, CreateDeposit(s, r, checkout))
  {
    hide MoneyOk, Keeps;
    KeepsNothing(AccountsOf(s));
    if r.user in s.bank.users {
      var ref := if r.gateway == RAZORPAY then checkout else None;
      NewInvoiceKeeps(AccountsOf(s), Payment(r.user, r.amount, r.currency, r.gateway, Unpaid, ref, r.key));
    }
  }

  // ---------------------------------------------------------------- users, adjustments, payouts

  lemma UserCallsKeep(s: Db, e: Event)
    requires MoneyOk(AccountsOf(s))
    requires e.Join? || e.Profile? || e.StartLink?
    ensures Kept(s, Handle(s, e))
  {
    hide MoneyOk, Keeps;
    if Handle(s, e).Success? {
      UsersKeep(AccountsOf(s), Handle(s, e).value.bank);
    }
  }

  lemma AdjustKeeps(s: Db, u: UserId, amount: int, actor: UserId, nonce: nat)
    requires MoneyOk(AccountsOf(s))
    ensures Kept(s, AdjustBy(s, u, amount, actor, nonce))
  {
    hide MoneyOk, Keeps, LedgerOk, EntriesOk;
    var a := AccountsOf(s);
    KeepsNothing(a);
    if u in s.bank.users {
      OutsideCreditKeeps(a, u, amount, ForAdmin(actor), AdjustmentKey(nonce));
      if AdjustBy(s, u, amount, actor, nonce).Success? && amount < 0 && !HasKey(s.bank.ledger, AdjustmentKey(nonce)) {
        LedgerOf(a);
        var e := DebitPosts(s.bank, u, -amount, ForAdmin(actor), AdjustmentKey(nonce));
        OutsidePostKeeps(a, AdjustBy(s, u, amount, actor, nonce).value.bank, e);
      }
    }
  }

  lemma PayoutCallKeeps(s: Db, u: UserId, amount: int)
    requires MoneyOk(AccountsOf(s))
    ensures Kept(s, RequestPayout(s, u, amount))
  {
    hide MoneyOk, Keeps, LedgerOk, EntriesOk;
    var n := |s.payouts|;
    if RequestPayout(s, u, amount).Success? {
      LedgerOf(AccountsOf(s));
      KeyIsFresh(AccountsOf(s), PayoutKey(n));
      var e := DebitPosts(s.bank, u, amount, ForPayout(n), PayoutKey(n));
      PayoutKeeps(AccountsOf(s), Debit(s.bank, u, amount, ForPayout(n), PayoutKey(n)).value, amount, e);
    }
  }

  // ---------------------------------------------------------------- every call

  /** The cancel of a captured order which the provider reported as pending. */
  predicate CancelsPending(s: Db, e: Event) {
    e.Cancel? && CancelsSyncedPending(s, e.order, e.actor, e.staff, e.confirmed)
  }

  predicate Harmful(s: Db, e: Event) {
    e.Cancel? && HarmfulCancel(s, e.order, e.actor, e.staff, e.confirmed)
  }

  /** Every other call keeps all of the books. */
  lemma CallKeeps(s: Db, e: Event)
    requires MoneyOk(AccountsOf(s)) && !CancelsPending(s, e)
    ensures Kept(s, Handle(s, e))
  {
    hide MoneyOk, Keeps, PlaceOrder, SyncOrder, RefillOrder, CancelOrder, ResolveReview, FlagStuck, CreateDeposit,
      HandleWebhook,
      CheckPayment, ManualConfirm, Reconcile, RequestPayout, AdjustBy, WelcomeBonus, CancelsSyncedPending;
    match e
    case Join(_) => UserCallsKeep(s, e);
    case Profile(_, _, _) => UserCallsKeep(s, e);
    case StartLink(_, _) => UserCallsKeep(s, e);
    case Adjust(u, amount, actor, nonce) => AdjustKeeps(s, u, amount, actor, nonce);
    case Welcome(u, bonus) => WelcomeKeeps(s, u, bonus);
    case Place(request, answer) => PlaceKeeps(s, request, answer);
    case Sync(i, report) => if i < |s.orders| { SyncKeeps(s, i, report); }
    case Refill(i, actor, staff, open, accepted) =>
      if i < |s.orders| { RefillKeeps(s, i, actor, staff, open, accepted); }
    case Cancel(i, actor, staff, confirmed) => if i < |s.orders| { CancelKeeps(s, i, actor, staff, confirmed); }
    case Resolve(i, release, attach) => if i < |s.orders| { ResolveKeeps(s, i, release, attach); }
    case FlagStuckOrders(stale, limit) => FlagCallKeeps(s, stale, limit);
    case _ => DepositCallKeeps(s, e);
  }

  lemma WelcomeKeeps(s: Db, u: UserId, bonus: int)
    requires MoneyOk(AccountsOf(s))
    ensures Kept(s, WelcomeBonus(s, u, bonus))
  {
    hide MoneyOk, Keeps, Credit;
    if u in s.bank.users { OutsideCreditKeeps(AccountsOf(s), u, bonus, ForBonus, WelcomeKey(u)); }
  }

  lemma FlagCallKeeps(s: Db, stale: set<nat>, limit: nat)
    requires MoneyOk(AccountsOf(s))
    ensures Keeps(AccountsOf(s), AccountsOf(s.(orders := FlagStuck(s.orders, stale, limit))))
  {
    hide MoneyOk, Keeps, FlagStuck;
    FlagKeeps(s, stale, limit, |s.orders|);
    assert s.orders[..|s.orders|] == s.orders;
    assert FlaggedTo(s.orders, stale, limit, |s.orders|) == FlagStuck(s.orders, stale, limit);
  }

  lemma DepositCallKeeps(s: Db, e: Event)
    requires MoneyOk(AccountsOf(s))
    requires e.OpenDeposit? || e.Webhook? || e.Check? || e.Confirm? || e.ReconcilePending? || e.RequestPayoutOf?
    ensures Kept(s, Handle(s, e))
  {
    hide MoneyOk, Keeps, CreateDeposit, HandleWebhook, ApplyAnswer, Settle, ReconcileAll, RequestPayout;
    KeepsNothing(AccountsOf(s));
    match e
    case OpenDeposit(request, checkout) => NewDepositKeeps(s, request, checkout);
    case Webhook(gateway, notice) => WebhookKeeps(s, gateway, notice);
    case Check(p, user, said) => if p < |s.payments| { AnswerKeeps(s, p, RAZORPAY, said); }
    case Confirm(p) =>
      if p < |s.payments| {
        var row := s.payments[p];
        SettleKeeps(s, p, Receipt(row.gateway, row.ref, Some(row.amount), Some(row.currency), true));
      }
    case ReconcilePending(gateway, aged, limit, answers) =>
      ReconcileKeeps(s, ToReconcile(s.payments, gateway, aged, limit), gateway, answers);
    case RequestPayoutOf(u, amount) => PayoutCallKeeps(s, u, amount);
  }

  /** Every call whatsoever keeps what every run keeps; all but one kind keep all of the books. */
  lemma StepKeepsMoney(s: Db, e: Event)
    requires MoneyOk(AccountsOf(s))
    ensures MoneyOk(AccountsOf(Step(s, e)))
    ensures !CancelsPending(s, e) ==> Keeps(AccountsOf(s), AccountsOf(Step(s, e)))
  {
    hide MoneyOk, Keeps, CancelsSyncedPending;
    if CancelsPending(s, e) {
      CancelStep(s, e);
      hide Step;
      PendingCancelOutcome(s, e.order, e.actor, e.staff, e.confirmed);
    } else {
      hide Handle;
      CallKeeps(s, e);
      KeepsNothing(AccountsOf(s));
      KeepsMoney(AccountsOf(s), AccountsOf(Step(s, e)));
    }
  }

  /** From books in order, a call leaves them in order if and only if it is not a harmful cancel. */
  lemma StepKeepsBooksIff(s: Db, e: Event)
    requires BooksOk(AccountsOf(s))
    ensures BooksOk(AccountsOf(Step(s, e))) <==> !Harmful(s, e)
  {
    hide BooksOk, Keeps, CancelsSyncedPending, CancelOrder;
    BooksAreMoney(AccountsOf(s));
    if CancelsPending(s, e) {
      CancelStep(s, e);
      hide Step;
      if Harmful(s, e) {
        HarmBreaksBooks(s, e.order, e.actor, e.staff, e.confirmed);
      } else {
        HarmlessPendingCancel(s, e.order, e.actor, e.staff, e.confirmed);
      }
    } else {
      hide Handle;
      StepKeepsMoney(s, e);
      KeepsBooks(AccountsOf(s), AccountsOf(Step(s, e)));
    }
  }

  lemma CancelStep(s: Db, e: Event)
    requires MoneyOk(AccountsOf(s)) && CancelsPending(s, e)
    ensures e.order < |s.orders|
    ensures CancelOrder(s, e.order, e.actor, e.staff, e.confirmed).Success?
    ensures Step(s, e) == CancelOrder(s, e.order, e.actor, e.staff, e.confirmed).value
  {
    hide MoneyOk, CancelOrder, CancelsSyncedPending;
    SyncedPendingRow(s, e.order, e.actor, e.staff, e.confirmed);
    PendingCancelOutcome(s, e.order, e.actor, e.staff, e.confirmed);
  }

  lemma BooksAreMoney(a: Accounts)
    requires BooksOk(a)
    ensures MoneyOk(a)
  {
  }

  // ---------------------------------------------------------------- every run

  /** What every run keeps, it keeps: harmful cancels included. */
  lemma {:induction false} RunKeepsMoney(s: Db, events: seq<Event>)
    requires MoneyOk(AccountsOf(s))
    ensures MoneyOk(AccountsOf(Run(s, events)))
  {
    hide MoneyOk, Keeps, Step;
    if events != [] {
      RunKeepsMoney(s, events[..|events| - 1]);
      StepKeepsMoney(Run(s, events[..|events| - 1]), events[|events| - 1]);
    }
  }

  /** The books are in order in every state a run passes through. */
  ghost predicate BooksOkThroughout(s: Db, events: seq<Event>) {
    && (events != [] ==> BooksOkThroughout(s, events[..|events| - 1]))
    && BooksOk(AccountsOf(Run(s, events)))
  }

  /** No call of the run is a harmful cancel in the state it is made in. */
  predicate HarmlessRun(s: Db, events: seq<Event>) {
    events != [] ==>
      var before := events[..|events| - 1];
      HarmlessRun(s, before) && !Harmful(Run(s, before), events[|events| - 1])
  }

  /**
   * Over every run from books in order: they are in order in every state of the run if and only
   * if no call of the run is a harmful cancel.
   */
  lemma {:induction false} RunKeepsBooksIff(s: Db, events: seq<Event>)
    requires BooksOk(AccountsOf(s))
    ensures BooksOkThroughout(s, events) <==> HarmlessRun(s, events)
  {
    hide BooksOk, Harmful, Step;
    if events != [] {
      var before := events[..|events| - 1];
      RunKeepsBooksIff(s, before);
      if BooksOk(AccountsOf(Run(s, before))) {
        StepKeepsBooksIff(Run(s, before), events[|events| - 1]);
      }
    }
  }

  /** The empty database has its books in order. */
  lemma EmptyBooks(coupons: map<Code, Coupon>)
    ensures BooksOk(AccountsOf(EmptyDb(coupons)))
  {
  }
}
