/** Wallet operations as changes of the books, and the ways a call touches one order. */
module EngineBooks {
  import opened Results
  import opened Sums
  import opened Rounding
  import opened Keys
  import opened Wallet
  import opened Tables
  import opened Books
  import opened BooksKept

  // ---------------------------------------------------------------- wallet operations as posts

  lemma CreditPosts(b: Bank, u: UserId, amount: int, ref: Ref, key: Key) returns (e: Entry)
    requires LedgerOk(b) && u in b.users && amount > 0 && !HasKey(b.ledger, key)
    ensures e == Entry(u, amount, CreditEntry, ref, key, b.users[u].balance + amount, b.users[u].reserved)
    ensures Credit(b, u, amount, ref, key).Success? && Posts(b, Credit(b, u, amount, ref, key).value, e)
  {
    assert CachedFromLedger(b, u);
    e := Entry(u, amount, CreditEntry, ref, key, b.users[u].balance + amount, b.users[u].reserved);
  }

  lemma DebitPosts(b: Bank, u: UserId, amount: int, ref: Ref, key: Key) returns (e: Entry)
    requires LedgerOk(b) && u in b.users && 0 < amount <= Available(b.users[u]) && !HasKey(b.ledger, key)
    ensures e == Entry(u, -amount, DebitEntry, ref, key, b.users[u].balance - amount, b.users[u].reserved)
    ensures Debit(b, u, amount, ref, key).Success? && Posts(b, Debit(b, u, amount, ref, key).value, e)
  {
    assert CachedFromLedger(b, u);
    e := Entry(u, -amount, DebitEntry, ref, key, b.users[u].balance - amount, b.users[u].reserved);
  }

  lemma ReservePosts(b: Bank, u: UserId, amount: int, ref: Ref, key: Key) returns (e: Entry)
    requires LedgerOk(b) && u in b.users && 0 < amount <= Available(b.users[u]) && !HasKey(b.ledger, key)
    ensures e == Entry(u, 0, ReserveEntry, ref, key, b.users[u].balance, b.users[u].reserved + amount)
    ensures Reserve(b, u, amount, ref, key).Success? && Posts(b, Reserve(b, u, amount, ref, key).value, e)
  {
    assert CachedFromLedger(b, u);
    e := Entry(u, 0, ReserveEntry, ref, key, b.users[u].balance, b.users[u].reserved + amount);
  }

  lemma ReleasePosts(b: Bank, u: UserId, amount: int, ref: Ref, key: Key) returns (e: Entry)
    requires LedgerOk(b) && u in b.users && 0 < amount && !HasKey(b.ledger, key)
    ensures e == Entry(u, 0, ReleaseEntry, ref, key, b.users[u].balance, Max(0, b.users[u].reserved - amount))
    ensures Release(b, u, amount, ref, key).Success? && Posts(b, Release(b, u, amount, ref, key).value, e)
  {
    assert CachedFromLedger(b, u);
    e := Entry(u, 0, ReleaseEntry, ref, key, b.users[u].balance, Max(0, b.users[u].reserved - amount));
  }

  lemma CapturePosts(b: Bank, u: UserId, amount: int, ref: Ref, key: Key) returns (e: Entry)
    requires LedgerOk(b) && u in b.users && 0 < amount <= b.users[u].reserved && !HasKey(b.ledger, key)
    ensures e == Entry(u, -amount, CaptureEntry, ref, key, b.users[u].balance - amount, b.users[u].reserved - amount)
    ensures Capture(b, u, amount, ref, key).Success? && Posts(b, Capture(b, u, amount, ref, key).value, e)
  {
    assert CachedFromLedger(b, u);
    e := Entry(u, -amount, CaptureEntry, ref, key, b.users[u].balance - amount, b.users[u].reserved - amount);
  }

  /** A credit that is refused or replays. */
  lemma CreditWithoutPost(b: Bank, u: UserId, amount: int, ref: Ref, key: Key)
    requires u in b.users
    ensures amount <= 0 ==> Credit(b, u, amount, ref, key).Failure?
    ensures amount > 0 && HasKey(b.ledger, key) ==> Credit(b, u, amount, ref, key) == Success(b)
  {
  }

  /** The credits that are neither a refund nor a deposit, each under its own key. */
  predicate PaysOutside(ref: Ref, key: Key) {
    || (ref.ForReferredOrder? && key == OrderCommissionKey(ref.order))
    || (ref.ForReferredDeposit? && key.DepositCommissionKey?)
    || (ref.ForAdmin? && key.AdjustmentKey?)
    || (ref.ForBonus? && key.WelcomeKey?)
  }

  lemma OutsideEntryOk(a: Accounts, e: Entry)
    requires PaysOutside(e.ref, e.key) && e.kind == CreditEntry && e.amount > 0
    ensures IsOutside(e.ref) && EntryOk(a, e) && !e.key.DepositKey?
  {
  }

  /** A credit outside orders keeps the books, whether it posts, replays or is refused. */
  lemma OutsideCreditKeeps(a: Accounts, u: UserId, amount: int, ref: Ref, key: Key)
    requires MoneyOk(a) && u in a.bank.users && PaysOutside(ref, key)
    ensures Credit(a.bank, u, amount, ref, key).Success? ==>
            Keeps(a, a.(bank := Credit(a.bank, u, amount, ref, key).value))
    ensures amount > 0 ==> Credit(a.bank, u, amount, ref, key).Success?
  {
    hide MoneyOk, Keeps, LedgerOk, EntriesOk, EntryOk, Posts, Credit, IsOutside, PaysOutside;
    LedgerOf(a);
    KeepsNothing(a);
    CreditWithoutPost(a.bank, u, amount, ref, key);
    if amount > 0 && !HasKey(a.bank.ledger, key) {
      var e := CreditPosts(a.bank, u, amount, ref, key);
      OutsideEntryOk(a, e);
      OutsidePostKeeps(a, Credit(a.bank, u, amount, ref, key).value, e);
    }
  }

  // ---------------------------------------------------------------- one order

  /** The parts of the books that calls look at. */
  lemma BooksAt(a: Accounts, i: nat)
    requires MoneyOk(a) && i < |a.orders|
    ensures RowOk(a, i) && RefundsOk(a, i) && a.orders[i].user in a.bank.users
    ensures 0 <= a.bank.users[a.orders[i].user].reserved <= a.bank.users[a.orders[i].user].balance
  {
    assert RowOk(a, i) && CachedFromLedger(a.bank, a.orders[i].user);
  }

  lemma LedgerOf(a: Accounts)
    requires MoneyOk(a)
    ensures LedgerOk(a.bank) && EntriesOk(a)
  {
  }

  lemma RecordAt(a: Accounts, key: Key)
    requires MoneyOk(a)
    ensures key in a.records ==> RecordOk(a, key)
  {
  }

  /** Where the reserve of its owner is exact, the hold of an order is fully there. */
  lemma HoldCovers(a: Accounts, i: nat)
    requires MoneyOk(a) && i < |a.orders| && IsHeld(a.orders[i])
    requires a.orders[i].user in a.bank.users && HoldsOk(a, a.orders[i].user)
    ensures a.bank.users[a.orders[i].user].reserved >= a.orders[i].charge > 0
  {
    var u := a.orders[i].user;
    assert RowOk(a, i);
    forall j | 0 <= j < |a.orders| ensures HeldBy(u)(a.orders[j]) >= 0 { assert RowOk(a, j); }
    SumAtLeast(a.orders, HeldBy(u), i);
  }

  lemma KeyIsFresh(a: Accounts, key: Key)
    requires EntriesOk(a)
    requires match key
             case ReserveKey(i) => i == |a.orders|
             case CaptureKey(i) => i < |a.orders| && !IsCaptured(a.orders[i])
             case ReleaseKey(i, _) => i < |a.orders| && a.orders[i].status !in {Failed, Canceled}
             case PartialKey(i) => key !in a.records
             case RefundKey(i, tag) =>
               i < |a.orders| && a.orders[i].status != Canceled && (tag != UserCancelTag ==> key !in a.records)
             case DepositKey(p) => p < |a.payments| && a.payments[p].status != Paid
             case PayoutKey(n) => n == |a.payouts|
             case _ => false
    ensures !HasKey(a.bank.ledger, key)
  {
    forall k | 0 <= k < |a.bank.ledger| ensures a.bank.ledger[k].key != key {
      assert EntryOk(a, a.bank.ledger[k]);
    }
  }

  /** Giving back the hold of a held order always succeeds; it clamps only when the hold is not there. */
  lemma ReleaseHeldKeeps(a: Accounts, i: nat, tag: ReleaseTag, o': Order)
    requires MoneyOk(a) && i < |a.orders| && IsHeld(a.orders[i]) && a.orders[i].user in a.bank.users
    requires o'.id == a.orders[i].id && o'.user == a.orders[i].user && o'.charge == a.orders[i].charge
    requires o'.provider.None? && o'.status in {Failed, Canceled}
    ensures var r := Release(a.bank, o'.user, o'.charge, ForOrder(i), ReleaseKey(i, tag));
            && r.Success?
            && r.value.users[o'.user].reserved == Max(0, a.bank.users[o'.user].reserved - o'.charge)
            && Keeps(a, a.(bank := r.value, orders := a.orders[i := o']))
  {
    hide MoneyOk, LedgerOk, EntriesOk, Keeps, HoldsOk, Posts, Release, OrderStep, HoldMoves, InFull, RefundsOk;
    BooksAt(a, i);
    LedgerOf(a);
    if HoldsOk(a, a.orders[i].user) { HoldCovers(a, i); }
    KeyIsFresh(a, ReleaseKey(i, tag));
    var e := ReleasePosts(a.bank, o'.user, o'.charge, ForOrder(i), ReleaseKey(i, tag));
    var r := Release(a.bank, o'.user, o'.charge, ForOrder(i), ReleaseKey(i, tag));
    var a' := a.(bank := r.value, orders := a.orders[i := o']);
    ReleaseIsStep(a, a', i, e);
    OrderStepKeeps(a, a', i, Some(e));
    PostedReserve(a.bank, r.value, e);
  }

  lemma PostedReserve(b: Bank, after: Bank, e: Entry)
    requires Posts(b, after, e)
    ensures e.user in after.users && after.users[e.user].reserved == e.reservedAfter
  {
  }

  lemma ReleaseIsStep(a: Accounts, a': Accounts, i: nat, e: Entry)
    requires i < |a.orders| == |a'.orders| && IsHeld(a.orders[i]) && a.orders[i].user in a.bank.users
    requires RowOk(a, i)
    requires Posts(a.bank, a'.bank, e) && a' == a.(bank := a'.bank, orders := a.orders[i := a'.orders[i]])
    requires Rewrites(a.orders[i], a'.orders[i]) && a'.orders[i].provider.None?
    requires a'.orders[i].status in {Failed, Canceled}
    requires e.user == a.orders[i].user && e.amount == 0 && e.kind == ReleaseEntry && e.ref == ForOrder(i)
    requires e.key.ReleaseKey? && e.key.order == i
    requires e.reservedAfter == Max(0, a.bank.users[e.user].reserved - a.orders[i].charge)
    ensures OrderStep(a, a', i, Some(e)) && InFull(a', i)
    ensures a.bank.users[e.user].reserved >= a.orders[i].charge ==> HoldMoves(a, a', i, Some(e))
  {
  }

  /** Capturing a held order succeeds exactly when its charge is reserved, and charges the order exactly. */
  lemma CaptureHeldKeeps(a: Accounts, i: nat, o': Order)
    requires MoneyOk(a) && i < |a.orders| && IsHeld(a.orders[i]) && a.orders[i].user in a.bank.users
    requires o'.id == a.orders[i].id && o'.user == a.orders[i].user && o'.charge == a.orders[i].charge
    requires o'.provider.Some? && o'.status == Processing
    ensures var r := Capture(a.bank, o'.user, o'.charge, ForOrder(i), CaptureKey(i));
            && (r.Success? <==> a.bank.users[o'.user].reserved >= o'.charge)
            && (r.Success? ==> r.value.users[o'.user].reserved == a.bank.users[o'.user].reserved - o'.charge)
            && (r.Success? ==> Keeps(a, a.(bank := r.value, orders := a.orders[i := o'])))
  {
    BooksAt(a, i);
    LedgerOf(a);
    RecordsOf(a);
    hide MoneyOk, LedgerOk, EntriesOk, RecordsOk, Keeps, HoldsOk, Posts;
    KeyIsFresh(a, CaptureKey(i));
    if a.bank.users[o'.user].reserved >= o'.charge {
      NoRecordsBeforeCapture(a, i);
      var e := CapturePosts(a.bank, o'.user, o'.charge, ForOrder(i), CaptureKey(i));
      var r := Capture(a.bank, o'.user, o'.charge, ForOrder(i), CaptureKey(i)).value;
      var a' := a.(bank := r, orders := a.orders[i := o']);
      CaptureIsStep(a, a', i, e);
      OrderStepKeeps(a, a', i, Some(e));
      PostedReserve(a.bank, r, e);
    }
  }

  lemma RecordsOf(a: Accounts)
    requires MoneyOk(a)
    ensures RecordsOk(a)
  {
  }

  lemma CaptureIsStep(a: Accounts, a': Accounts, i: nat, e: Entry)
    requires i < |a.orders| == |a'.orders| && IsHeld(a.orders[i]) && a.orders[i].user in a.bank.users
    requires a.orders[i].id == i && a.orders[i].charge > 0
    requires PartialKey(i) !in a.records && RefundKey(i, CanceledTag) !in a.records
             && RefundKey(i, FailedTag) !in a.records
    requires Posts(a.bank, a'.bank, e) && a' == a.(bank := a'.bank, orders := a.orders[i := a'.orders[i]])
    requires Rewrites(a.orders[i], a'.orders[i]) && a'.orders[i].provider.Some? && a'.orders[i].status == Processing
    requires e.user == a.orders[i].user && e.amount == -a.orders[i].charge && e.kind == CaptureEntry
    requires e.ref == ForOrder(i) && e.key == CaptureKey(i)
    requires e.reservedAfter == a.bank.users[e.user].reserved - a.orders[i].charge
    ensures OrderStep(a, a', i, Some(e)) && InFull(a', i) && HoldMoves(a, a', i, Some(e))
  {
  }

  lemma NoRecordsBeforeCapture(a: Accounts, i: nat)
    requires RecordsOk(a) && i < |a.orders| && !IsCaptured(a.orders[i])
    ensures PartialKey(i) !in a.records && RefundKey(i, CanceledTag) !in a.records
            && RefundKey(i, FailedTag) !in a.records
  {
    assert PartialKey(i) in a.records ==> RecordOk(a, PartialKey(i));
    assert RefundKey(i, CanceledTag) in a.records ==> RecordOk(a, RefundKey(i, CanceledTag));
    assert RefundKey(i, FailedTag) in a.records ==> RecordOk(a, RefundKey(i, FailedTag));
  }

  /** A row of an open order is rewritten and no money moves. */
  lemma RewriteKeeps(a: Accounts, i: nat, o': Order)
    requires MoneyOk(a) && i < |a.orders|
    requires Rewrites(a.orders[i], o')
    requires HoldOf(o') == HoldOf(a.orders[i]) && ChargeOf(o') == ChargeOf(a.orders[i])
    requires RefundOf(a.records, o') == RefundOf(a.records, a.orders[i])
    requires ClosedAfterCapture(o') || (IsCaptured(o') && o'.status == Canceled) ==>
             RefundOf(a.records, o') == o'.charge
    ensures Keeps(a, a.(orders := a.orders[i := o']))
  {
    hide MoneyOk, Keeps, HoldsOk;
    BooksAt(a, i);
    OrderStepKeeps(a, a.(orders := a.orders[i := o']), i, None);
  }

  /**
   * The three refunds of a captured order: a recorded partial refund that leaves it open, a
   * recorded closing refund, and the unrecorded credit of a user's cancel.
   */
  ghost predicate IsRefund(a: Accounts, a': Accounts, i: nat, amount: int, key: Key)
    requires i < |a.orders| == |a'.orders|
  {
    var o' := a'.orders[i];
    && key !in a.records
    && match key
       case PartialKey(j) =>
         j == i && a'.records == a.records[key := amount] && o'.status !in {Canceled, Failed, Refunded}
       case RefundKey(j, tag) =>
         && j == i && amount == o'.charge - RefundedOn(a, i)
         && if tag == UserCancelTag then a'.records == a.records && o'.status == Canceled && !CancelledFromPending(o')
            else a'.records == a.records[key := amount] && o'.status == Refunded
       case _ => false
  }

  lemma RefundKeeps(a: Accounts, a': Accounts, i: nat, amount: int, key: Key)
    requires MoneyOk(a) && i < |a.orders| == |a'.orders| && IsCaptured(a.orders[i]) && a.orders[i].user in a.bank.users
    requires 0 < amount <= a.orders[i].charge - RefundedOn(a, i)
    requires Rewrites(a.orders[i], a'.orders[i])
    requires IsRefund(a, a', i, amount, key)
    requires a' == a.(bank := a'.bank, orders := a.orders[i := a'.orders[i]], records := a'.records)
    requires Credit(a.bank, a.orders[i].user, amount, ForOrder(i), key) == Success(a'.bank)
    ensures Keeps(a, a')
  {
    BooksAt(a, i);
    LedgerOf(a);
    hide MoneyOk, LedgerOk, EntriesOk, Keeps, HoldsOk, Posts;
    KeyIsFresh(a, key);
    var e := CreditPosts(a.bank, a.orders[i].user, amount, ForOrder(i), key);
    RefundIsStep(a, a', i, amount, key, e);
    OrderStepKeeps(a, a', i, Some(e));
  }

  lemma RefundIsStep(a: Accounts, a': Accounts, i: nat, amount: int, key: Key, e: Entry)
    requires i < |a.orders| == |a'.orders| && IsCaptured(a.orders[i]) && a.orders[i].user in a.bank.users
    requires 0 < amount <= a.orders[i].charge - RefundedOn(a, i)
    requires RowOk(a, i) && RefundsOk(a, i)
    requires Rewrites(a.orders[i], a'.orders[i]) && IsRefund(a, a', i, amount, key)
    requires a' == a.(bank := a'.bank, orders := a.orders[i := a'.orders[i]], records := a'.records)
    requires Posts(a.bank, a'.bank, e)
    requires e.user == a.orders[i].user && e.amount == amount && e.kind == CreditEntry && e.ref == ForOrder(i)
             && e.key == key
    requires e.reservedAfter == a.bank.users[e.user].reserved
    ensures OrderStep(a, a', i, Some(e)) && InFull(a', i) && HoldMoves(a, a', i, Some(e))
  {
    assert RecordsGrow(a, a', i);
  }
}
