/**
 * Referral commissions over every run, harmful cancels included: what a commission entry can
 * look like, and which orders of a buyer earn one.
 */
module Commissions {
  import opened Results
  import opened Rounding
  import opened Keys
  import opened Wallet
  import opened Pricing
  import opened Tables
  import opened Referrals
  import opened Orders
  import opened Payments
  import opened Engine
  import opened Books
  import opened BooksKept
  import opened EngineKept
  import opened Lifecycle

  predicate IsCommission(e: Entry) {
    e.key.OrderCommissionKey? || e.key.DepositCommissionKey? || e.ref.ForReferredOrder? || e.ref.ForReferredDeposit?
  }

  predicate IsDeposit(e: Entry) {
    e.key.DepositKey? || e.ref.ForPayment?
  }

  // ---------------------------------------------------------------- what one call does to the bank

  /** The ledger grows, stays replayable, and no user or attribution is lost. */
  ghost predicate Extends(b: Bank, after: Bank) {
    && (LedgerOk(b) ==> LedgerOk(after))
    && b.ledger <= after.ledger
    && (forall u | u in b.users ::
         u in after.users && (b.users[u].referredBy.Some? ==> after.users[u].referredBy == b.users[u].referredBy))
  }

  ghost predicate Ordinary(b: Bank, after: Bank) {
    Extends(b, after) && forall k | |b.ledger| <= k < |after.ledger| ::
      !IsCommission(after.ledger[k]) && !IsDeposit(after.ledger[k])
  }

  /** One wallet call that is neither a commission nor a deposit. */
  lemma OrdinaryCall(b: Bank, c: Call)
    requires c.user in b.users && Attempt(b, c).Success?
    requires !c.key.OrderCommissionKey? && !c.key.DepositCommissionKey? && !c.ref.ForReferredOrder?
             && !c.ref.ForReferredDeposit?
    requires !c.key.DepositKey? && !c.ref.ForPayment?
    ensures Ordinary(b, Attempt(b, c).value)
  {
    CallExtends(b, c);
  }

  lemma CallExtends(b: Bank, c: Call)
    requires c.user in b.users && Attempt(b, c).Success?
    ensures Extends(b, Attempt(b, c).value)
    ensures var after := Attempt(b, c).value;
            forall k | |b.ledger| <= k < |after.ledger| ::
              && after.ledger[k].key == c.key && after.ledger[k].ref == c.ref && after.ledger[k].user == c.user
              && (c.CreditCall? ==> after.ledger[k].kind == CreditEntry && after.ledger[k].amount == c.amount)
    ensures HasKey(Attempt(b, c).value.ledger, c.key)
  {
    hide LedgerOk;
    if LedgerOk(b) { AttemptKeepsLedger(b, c); }
    CallPosts(b, c);
    assert Attempt(b, c).value == Perform(b, c);
    hide Attempt;
    var after := Attempt(b, c).value;
    assert HasKey(after.ledger, c.key) by { if after != b { assert after.ledger[|b.ledger|].key == c.key; } }
  }

  /** A call replays, or appends one entry and rewrites the money columns of its user. */
  lemma CallPosts(b: Bank, c: Call)
    requires c.user in b.users && Attempt(b, c).Success?
    ensures var after := Attempt(b, c).value;
            || (after == b && HasKey(b.ledger, c.key))
            || (&& |after.ledger| == |b.ledger| + 1
                && var e := after.ledger[|b.ledger|];
                && after.ledger == b.ledger + [e]
                && e.key == c.key && e.ref == c.ref && e.user == c.user
                && (c.CreditCall? ==> e.kind == CreditEntry && e.amount == c.amount)
                && after.users == b.users[c.user :=
                     b.users[c.user].(balance := e.balanceAfter, reserved := e.reservedAfter)])
  {
  }

  lemma OrdinaryTwice(b: Bank, mid: Bank, after: Bank)
    requires Ordinary(b, mid) && Ordinary(mid, after)
    ensures Ordinary(b, after)
  {
    hide LedgerOk;
    forall k | |b.ledger| <= k < |after.ledger| ensures !IsCommission(after.ledger[k]) && !IsDeposit(after.ledger[k]) {
      if k < |mid.ledger| { assert after.ledger[k] == mid.ledger[k]; }
    }
  }

  lemma OrdinaryNothing(b: Bank)
    ensures Ordinary(b, b)
  {
  }

  lemma PlaceIsOrdinary(s: Db, r: OrderRequest, answer: Answer)
    requires PlaceOrder(s, r, answer).Success?
    ensures Ordinary(s.bank, PlaceOrder(s, r, answer).value.bank)
  {
    hide CheckRequest, OpenOrder, Submit, Ordinary;
    var q := CheckRequest(s, r);
    if ReplaysOrder(s, r.key) {
      OrdinaryNothing(s.bank);
    } else {
      CheckedUser(s, r);
      var stored := OpenOrder(s, r, q.value, KeyToStore(s, r)).value;
      OpenIsOrdinary(s, r, q.value, KeyToStore(s, r));
      SubmitIsOrdinary(stored, |s.orders|, answer);
      OrdinaryTwice(s.bank, stored.bank, PlaceOrder(s, r, answer).value.bank);
    }
  }

  lemma OpenIsOrdinary(s: Db, r: OrderRequest, q: Quote, key: OrderKey)
    requires r.user in s.bank.users && OpenOrder(s, r, q, key).Success?
    ensures Ordinary(s.bank, OpenOrder(s, r, q, key).value.bank)
            && |OpenOrder(s, r, q, key).value.orders| == |s.orders| + 1
  {
    StoredRow(s, r, q, key);
    StoredOrder(s, r, q, key);
    hide OpenOrder, Ordinary;
    OrdinaryCall(s.bank, ReserveCall(r.user, q.charge, ForOrder(|s.orders|), ReserveKey(|s.orders|)));
    assert AccountsOf(OpenOrder(s, r, q, key).value).bank == OpenOrder(s, r, q, key).value.bank;
  }

  lemma SubmitIsOrdinary(s: Db, i: nat, answer: Answer)
    requires i < |s.orders| && Submit(s, i, answer).Success?
    ensures Ordinary(s.bank, Submit(s, i, answer).value.bank)
  {
    hide FailAndRelease, CaptureOrder, Ordinary;
    match answer
    case Accepted(id) => CaptureIsOrdinary(s, i, id);
    case Rejected => FailIsOrdinary(s, i, ProviderTag);
    case Broken => FailIsOrdinary(s, i, InternalTag);
    case _ => OrdinaryNothing(s.bank);
  }

  lemma FailIsOrdinary(s: Db, i: nat, tag: ReleaseTag)
    requires i < |s.orders| && FailAndRelease(s, i, tag).Success?
    ensures Ordinary(s.bank, FailAndRelease(s, i, tag).value.bank)
  {
    hide Ordinary;
    OrdinaryCall(s.bank, ReleaseCall(s.orders[i].user, s.orders[i].charge, ForOrder(i), ReleaseKey(i, tag)));
  }

  lemma CaptureIsOrdinary(s: Db, i: nat, id: string)
    requires i < |s.orders| && CaptureOrder(s, i, id).Success?
    ensures Ordinary(s.bank, CaptureOrder(s, i, id).value.bank)
  {
    hide Ordinary;
    OrdinaryCall(s.bank, CaptureCall(s.orders[i].user, s.orders[i].charge, ForOrder(i), CaptureKey(i)));
  }

  lemma CancelIsOrdinary(s: Db, i: nat, actor: UserId, staff: bool, confirmed: bool)
    requires i < |s.orders| && CancelOrder(s, i, actor, staff, confirmed).Success?
    ensures Ordinary(s.bank, CancelOrder(s, i, actor, staff, confirmed).value.bank)
  {
    hide Ordinary;
    var o := s.orders[i];
    OrdinaryNothing(s.bank);
    if ReturnFunds(s, i).value.bank != s.bank {
      if o.status in {Pending, AwaitingProvider} {
        OrdinaryCall(s.bank, ReleaseCall(o.user, o.charge, ForOrder(i), ReleaseKey(i, CancelTag)));
      } else {
        OrdinaryCall(s.bank, CreditCall(o.user, Owed(s, i), ForOrder(i), RefundKey(i, UserCancelTag)));
      }
    }
  }

  lemma ResolveIsOrdinary(s: Db, i: nat, release: bool, attach: Option<string>)
    requires i < |s.orders| && ResolveReview(s, i, release, attach).Success?
    ensures Ordinary(s.bank, ResolveReview(s, i, release, attach).value.bank)
  {
    hide Ordinary, FailAndRelease, CaptureOrder;
    if release {
      FailIsOrdinary(s, i, ReviewTag);
    } else {
      CaptureIsOrdinary(s, i, if |attach.value| > 64 then attach.value[..64] else attach.value);
    }
  }

  lemma PartialIsOrdinary(s: Db, i: nat, remains: int)
    requires i < |s.orders| && MaybePartialRefund(s, i, remains).Success?
    ensures Ordinary(s.bank, MaybePartialRefund(s, i, remains).value.bank)
  {
    hide Ordinary, PartialShare;
    var o := s.orders[i];
    OrdinaryNothing(s.bank);
    if MaybePartialRefund(s, i, remains).value != s {
      OrdinaryCall(s.bank, CreditCall(o.user, Min(PartialShare(o, remains), Owed(s, i)), ForOrder(i), PartialKey(i)));
    }
  }

  lemma CloseIsOrdinary(s: Db, i: nat, tag: RefundTag)
    requires i < |s.orders| && RefundIfNeeded(s, i, tag).Success?
    ensures Ordinary(s.bank, RefundIfNeeded(s, i, tag).value.bank)
  {
    hide Ordinary;
    var o := s.orders[i];
    OrdinaryNothing(s.bank);
    if RefundIfNeeded(s, i, tag).value != s {
      OrdinaryCall(s.bank, CreditCall(o.user, Owed(s, i), ForOrder(i), RefundKey(i, tag)));
    }
  }

  /** A provider report that completes an open order. */
  predicate Completes(s: Db, e: Event) {
    && e.Sync? && e.order < |s.orders|
    && !Terminal(s.orders[e.order].status) && HasProvider(s.orders[e.order])
    && e.report.Report? && e.report.status == Completed
  }

  /** The state in which the commission of a completed order is worked out. */
  function CompletedState(s: Db, e: Event): Db
    requires Completes(s, e)
  {
    var seen := Observe(s.orders[e.order], e.report.startCount, e.report.remains);
    SetOrder(s, e.order, Move(seen, Completed))
  }

  lemma CompletingSync(s: Db, e: Event)
    requires Completes(s, e)
    ensures Handle(s, e) == CreditOrderCommission(CompletedState(s, e), e.order)
  {
  }

  lemma SyncIsOrdinary(s: Db, i: nat, report: PanelReport)
    requires i < |s.orders| && !Completes(s, Sync(i, report)) && SyncOrder(s, i, report).Success?
    ensures Ordinary(s.bank, SyncOrder(s, i, report).value.bank)
  {
    hide Ordinary, MaybePartialRefund, RefundIfNeeded;
    var o := s.orders[i];
    OrdinaryNothing(s.bank);
    if !Terminal(o.status) && HasProvider(o) && report.Report? && report.status != o.status {
      var moved := SetOrder(s, i, Move(Observe(o, report.startCount, report.remains), report.status));
      if report.status == Partial && report.remains.Some? {
        PartialIsOrdinary(moved, i, report.remains.value);
      } else if report.status in {Canceled, Failed} {
        CloseIsOrdinary(moved, i, TagOf(report.status));
      }
    }
  }

  /** Users may join or change their profile without the ledger or any wallet noticing. */
  lemma SameWalletsKeepLedger(b: Bank, after: Bank)
    requires SameWallets(b, after) && LedgerOk(b)
    ensures LedgerOk(after)
  {
    forall k | 0 <= k < |after.ledger| ensures Replays(after.ledger, k) { assert Replays(b.ledger, k); }
    forall u | u in after.users ensures CachedFromLedger(after, u) {
      if u in b.users { assert CachedFromLedger(b, u); } else { NoEntriesOf(b.ledger, u); }
    }
  }

  /** Joining, profile changes and attribution never touch money. */
  lemma UserCallWallets(s: Db, e: Event)
    requires (e.Join? || e.Profile? || e.StartLink?) && Handle(s, e).Success?
    ensures var b, after := s.bank, Handle(s, e).value.bank;
            && SameWallets(b, after)
            && forall u | u in b.users :: b.users[u].referredBy.Some? ==>
                 after.users[u].referredBy == b.users[u].referredBy
  {
    hide PlaceOrder, SyncOrder, RefillOrder, CancelOrder, ResolveReview, FlagStuck, HandleWebhook, CheckPayment,
      ManualConfirm, Reconcile, CreateDeposit, RequestPayout, AdjustBy, WelcomeBonus;
  }

  lemma UserCallIsOrdinary(s: Db, e: Event)
    requires (e.Join? || e.Profile? || e.StartLink?) && Handle(s, e).Success?
    ensures Ordinary(s.bank, Handle(s, e).value.bank)
  {
    hide LedgerOk, Handle;
    UserCallWallets(s, e);
    if LedgerOk(s.bank) { SameWalletsKeepLedger(s.bank, Handle(s, e).value.bank); }
  }

  lemma MoneyCallIsOrdinary(s: Db, e: Event)
    requires (e.Adjust? || e.Welcome? || e.RequestPayoutOf?) && Handle(s, e).Success?
    ensures Ordinary(s.bank, Handle(s, e).value.bank)
  {
    hide Ordinary;
    match e
    case Adjust(u, amount, actor, nonce) =>
      OrdinaryCall(s.bank, if amount > 0 then CreditCall(u, amount, ForAdmin(actor), AdjustmentKey(nonce))
                           else DebitCall(u, -amount, ForAdmin(actor), AdjustmentKey(nonce)));
    case Welcome(u, bonus) => OrdinaryCall(s.bank, CreditCall(u, bonus, ForBonus, WelcomeKey(u)));
    case RequestPayoutOf(u, amount) =>
      OrdinaryCall(s.bank, DebitCall(u, amount, ForPayout(|s.payouts|), PayoutKey(|s.payouts|)));
  }

  // ---------------------------------------------------------------- commissions

  /** An 8% commission: for an order of somebody the payee referred. */
  ghost predicate OrderRewardOk(s: Db, e: Entry) {
    && e.ref.ForReferredOrder? && e.ref.order < |s.orders| && e.key == OrderCommissionKey(e.ref.order)
    && e.kind == CreditEntry && e.amount == Commission(s.orders[e.ref.order].charge, REFERRAL_ORDER_COMMISSION_PERCENT)
    && ReferrerOf(s.bank, s.orders[e.ref.order].user) == Some(e.user)
  }

  /** A 5% commission: for a deposit of somebody the payee referred, under that buyer's one key. */
  ghost predicate DepositRewardOk(s: Db, e: Entry) {
    && e.ref.ForReferredDeposit? && e.ref.payment < |s.payments|
    && e.key == DepositCommissionKey(s.payments[e.ref.payment].user)
    && e.kind == CreditEntry
    && e.amount == Commission(s.payments[e.ref.payment].amount, REFERRAL_DEPOSIT_COMMISSION_PERCENT)
    && ReferrerOf(s.bank, s.payments[e.ref.payment].user) == Some(e.user)
  }

  ghost predicate CommissionOk(s: Db, e: Entry) {
    IsCommission(e) ==> OrderRewardOk(s, e) || DepositRewardOk(s, e)
  }

  ghost predicate CommissionsOk(s: Db) {
    && LedgerOk(s.bank)
    && forall k | 0 <= k < |s.bank.ledger| :: CommissionOk(s, s.bank.ledger[k])
  }

  /** Rows keep the facts that commissions were computed from. */
  ghost predicate RowsStay(s: Db, after: Db) {
    && |s.orders| <= |after.orders| && |s.payments| <= |after.payments|
    && (forall i | 0 <= i < |s.orders| ::
         after.orders[i].user == s.orders[i].user && after.orders[i].charge == s.orders[i].charge)
    && (forall p | 0 <= p < |s.payments| ::
         after.payments[p].user == s.payments[p].user && after.payments[p].amount == s.payments[p].amount)
  }

  lemma CommissionStays(s: Db, after: Db, e: Entry)
    requires CommissionOk(s, e) && Extends(s.bank, after.bank) && RowsStay(s, after)
    ensures CommissionOk(after, e)
  {
    hide LedgerOk, Commission;
  }

  /** A deposit call: it keeps the rows, and its new commissions are deposit commissions. */
  ghost predicate Rewarding(s: Db, after: Db) {
    && Extends(s.bank, after.bank) && RowsStay(s, after) && after.orders == s.orders && |after.payments| == |s.payments|
    && forall k | |s.bank.ledger| <= k < |after.bank.ledger| && IsCommission(after.bank.ledger[k]) ::
         DepositRewardOk(after, after.bank.ledger[k])
  }

  lemma RewardingNothing(s: Db, after: Db)
    requires after.bank == s.bank && RowsStay(s, after) && after.orders == s.orders && |after.payments| == |s.payments|
    ensures Rewarding(s, after)
  {
  }

  lemma RewardingTwice(s: Db, mid: Db, after: Db)
    requires Rewarding(s, mid) && Rewarding(mid, after)
    ensures Rewarding(s, after)
  {
    hide LedgerOk, Commission;
    forall k | |s.bank.ledger| <= k < |after.bank.ledger| && IsCommission(after.bank.ledger[k])
      ensures DepositRewardOk(after, after.bank.ledger[k])
    {
      if k < |mid.bank.ledger| { assert after.bank.ledger[k] == mid.bank.ledger[k]; }
    }
  }

  lemma CommissionRewards(s: Db, p: nat)
    requires p < |s.payments| && CreditDepositCommission(s, p).Success?
    ensures Rewarding(s, CreditDepositCommission(s, p).value)
    ensures CreditDepositCommission(s, p).value == s.(bank := CreditDepositCommission(s, p).value.bank)
    ensures var ledger := CreditDepositCommission(s, p).value.bank.ledger;
            forall k | |s.bank.ledger| <= k < |ledger| :: !IsDeposit(ledger[k])
  {
    hide LedgerOk, Commission;
    var after := CreditDepositCommission(s, p).value;
    if after != s {
      var buyer := s.payments[p].user;
      var c := CreditCall(ReferrerOf(s.bank, buyer).value,
        Commission(s.payments[p].amount, REFERRAL_DEPOSIT_COMMISSION_PERCENT),
                          ForReferredDeposit(p), DepositCommissionKey(buyer));
      assert after.bank == Attempt(s.bank, c).value;
      CallExtends(s.bank, c);
      hide Credit, Attempt;
    }
  }

  lemma DepositCredits(s: Db, p: nat)
    requires p < |s.payments| && s.payments[p].user in s.bank.users
    requires Credit(s.bank, s.payments[p].user, s.payments[p].amount, ForPayment(p), DepositKey(p)).Success?
    ensures Rewarding(s,
            s.(bank := Credit(s.bank, s.payments[p].user, s.payments[p].amount, ForPayment(p), DepositKey(p)).value))
  {
    hide LedgerOk;
    CallExtends(s.bank, CreditCall(s.payments[p].user, s.payments[p].amount, ForPayment(p), DepositKey(p)));
    hide Credit;
  }

  lemma SettleRewards(s: Db, p: nat, r: Receipt)
    requires p < |s.payments| && Settle(s, p, r).Success?
    ensures Rewarding(s, Settle(s, p, r).value)
  {
    hide Rewarding, CreditDepositCommission, Credit, Verdict;
    var row := s.payments[p];
    var after := Settle(s, p, r).value;
    var verdict := Verdict(row, r, row.user in s.bank.users);
    if verdict == Credited {
      VerdictMeans(row, r, row.user in s.bank.users);
      var credited := s.(bank := Credit(s.bank, row.user, row.amount, ForPayment(p), DepositKey(p)).value);
      DepositCredits(s, p);
      CommissionRewards(credited, p);
      var rewarded := CreditDepositCommission(credited, p).value;
      RewardingTwice(s, credited, rewarded);
      PaidRowStays(rewarded, p, r.ref);
      RewardingTwice(s, rewarded, after);
    } else {
      RewardingNothing(s, after);
    }
  }

  lemma PaidRowStays(s: Db, p: nat, ref: Option<string>)
    requires p < |s.payments|
    ensures Rewarding(s, SetPayment(s, p, PaidRow(s.payments[p], ref)))
  {
    RewardingNothing(s, SetPayment(s, p, PaidRow(s.payments[p], ref)));
  }

  lemma AnswerRewards(s: Db, p: nat, gateway: string, answer: GatewayAnswer)
    requires p < |s.payments| && ApplyAnswer(s, p, gateway, answer).Success?
    ensures Rewarding(s, ApplyAnswer(s, p, gateway, answer).value)
  {
    hide Settle, Rewarding;
    match answer
    case SaysPaid(amount, currency) =>
      SettleRewards(s, p, Receipt(gateway, s.payments[p].ref, amount, currency, false));
    case _ => RewardingNothing(s, ApplyAnswer(s, p, gateway, answer).value);
  }

  lemma {:induction false} ReconcileRewards(s: Db, rows: seq<nat>, gateway: string, answers: map<nat, GatewayAnswer>)
    requires ReconcileAll(s, rows, gateway, answers).Success?
    ensures Rewarding(s, ReconcileAll(s, rows, gateway, answers).value)
  {
    hide ApplyAnswer, Rewarding;
    RewardingNothing(s, s);
    if rows != [] {
      var p := rows[|rows| - 1];
      ReconcileRewards(s, rows[..|rows| - 1], gateway, answers);
      var before := ReconcileAll(s, rows[..|rows| - 1], gateway, answers).value;
      if p in answers && p < |before.payments| {
        AnswerRewards(before, p, gateway, answers[p]);
        RewardingTwice(s, before, ReconcileAll(s, rows, gateway, answers).value);
      }
    }
  }

  lemma WebhookRewards(s: Db, gateway: string, n: Notice)
    requires HandleWebhook(s, gateway, n).Success?
    ensures Rewarding(s, HandleWebhook(s, gateway, n).value)
  {
    hide Settle, Rewarding;
    var known := s.(seen := s.seen + {(gateway, n.id)});
    var after := HandleWebhook(s, gateway, n).value;
    RewardingNothing(s, known);
    if (gateway, n.id) in s.seen {
      RewardingNothing(s, s);
    } else if n.payment.Some? && n.payment.value < |s.payments| {
      if n.kind == PaidNotice {
        SettleRewards(known, n.payment.value, Receipt(gateway, n.ref, n.amount, n.currency, false));
      } else {
        RewardingNothing(known, after);
      }
      RewardingTwice(s, known, after);
    }
  }

  lemma DepositCallRewards(s: Db, e: Event)
    requires (e.Webhook? || e.Check? || e.Confirm? || e.ReconcilePending?) && Handle(s, e).Success?
    ensures Rewarding(s, Handle(s, e).value)
  {
    hide Settle, Rewarding, HandleWebhook, ApplyAnswer, ReconcileAll;
    RewardingNothing(s, s);
    match e
    case Webhook(gateway, notice) => WebhookRewards(s, gateway, notice);
    case Check(p, user, said) => if Handle(s, e).value != s { AnswerRewards(s, p, RAZORPAY, said); }
    case Confirm(p) =>
      if p < |s.payments| {
        var row := s.payments[p];
        SettleRewards(s, p, Receipt(row.gateway, row.ref, Some(row.amount), Some(row.currency), true));
      }
    case ReconcilePending(gateway, aged, limit, answers) =>
      ReconcileRewards(s, ToReconcile(s.payments, gateway, aged, limit), gateway, answers);
  }

  // ---------------------------------------------------------------- the other calls

  lemma CreditSucceeds(b: Bank, u: UserId, amount: int, ref: Ref, key: Key)
    requires LedgerOk(b) && u in b.users && amount > 0
    ensures Credit(b, u, amount, ref, key).Success?
  {
    assert CachedFromLedger(b, u);
  }

  /** Working out the commission of a completed order: it succeeds, and posts at most that order's commission. */
  lemma CompletionRewards(s: Db, i: nat)
    requires LedgerOk(s.bank) && i < |s.orders| && s.orders[i].status == Completed
    ensures CreditOrderCommission(s, i).Success?
    ensures var after := CreditOrderCommission(s, i).value;
            && after == s.(bank := after.bank)
            && Extends(s.bank, after.bank)
            && (forall k | |s.bank.ledger| <= k < |after.bank.ledger| ::
                  OrderRewardOk(after, after.bank.ledger[k]) && after.bank.ledger[k].ref.order == i)
            && (OrderCommissionDue(s, i) > 0 ==> HasKey(after.bank.ledger, OrderCommissionKey(i)))
            && (OrderCommissionDue(s, i) <= 0 ==> after.bank == s.bank)
  {
    hide LedgerOk, Commission;
    var due := OrderCommissionDue(s, i);
    if due > 0 {
      var referrer := ReferrerOf(s.bank, s.orders[i].user).value;
      CreditSucceeds(s.bank, referrer, due, ForReferredOrder(i), OrderCommissionKey(i));
      var c := CreditCall(referrer, due, ForReferredOrder(i), OrderCommissionKey(i));
      CallExtends(s.bank, c);
      assert CreditOrderCommission(s, i).value.bank == Attempt(s.bank, c).value;
      hide Attempt, Credit;
    }
  }

  /** A call that neither settles deposits nor completes an order posts no commission. */
  lemma OtherCallIsOrdinary(s: Db, e: Event)
    requires Handle(s, e).Success? && !Completes(s, e) && !(e.Webhook? || e.Check? || e.Confirm? || e.ReconcilePending?)
    ensures Ordinary(s.bank, Handle(s, e).value.bank)
  {
    hide Ordinary, PlaceOrder, SyncOrder, CancelOrder, ResolveReview, Credit, Debit;
    OrdinaryNothing(s.bank);
    match e
    case Place(request, answer) => PlaceIsOrdinary(s, request, answer);
    case Sync(i, report) => SyncIsOrdinary(s, i, report);
    case Cancel(i, actor, staff, confirmed) => CancelIsOrdinary(s, i, actor, staff, confirmed);
    case Resolve(i, release, attach) => ResolveIsOrdinary(s, i, release, attach);
    case Join(_) => UserCallIsOrdinary(s, e);
    case Profile(_, _, _) => UserCallIsOrdinary(s, e);
    case StartLink(_, _) => UserCallIsOrdinary(s, e);
    case Adjust(_, _, _, _) => MoneyCallIsOrdinary(s, e);
    case Welcome(_, _) => MoneyCallIsOrdinary(s, e);
    case RequestPayoutOf(_, _) => MoneyCallIsOrdinary(s, e);
    case _ =>
  }
}
