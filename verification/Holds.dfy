/**
 * The reserve of one user, over every run: it is the sum of that user's held orders until a
 * synced-back pending order of the same user is cancelled while something is reserved.
 */
module Holds {
  import opened Results
  import opened Sums
  import opened Rounding
  import opened Keys
  import opened Wallet
  import opened Pricing
  import opened Tables
  import opened Referrals
  import opened Orders
  import opened Payments
  import opened Engine
  import opened Books
  import opened BooksKept
  import opened EngineBooks
  import opened EngineKept
  import opened Lifecycle

  // ---------------------------------------------------------------- exact reserves

  /** A cancel of this user's synced-back pending order while something is reserved for the user. */
  predicate HarmsHolds(s: Db, e: Event, u: UserId) {
    CancelsPending(s, e) && s.orders[e.order].user == u && u in s.bank.users && s.bank.users[u].reserved > 0
  }

  /** An exact reserve stays exact if and only if the call is not such a cancel. */
  lemma StepHoldsIff(s: Db, e: Event, u: UserId)
    requires MoneyOk(AccountsOf(s)) && u in s.bank.users && HoldsOk(AccountsOf(s), u)
    ensures u in Step(s, e).bank.users
    ensures HoldsOk(AccountsOf(Step(s, e)), u) <==> !HarmsHolds(s, e, u)
  {
    hide MoneyOk, HoldsOk, CancelsSyncedPending, Step;
    if CancelsPending(s, e) {
      CancelStep(s, e);
      SyncedPendingRow(s, e.order, e.actor, e.staff, e.confirmed);
      hide CancelOrder, InFull;
      PendingCancelOutcome(s, e.order, e.actor, e.staff, e.confirmed);
      ReserveNotNegative(s, u);
    } else {
      StepKeepsMoney(s, e);
    }
  }

  lemma ReserveNotNegative(s: Db, u: UserId)
    requires MoneyOk(AccountsOf(s)) && u in s.bank.users
    ensures s.bank.users[u].reserved >= 0
  {
    assert CachedFromLedger(s.bank, u);
  }

  /** A user who joins has nothing reserved and no orders. */
  lemma JoiningHolds(s: Db, e: Event, u: UserId)
    requires MoneyOk(AccountsOf(s)) && u !in s.bank.users && u in Step(s, e).bank.users
    ensures HoldsOk(AccountsOf(Step(s, e)), u)
  {
    hide MoneyOk, HoldsOk, CancelsSyncedPending, Step;
    if CancelsPending(s, e) {
      CancelStep(s, e);
      hide CancelOrder, InFull;
      PendingCancelOutcome(s, e.order, e.actor, e.staff, e.confirmed);
      assert false;
    } else {
      StepKeepsMoney(s, e);
    }
  }

  /** The reserve of the user is exact in every state a run passes through. */
  ghost predicate HoldsThroughout(s: Db, events: seq<Event>, u: UserId) {
    && (events != [] ==> HoldsThroughout(s, events[..|events| - 1], u))
    && (u in Run(s, events).bank.users ==> HoldsOk(AccountsOf(Run(s, events)), u))
  }

  predicate UnharmedRun(s: Db, events: seq<Event>, u: UserId) {
    events != [] ==>
      var before := events[..|events| - 1];
      UnharmedRun(s, before, u) && !HarmsHolds(Run(s, before), events[|events| - 1], u)
  }

  /**
   * Over every run: the reserve of a user is exactly the charges of that user's held orders, in
   * every state, if and only if no synced-back pending order of the same user is cancelled while
   * something is reserved. What happens to other users makes no difference.
   */
  lemma {:induction false} RunHoldsIff(s: Db, events: seq<Event>, u: UserId)
    requires MoneyOk(AccountsOf(s)) && (u in s.bank.users ==> HoldsOk(AccountsOf(s), u))
    ensures HoldsThroughout(s, events, u) <==> UnharmedRun(s, events, u)
  {
    hide MoneyOk, HoldsOk, HarmsHolds, Step;
    if events != [] {
      var before, e := events[..|events| - 1], events[|events| - 1];
      RunHoldsIff(s, before, u);
      RunKeepsMoney(s, before);
      var t := Run(s, before);
      if u in t.bank.users {
        if HoldsOk(AccountsOf(t), u) { StepHoldsIff(t, e, u); }
      } else {
        NoHarmToStrangers(t, e, u);
        if u in Step(t, e).bank.users { JoiningHolds(t, e, u); }
      }
      if HoldsThroughout(s, before, u) { HoldsInTheEnd(s, before, u); }
    }
  }

  lemma NoHarmToStrangers(s: Db, e: Event, u: UserId)
    requires u !in s.bank.users
    ensures !HarmsHolds(s, e, u)
  {
  }

  lemma HoldsInTheEnd(s: Db, events: seq<Event>, u: UserId)
    requires HoldsThroughout(s, events, u)
    ensures u in Run(s, events).bank.users ==> HoldsOk(AccountsOf(Run(s, events)), u)
  {
    hide HoldsOk, Step;
  }

  /**
   * In every state of a run that cancels no synced-back pending order of the user at the wrong
   * time: the user's reserve is exactly the charges of the held orders, giving one of these holds
   * back takes off its whole charge, and capturing one never raises.
   */
  lemma HoldsAreTheHeldOrders(coupons: map<Code, Coupon>, events: seq<Event>, u: UserId, i: nat, tag: ReleaseTag,
      id: string)
    requires UnharmedRun(EmptyDb(coupons), events, u) && u in Run(EmptyDb(coupons), events).bank.users
    ensures var s := Run(EmptyDb(coupons), events);
            && s.bank.users[u].reserved == Sum(s.orders, HeldBy(u))
            && (i < |s.orders| && IsHeld(s.orders[i]) && s.orders[i].user == u ==>
                  && s.bank.users[u].reserved >= s.orders[i].charge
                  && CaptureOrder(s, i, id).Success?
                  && FailAndRelease(s, i, tag).Success? && u in FailAndRelease(s, i, tag).value.bank.users
                  && FailAndRelease(s, i, tag).value.bank.users[u].reserved
                       == s.bank.users[u].reserved - s.orders[i].charge)
  {
    EmptyBooks(coupons);
    hide MoneyOk, HoldsOk, UnharmedRun, HoldsThroughout, Run, EmptyDb, FailAndRelease, CaptureOrder;
    RunHoldsIff(EmptyDb(coupons), events, u);
    RunKeepsMoney(EmptyDb(coupons), events);
    HoldsInTheEnd(EmptyDb(coupons), events, u);
    var s := Run(EmptyDb(coupons), events);
    ExactReserve(AccountsOf(s), u);
    if i < |s.orders| && IsHeld(s.orders[i]) && s.orders[i].user == u { HeldOrderIsCovered(s, i, tag, id); }
  }

  lemma ExactReserve(a: Accounts, u: UserId)
    requires u in a.bank.users && HoldsOk(a, u)
    ensures a.bank.users[u].reserved == Sum(a.orders, HeldBy(u))
  {
  }

  lemma HeldOrderIsCovered(s: Db, i: nat, tag: ReleaseTag, id: string)
    requires MoneyOk(AccountsOf(s)) && i < |s.orders| && IsHeld(s.orders[i])
    requires s.orders[i].user in s.bank.users && HoldsOk(AccountsOf(s), s.orders[i].user)
    ensures var u := s.orders[i].user;
            && s.bank.users[u].reserved >= s.orders[i].charge > 0
            && CaptureOrder(s, i, id).Success?
            && FailAndRelease(s, i, tag).Success? && u in FailAndRelease(s, i, tag).value.bank.users
            && FailAndRelease(s, i, tag).value.bank.users[u].reserved == s.bank.users[u].reserved - s.orders[i].charge
  {
    hide MoneyOk, HoldsOk, FailAndRelease, CaptureOrder, Keeps;
    HoldCovers(AccountsOf(s), i);
    FailKeeps(s, i, tag);
    CaptureKeeps(s, i, id);
  }

  // ---------------------------------------------------------------- an order under review

  /**
   * An order under review keeps its funds: through any calls but its own resolution, and as long
   * as no synced-back pending order of its owner is cancelled over the reserve, it stays as it is,
   * its charge stays reserved, and both of its resolutions go through.
   */
  lemma ReviewHoldsFunds(s: Db, events: seq<Event>, i: nat, id: string)
    requires MoneyOk(AccountsOf(s)) && OrdersOk(s) && i < |s.orders| && s.orders[i].status == Review
    requires s.orders[i].user in s.bank.users ==> HoldsOk(AccountsOf(s), s.orders[i].user)
    requires UnharmedRun(s, events, s.orders[i].user) && id != ""
    requires forall k | 0 <= k < |events| :: !(events[k].Resolve? && events[k].order == i)
    ensures var t, o := Run(s, events), s.orders[i];
            && i < |t.orders| && t.orders[i] == o
            && o.user in t.bank.users && t.bank.users[o.user].reserved >= o.charge > 0
            && ResolveReview(t, i, true, None).Success?
            && ResolveReview(t, i, false, Some(id)).Success?
  {
    hide MoneyOk, OrdersOk, HoldsOk, UnharmedRun, HoldsThroughout, Run, ResolveReview;
    ReviewStays(s, events, i);
    RunHoldsIff(s, events, s.orders[i].user);
    RunKeepsMoney(s, events);
    HoldsInTheEnd(s, events, s.orders[i].user);
    var t := Run(s, events);
    BooksAt(AccountsOf(t), i);
    HeldOrderIsCovered(t, i, ReviewTag, id);
    ResolveKeeps(t, i, true, None);
    ResolveKeeps(t, i, false, Some(id));
  }

  // ---------------------------------------------------------------- which calls take a reserve away

  /** The order whose hold a call gives back or captures: a pending cancel, or a closed review. */
  predicate Frees(s: Db, e: Event, j: nat) {
    && j < |s.orders| && Handle(s, e).Success?
    && ((e.Cancel? && e.order == j && s.orders[j].status in {Pending, AwaitingProvider})
         || (e.Resolve? && e.order == j))
  }

  predicate FreesFor(s: Db, e: Event, u: UserId) {
    (e.Cancel? || e.Resolve?) && Frees(s, e, e.order) && s.orders[e.order].user == u
  }

  /** No wallet loses reserved funds. */
  ghost predicate NeverLowers(b: Bank, after: Bank) {
    forall u | u in b.users :: u in after.users && after.users[u].reserved >= b.users[u].reserved
  }

  /** Every other wallet is as it was. */
  ghost predicate OthersStay(b: Bank, after: Bank, u: UserId) {
    && u in after.users
    && forall v | v in b.users && v != u :: v in after.users && after.users[v] == b.users[v]
  }

  lemma CreditLeavesReserves(b: Bank, u: UserId, amount: int, ref: Ref, key: Key)
    requires u in b.users
    ensures Credit(b, u, amount, ref, key).Success? ==> NeverLowers(b, Credit(b, u, amount, ref, key).value)
    ensures Debit(b, u, amount, ref, key).Success? ==> NeverLowers(b, Debit(b, u, amount, ref, key).value)
  {
  }

  lemma NeverLowersTwice(b: Bank, mid: Bank, after: Bank)
    requires NeverLowers(b, mid) && NeverLowers(mid, after)
    ensures NeverLowers(b, after)
  {
  }

  lemma OpenOthers(s: Db, r: OrderRequest, q: Quote, key: OrderKey)
    requires r.user in s.bank.users && OpenOrder(s, r, q, key).Success?
    ensures OthersStay(s.bank, OpenOrder(s, r, q, key).value.bank, r.user)
  {
  }

  lemma FailOthers(s: Db, i: nat, tag: ReleaseTag)
    requires i < |s.orders| && FailAndRelease(s, i, tag).Success?
    ensures OthersStay(s.bank, FailAndRelease(s, i, tag).value.bank, s.orders[i].user)
  {
  }

  lemma CaptureOthers(s: Db, i: nat, id: string)
    requires i < |s.orders| && CaptureOrder(s, i, id).Success?
    ensures OthersStay(s.bank, CaptureOrder(s, i, id).value.bank, s.orders[i].user)
  {
  }

  lemma SubmitReserve(s: Db, i: nat, answer: Answer)
    requires MoneyOk(AccountsOf(s)) && i < |s.orders| && IsHeld(s.orders[i]) && Submit(s, i, answer).Success?
    ensures var after, u := Submit(s, i, answer).value.bank, s.orders[i].user;
            && u in s.bank.users && OthersStay(s.bank, after, u)
            && after.users[u].reserved >= s.bank.users[u].reserved - s.orders[i].charge
  {
    hide MoneyOk, Keeps, FailAndRelease, CaptureOrder;
    BooksAt(AccountsOf(s), i);
    match answer
    case Accepted(id) => CaptureKeeps(s, i, id); CaptureOthers(s, i, id);
    case Rejected => FailKeeps(s, i, ProviderTag); FailOthers(s, i, ProviderTag);
    case Broken => FailKeeps(s, i, InternalTag); FailOthers(s, i, InternalTag);
    case _ =>
  }

  /** Placing reserves a charge and at most gives that charge up again. */
  lemma PlaceReserve(s: Db, r: OrderRequest, answer: Answer)
    requires MoneyOk(AccountsOf(s)) && PlaceOrder(s, r, answer).Success?
    ensures NeverLowers(s.bank, PlaceOrder(s, r, answer).value.bank)
  {
    hide MoneyOk, Keeps, CheckRequest, OpenOrder, Submit;
    if !ReplaysOrder(s, r.key) {
      CheckedUser(s, r);
      var q, key := CheckRequest(s, r).value, KeyToStore(s, r);
      var stored := OpenOrder(s, r, q, key).value;
      OpenOrderKeeps(s, r, q, key);
      OpenOthers(s, r, q, key);
      SubmitReserve(stored, |s.orders|, answer);
    }
  }

  lemma SyncReserve(s: Db, i: nat, report: PanelReport)
    requires i < |s.orders| && SyncOrder(s, i, report).Success?
    ensures NeverLowers(s.bank, SyncOrder(s, i, report).value.bank)
  {
    hide MaybePartialRefund, RefundIfNeeded, CreditOrderCommission;
    var o := s.orders[i];
    if !Terminal(o.status) && HasProvider(o) && report.Report? && report.status != o.status {
      var moved := SetOrder(s, i, Move(Observe(o, report.startCount, report.remains), report.status));
      if report.status == Partial && report.remains.Some? {
        PartialReserve(moved, i, report.remains.value);
      } else if report.status in {Canceled, Failed} {
        ClosingReserve(moved, i, TagOf(report.status));
      } else if report.status == Completed {
        CommissionReserve(moved, i);
      }
    }
  }

  lemma PartialReserve(s: Db, i: nat, remains: int)
    requires i < |s.orders| && MaybePartialRefund(s, i, remains).Success?
    ensures NeverLowers(s.bank, MaybePartialRefund(s, i, remains).value.bank)
  {
    hide Credit, PartialShare;
    var o := s.orders[i];
    if o.user in s.bank.users && remains > 0 && o.quantity > 0 {
      CreditLeavesReserves(s.bank, o.user, Min(PartialShare(o, remains), Owed(s, i)), ForOrder(i), PartialKey(i));
    }
  }

  lemma ClosingReserve(s: Db, i: nat, tag: RefundTag)
    requires i < |s.orders| && RefundIfNeeded(s, i, tag).Success?
    ensures NeverLowers(s.bank, RefundIfNeeded(s, i, tag).value.bank)
  {
    hide Credit;
    var o := s.orders[i];
    if o.user in s.bank.users { CreditLeavesReserves(s.bank, o.user, Owed(s, i), ForOrder(i), RefundKey(i, tag)); }
  }

  lemma CommissionReserve(s: Db, i: nat)
    requires i < |s.orders| && CreditOrderCommission(s, i).Success?
    ensures NeverLowers(s.bank, CreditOrderCommission(s, i).value.bank)
  {
    hide Credit, Commission;
    var due := OrderCommissionDue(s, i);
    if due > 0 {
      CreditLeavesReserves(s.bank, ReferrerOf(s.bank, s.orders[i].user).value, due, ForReferredOrder(i),
        OrderCommissionKey(i));
    }
  }

  lemma SettleReserve(s: Db, p: nat, r: Receipt)
    requires p < |s.payments| && Settle(s, p, r).Success?
    ensures NeverLowers(s.bank, Settle(s, p, r).value.bank)
  {
    hide Credit, Verdict, CreditDepositCommission;
    var row := s.payments[p];
    VerdictMeans(row, r, row.user in s.bank.users);
    if Verdict(row, r, row.user in s.bank.users) == Credited {
      CreditLeavesReserves(s.bank, row.user, row.amount, ForPayment(p), DepositKey(p));
      var bank := Credit(s.bank, row.user, row.amount, ForPayment(p), DepositKey(p)).value;
      RewardReserve(s.(bank := bank), p);
      NeverLowersTwice(s.bank, bank, CreditDepositCommission(s.(bank := bank), p).value.bank);
    }
  }

  lemma RewardReserve(s: Db, p: nat)
    requires p < |s.payments| && CreditDepositCommission(s, p).Success?
    ensures NeverLowers(s.bank, CreditDepositCommission(s, p).value.bank)
  {
    hide Credit, Commission;
    var buyer := s.payments[p].user;
    if ReferrerOf(s.bank, buyer).Some? {
      CreditLeavesReserves(s.bank, ReferrerOf(s.bank, buyer).value,
                           Commission(s.payments[p].amount, REFERRAL_DEPOSIT_COMMISSION_PERCENT),
                           ForReferredDeposit(p), DepositCommissionKey(buyer));
    }
  }

  lemma AnswerReserve(s: Db, p: nat, gateway: string, answer: GatewayAnswer)
    requires p < |s.payments| && ApplyAnswer(s, p, gateway, answer).Success?
    ensures NeverLowers(s.bank, ApplyAnswer(s, p, gateway, answer).value.bank)
  {
    hide Settle;
    if answer.SaysPaid? {
      SettleReserve(s, p, Receipt(gateway, s.payments[p].ref, answer.amount, answer.currency, false));
    }
  }

  lemma {:induction false} ReconcileReserve(s: Db, rows: seq<nat>, gateway: string, answers: map<nat, GatewayAnswer>)
    requires ReconcileAll(s, rows, gateway, answers).Success?
    ensures NeverLowers(s.bank, ReconcileAll(s, rows, gateway, answers).value.bank)
  {
    hide ApplyAnswer;
    if rows != [] {
      var p := rows[|rows| - 1];
      ReconcileReserve(s, rows[..|rows| - 1], gateway, answers);
      var before := ReconcileAll(s, rows[..|rows| - 1], gateway, answers).value;
      if p in answers && p < |before.payments| {
        AnswerReserve(before, p, gateway, answers[p]);
        NeverLowersTwice(s.bank, before.bank, ApplyAnswer(before, p, gateway, answers[p]).value.bank);
      }
    }
  }

  lemma WebhookReserve(s: Db, gateway: string, n: Notice)
    requires HandleWebhook(s, gateway, n).Success?
    ensures NeverLowers(s.bank, HandleWebhook(s, gateway, n).value.bank)
  {
    hide Settle;
    var known := s.(seen := s.seen + {(gateway, n.id)});
    if (gateway, n.id) !in s.seen && n.payment.Some? && n.payment.value < |s.payments| && n.kind == PaidNotice {
      SettleReserve(known, n.payment.value, Receipt(gateway, n.ref, n.amount, n.currency, false));
    }
  }

  lemma DepositReserve(s: Db, e: Event)
    requires (e.OpenDeposit? || e.Webhook? || e.Check? || e.Confirm? || e.ReconcilePending?) && Handle(s, e).Success?
    ensures NeverLowers(s.bank, Handle(s, e).value.bank)
  {
    hide HandleWebhook, Settle, ApplyAnswer, ReconcileAll;
    match e
    case OpenDeposit(_, _) =>
    case Webhook(gateway, notice) => WebhookReserve(s, gateway, notice);
    case Check(p, user, said) => if Handle(s, e).value != s { AnswerReserve(s, p, RAZORPAY, said); }
    case Confirm(p) =>
      if p < |s.payments| {
        var row := s.payments[p];
        SettleReserve(s, p, Receipt(row.gateway, row.ref, Some(row.amount), Some(row.currency), true));
      }
    case ReconcilePending(gateway, aged, limit, answers) =>
      ReconcileReserve(s, ToReconcile(s.payments, gateway, aged, limit), gateway, answers);
  }

  lemma UserReserve(s: Db, e: Event)
    requires (e.Join? || e.Profile? || e.StartLink? || e.Refill? || e.FlagStuckOrders?) && Handle(s, e).Success?
    ensures NeverLowers(s.bank, Handle(s, e).value.bank)
  {
    hide FlagStuck;
  }

  lemma AdjustReserve(s: Db, e: Event)
    requires (e.Adjust? || e.Welcome? || e.RequestPayoutOf?) && Handle(s, e).Success?
    ensures NeverLowers(s.bank, Handle(s, e).value.bank)
  {
    hide Credit, Debit;
    match e
    case Adjust(u, amount, actor, nonce) =>
      CreditLeavesReserves(s.bank, u, amount, ForAdmin(actor), AdjustmentKey(nonce));
      CreditLeavesReserves(s.bank, u, -amount, ForAdmin(actor), AdjustmentKey(nonce));
    case Welcome(u, bonus) => CreditLeavesReserves(s.bank, u, bonus, ForBonus, WelcomeKey(u));
    case RequestPayoutOf(u, amount) =>
      CreditLeavesReserves(s.bank, u, amount, ForPayout(|s.payouts|), PayoutKey(|s.payouts|));
  }

  /** What a cancel does to the reserves. */
  lemma CancelReserve(s: Db, i: nat, actor: UserId, staff: bool, confirmed: bool)
    requires MoneyOk(AccountsOf(s)) && i < |s.orders| && CancelOrder(s, i, actor, staff, confirmed).Success?
    ensures var after, o := CancelOrder(s, i, actor, staff, confirmed).value.bank, s.orders[i];
            && o.user in s.bank.users
            && (o.status !in {Pending, AwaitingProvider} ==> NeverLowers(s.bank, after))
            && (o.status in {Pending, AwaitingProvider} ==>
                  && OthersStay(s.bank, after, o.user)
                  && after.users[o.user].reserved == Max(0, s.bank.users[o.user].reserved - o.charge))
  {
    hide MoneyOk, LedgerOk, EntriesOk, Posts;
    var a, o := AccountsOf(s), s.orders[i];
    BooksAt(a, i);
    LedgerOf(a);
    if o.status in {Pending, AwaitingProvider} {
      KeyIsFresh(a, ReleaseKey(i, CancelTag));
      var e := ReleasePosts(s.bank, o.user, o.charge, ForOrder(i), ReleaseKey(i, CancelTag));
      ReleasedBank(s.bank, o.user, o.charge, ForOrder(i), ReleaseKey(i, CancelTag));
    } else {
      hide Credit;
      CreditLeavesReserves(s.bank, o.user, Owed(s, i), ForOrder(i), RefundKey(i, UserCancelTag));
    }
  }

  /** What closing a review does to the reserves. */
  lemma ResolveReserve(s: Db, i: nat, release: bool, attach: Option<string>)
    requires MoneyOk(AccountsOf(s)) && i < |s.orders| && ResolveReview(s, i, release, attach).Success?
    ensures var after, o := ResolveReview(s, i, release, attach).value.bank, s.orders[i];
            && o.user in s.bank.users && OthersStay(s.bank, after, o.user)
            && after.users[o.user].reserved == Max(0, s.bank.users[o.user].reserved - o.charge)
  {
    hide MoneyOk, Keeps, FailAndRelease, CaptureOrder;
    BooksAt(AccountsOf(s), i);
    if release {
      FailKeeps(s, i, ReviewTag);
      FailOthers(s, i, ReviewTag);
    } else {
      var id := if |attach.value| > 64 then attach.value[..64] else attach.value;
      CaptureKeeps(s, i, id);
      CaptureOthers(s, i, id);
    }
  }

  /** Only a call that frees an order of the same user lowers a reserve, and by that order's charge. */
  ghost predicate ReserveMoves(s: Db, e: Event, u: UserId, after: Bank)
    requires u in s.bank.users
  {
    && u in after.users
    && if FreesFor(s, e, u)
       then after.users[u].reserved == Max(0, s.bank.users[u].reserved - s.orders[e.order].charge)
       else after.users[u].reserved >= s.bank.users[u].reserved
  }

  lemma ReserveStep(s: Db, e: Event, u: UserId)
    requires MoneyOk(AccountsOf(s)) && u in s.bank.users
    ensures ReserveMoves(s, e, u, Step(s, e).bank)
  {
    hide MoneyOk, CancelOrder, ResolveReview, PlaceOrder, SyncOrder;
    if Handle(s, e).Success? {
      match e
      case Place(request, answer) => PlaceReserve(s, request, answer);
      case Sync(i, report) => SyncReserve(s, i, report);
      case Cancel(i, actor, staff, confirmed) => CancelReserve(s, i, actor, staff, confirmed); hide Handle;
      case Resolve(i, release, attach) => ResolveReserve(s, i, release, attach); hide Handle;
      case _ => OtherReserve(s, e); hide Handle;
    }
  }

  lemma OtherReserve(s: Db, e: Event)
    requires !(e.Place? || e.Sync? || e.Cancel? || e.Resolve?) && Handle(s, e).Success?
    ensures NeverLowers(s.bank, Handle(s, e).value.bank)
  {
    hide Handle;
    if e.Join? || e.Profile? || e.StartLink? || e.Refill? || e.FlagStuckOrders? {
      UserReserve(s, e);
    } else if e.Adjust? || e.Welcome? || e.RequestPayoutOf? {
      AdjustReserve(s, e);
    } else {
      DepositReserve(s, e);
    }
  }

  /**
   * Exactly which calls take the cover of a held order away, in every state of every run: a call
   * that frees another order of the same owner whose charge was no longer reserved beside it.
   */
  lemma CoverIsLostIff(s: Db, e: Event, i: nat)
    requires MoneyOk(AccountsOf(s)) && i < |s.orders| && IsHeld(s.orders[i]) && s.orders[i].user in s.bank.users
    requires s.bank.users[s.orders[i].user].reserved >= s.orders[i].charge && !Frees(s, e, i)
    ensures s.orders[i].user in Step(s, e).bank.users
    ensures Step(s, e).bank.users[s.orders[i].user].reserved < s.orders[i].charge <==>
              && FreesFor(s, e, s.orders[i].user)
              && s.bank.users[s.orders[i].user].reserved < s.orders[e.order].charge + s.orders[i].charge
  {
    hide MoneyOk, Step, Frees;
    ReserveStep(s, e, s.orders[i].user);
    BooksAt(AccountsOf(s), i);
  }

  /** Where the owner's reserve is exact, only the cancel of a synced-back pending order can do that. */
  lemma OnlyPendingCancelTakesCover(s: Db, e: Event, i: nat)
    requires MoneyOk(AccountsOf(s)) && i < |s.orders| && IsHeld(s.orders[i]) && s.orders[i].user in s.bank.users
    requires HoldsOk(AccountsOf(s), s.orders[i].user) && !Frees(s, e, i)
    ensures s.orders[i].user in Step(s, e).bank.users
    ensures Step(s, e).bank.users[s.orders[i].user].reserved < s.orders[i].charge ==> HarmsHolds(s, e, s.orders[i].user)
  {
    hide MoneyOk, HoldsOk, Step, HarmsHolds;
    var u := s.orders[i].user;
    HoldCovers(AccountsOf(s), i);
    StepHoldsIff(s, e, u);
    HeldRowStays(s, e, i);
    if !HarmsHolds(s, e, u) {
      StepKeepsMoney(s, e);
      HoldCovers(AccountsOf(Step(s, e)), i);
    }
  }

  /** A held order that the call does not free is held afterwards, too. */
  lemma HeldRowStays(s: Db, e: Event, i: nat)
    requires i < |s.orders| && IsHeld(s.orders[i]) && !Frees(s, e, i)
    ensures i < |Step(s, e).orders| && IsHeld(Step(s, e).orders[i])
    ensures Step(s, e).orders[i].user == s.orders[i].user && Step(s, e).orders[i].charge == s.orders[i].charge
  {
    hide SyncOrder, PlaceOrder, RefillOrder, CancelOrder, ResolveReview, FlagStuck, OrderOk;
    if Handle(s, e).Success? {
      match e
      case Sync(j, report) => SyncRow(s, j, report);
      case Place(request, answer) => PlaceRow(s, request, answer);
      case Refill(j, actor, staff, open, accepted) => RefillRow(s, j, actor, staff, open, accepted);
      case Cancel(j, actor, staff, confirmed) => CancelRow(s, j, actor, staff, confirmed);
      case Resolve(j, release, attach) => ResolveRow(s, j, release, attach);
      case FlagStuckOrders(stale, limit) => FlaggedRow(s.orders, stale, limit, i);
      case _ => OtherCallsLeaveOrders(s, e);
    }
  }
}
