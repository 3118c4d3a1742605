/**
 * Deposits in the ledger, over every run: an invoice is paid exactly when the ledger holds the
 * one credit for it. No call breaks this, harmful cancels included.
 */
module Deposits {
  import opened Results
  import opened Keys
  import opened Wallet
  import opened Tables
  import opened Referrals
  import opened Orders
  import opened Payments
  import opened Engine
  import opened Books
  import opened Commissions

  /** A deposit entry credits the owner of a paid invoice its amount, under the invoice's key. */
  ghost predicate DepositEntryOk(s: Db, e: Entry) {
    IsDeposit(e) ==>
      && e.key.DepositKey? && e.ref == ForPayment(e.key.payment) && e.key.payment < |s.payments|
      && var row := s.payments[e.key.payment];
         row.status == Paid && e.user == row.user && e.amount == row.amount && e.kind == CreditEntry
  }

  ghost predicate DepositsOk(s: Db) {
    && LedgerOk(s.bank)
    && (forall k | 0 <= k < |s.bank.ledger| :: DepositEntryOk(s, s.bank.ledger[k]))
    && (forall p | 0 <= p < |s.payments| :: PaymentOk(AccountsOf(s), p))
  }

  /** The ledger grew by entries that are no deposits. */
  ghost predicate Untouched(b: Bank, after: Bank) {
    Extends(b, after) && forall k | |b.ledger| <= k < |after.ledger| :: !IsDeposit(after.ledger[k])
  }

  lemma NoDepositKeyBeyond(s: Db, p: nat)
    requires DepositsOk(s) && (p < |s.payments| ==> s.payments[p].status != Paid)
    ensures !HasKey(s.bank.ledger, DepositKey(p))
  {
    forall k | 0 <= k < |s.bank.ledger| ensures s.bank.ledger[k].key != DepositKey(p) {
      assert DepositEntryOk(s, s.bank.ledger[k]);
    }
  }

  lemma SameDepositKeys(b: Bank, after: Bank, p: nat)
    requires Untouched(b, after)
    ensures HasKey(after.ledger, DepositKey(p)) <==> HasKey(b.ledger, DepositKey(p))
  {
    hide LedgerOk;
    if HasKey(b.ledger, DepositKey(p)) {
      var k :| 0 <= k < |b.ledger| && b.ledger[k].key == DepositKey(p);
      assert after.ledger[k].key == DepositKey(p);
    }
  }

  /** Calls that post no deposit and only open invoices. */
  lemma UntouchedKeeps(s: Db, after: Db)
    requires DepositsOk(s) && Untouched(s.bank, after.bank) && s.payments <= after.payments
    requires forall p | |s.payments| <= p < |after.payments| ::
             after.payments[p].status == Unpaid && after.payments[p].user in s.bank.users
    ensures DepositsOk(after)
  {
    hide LedgerOk;
    forall k | 0 <= k < |after.bank.ledger| ensures DepositEntryOk(after, after.bank.ledger[k]) {
      if k < |s.bank.ledger| {
        assert DepositEntryOk(s, s.bank.ledger[k]);
        assert after.bank.ledger[k] == s.bank.ledger[k];
      }
    }
    forall p | 0 <= p < |after.payments| ensures PaymentOk(AccountsOf(after), p) {
      SameDepositKeys(s.bank, after.bank, p);
      if p < |s.payments| { assert PaymentOk(AccountsOf(s), p); } else { NoDepositKeyBeyond(s, p); }
    }
  }

  /** An invoice that is not paid may be held or expire. */
  lemma InvoiceMoves(s: Db, p: nat, row: Payment)
    requires DepositsOk(s) && p < |s.payments|
    requires row.user == s.payments[p].user && row.status != Paid && s.payments[p].status != Paid
    ensures DepositsOk(SetPayment(s, p, row))
  {
    hide LedgerOk;
    var after := SetPayment(s, p, row);
    forall k | 0 <= k < |after.bank.ledger| ensures DepositEntryOk(after, after.bank.ledger[k]) {
      assert DepositEntryOk(s, s.bank.ledger[k]);
    }
    forall q | 0 <= q < |after.payments| ensures PaymentOk(AccountsOf(after), q) { assert PaymentOk(AccountsOf(s), q); }
  }

  /** A credited deposit: the credit succeeds, and with it the invoice becomes paid. */
  lemma DepositPosted(s: Db, p: nat, ref: Option<string>)
    requires DepositsOk(s) && p < |s.payments| && s.payments[p].status != Paid && s.payments[p].amount > 0
    ensures s.payments[p].user in s.bank.users
    ensures var row := s.payments[p];
            var bank := Credit(s.bank, row.user, row.amount, ForPayment(p), DepositKey(p));
            bank.Success? && DepositsOk(SetPayment(s.(bank := bank.value), p, PaidRow(row, ref)))
  {
    var row := s.payments[p];
    assert PaymentOk(AccountsOf(s), p);
    NoDepositKeyBeyond(s, p);
    CreditSucceeds(s.bank, row.user, row.amount, ForPayment(p), DepositKey(p));
    var c := CreditCall(row.user, row.amount, ForPayment(p), DepositKey(p));
    CallPosts(s.bank, c);
    CallExtends(s.bank, c);
    hide LedgerOk;
    var bank := Attempt(s.bank, c).value;
    PaidInvoice(s, SetPayment(s.(bank := bank), p, PaidRow(row, ref)), p);
  }

  lemma PaidInvoice(s: Db, after: Db, p: nat)
    requires DepositsOk(s) && LedgerOk(after.bank) && p < |s.payments| == |after.payments|
             && s.payments[p].status != Paid
    requires after.payments == s.payments[p := after.payments[p]] && after.payments[p].status == Paid
    requires after.payments[p].user == s.payments[p].user && after.payments[p].amount == s.payments[p].amount
    requires s.bank.users.Keys <= after.bank.users.Keys && |after.bank.ledger| == |s.bank.ledger| + 1
    requires var e := after.bank.ledger[|s.bank.ledger|];
             && after.bank.ledger == s.bank.ledger + [e] && e.key == DepositKey(p) && e.ref == ForPayment(p)
             && e.user == s.payments[p].user && e.amount == s.payments[p].amount && e.kind == CreditEntry
    ensures DepositsOk(after)
  {
    hide LedgerOk;
    forall k | 0 <= k < |after.bank.ledger| ensures DepositEntryOk(after, after.bank.ledger[k]) {
      if k < |s.bank.ledger| { assert DepositEntryOk(s, s.bank.ledger[k]); }
    }
    forall q | 0 <= q < |after.payments| ensures PaymentOk(AccountsOf(after), q) {
      assert PaymentOk(AccountsOf(s), q);
      if q == p {
        assert after.bank.ledger[|s.bank.ledger|].key == DepositKey(q);
      } else if HasKey(s.bank.ledger, DepositKey(q)) {
        var k :| 0 <= k < |s.bank.ledger| && s.bank.ledger[k].key == DepositKey(q);
        assert after.bank.ledger[k].key == DepositKey(q);
      }
    }
  }

  /** The commission of a deposit succeeds and changes nothing about deposits. */
  lemma RewardedDeposit(s: Db, p: nat)
    requires LedgerOk(s.bank) && p < |s.payments|
    ensures CreditDepositCommission(s, p).Success?
    ensures CreditDepositCommission(s, p).value == s.(bank := CreditDepositCommission(s, p).value.bank)
    ensures Untouched(s.bank, CreditDepositCommission(s, p).value.bank)
  {
    RewardSucceeds(s, p);
    hide LedgerOk, CreditDepositCommission;
    CommissionRewards(s, p);
  }

  lemma RewardSucceeds(s: Db, p: nat)
    requires LedgerOk(s.bank) && p < |s.payments|
    ensures CreditDepositCommission(s, p).Success?
  {
    var due := Commission(s.payments[p].amount, REFERRAL_DEPOSIT_COMMISSION_PERCENT);
    var referrer := ReferrerOf(s.bank, s.payments[p].user);
    if due > 0 && referrer.Some? {
      CreditSucceeds(s.bank, referrer.value, due, ForReferredDeposit(p), DepositCommissionKey(s.payments[p].user));
      hide LedgerOk, Commission, Credit;
    }
  }

  /** Settling a verified deposit goes through whenever there is something to credit. */
  lemma CreditedDeposit(s: Db, p: nat, ref: Option<string>)
    requires DepositsOk(s) && p < |s.payments| && s.payments[p].status != Paid && s.payments[p].amount > 0
    ensures s.payments[p].user in s.bank.users
    ensures var row := s.payments[p];
            var bank := Credit(s.bank, row.user, row.amount, ForPayment(p), DepositKey(p));
            && bank.Success?
            && var rewarded := CreditDepositCommission(s.(bank := bank.value), p);
               rewarded.Success? && DepositsOk(SetPayment(rewarded.value, p, PaidRow(row, ref)))
  {
    hide DepositsOk, Credit, CreditDepositCommission, PaidRow, Untouched, LedgerOk;
    var row := s.payments[p];
    DepositPosted(s, p, ref);
    var credited := s.(bank := Credit(s.bank, row.user, row.amount, ForPayment(p), DepositKey(p)).value);
    var paid := SetPayment(credited, p, PaidRow(row, ref));
    LedgerOfDeposits(paid);
    RewardedDeposit(credited, p);
    UntouchedKeeps(paid, SetPayment(CreditDepositCommission(credited, p).value, p, PaidRow(row, ref)));
  }

  lemma LedgerOfDeposits(s: Db)
    requires DepositsOk(s)
    ensures LedgerOk(s.bank)
  {
  }

  lemma SettleKeepsDeposits(s: Db, p: nat, r: Receipt)
    requires DepositsOk(s) && p < |s.payments| && Settle(s, p, r).Success?
    ensures DepositsOk(Settle(s, p, r).value)
  {
    hide DepositsOk, CreditDepositCommission, Verdict;
    var row := s.payments[p];
    var verdict := Verdict(row, r, row.user in s.bank.users);
    VerdictMeans(row, r, row.user in s.bank.users);
    if verdict == Credited {
      CreditedDeposit(s, p, r.ref);
    } else if verdict in {AmountMismatch, OwnerMissing} {
      InvoiceMoves(s, p, row.(status := Held));
    }
  }

  lemma AnswerKeepsDeposits(s: Db, p: nat, gateway: string, answer: GatewayAnswer)
    requires DepositsOk(s) && p < |s.payments| && ApplyAnswer(s, p, gateway, answer).Success?
    ensures DepositsOk(ApplyAnswer(s, p, gateway, answer).value)
  {
    hide DepositsOk, Settle;
    match answer
    case SaysPaid(amount, currency) =>
      SettleKeepsDeposits(s, p, Receipt(gateway, s.payments[p].ref, amount, currency, false));
    case SaysExpired => ExpireKeepsDeposits(s, p);
    case _ =>
  }

  lemma ExpireKeepsDeposits(s: Db, p: nat)
    requires DepositsOk(s) && p < |s.payments|
    ensures DepositsOk(Expire(s, p))
  {
    hide DepositsOk;
    if s.payments[p].status == Unpaid { InvoiceMoves(s, p, s.payments[p].(status := Expired)); }
  }

  lemma WebhookKeepsDeposits(s: Db, gateway: string, n: Notice)
    requires DepositsOk(s) && HandleWebhook(s, gateway, n).Success?
    ensures DepositsOk(HandleWebhook(s, gateway, n).value)
  {
    hide DepositsOk, Settle, Expire;
    var known := s.(seen := s.seen + {(gateway, n.id)});
    SeenKeepsDeposits(s, known.seen);
    if (gateway, n.id) !in s.seen && n.payment.Some? && n.payment.value < |s.payments| {
      if n.kind == PaidNotice {
        SettleKeepsDeposits(known, n.payment.value, Receipt(gateway, n.ref, n.amount, n.currency, false));
      } else {
        ExpireKeepsDeposits(known, n.payment.value);
      }
    }
  }

  lemma SeenKeepsDeposits(s: Db, seen: set<(string, string)>)
    requires DepositsOk(s)
    ensures DepositsOk(s.(seen := seen))
  {
    hide LedgerOk;
    UntouchedKeeps(s, s.(seen := seen));
  }

  lemma {:induction false} ReconcileKeepsDeposits(s: Db, rows: seq<nat>, gateway: string,
      answers: map<nat, GatewayAnswer>)
    requires DepositsOk(s) && ReconcileAll(s, rows, gateway, answers).Success?
    ensures DepositsOk(ReconcileAll(s, rows, gateway, answers).value)
  {
    hide DepositsOk, ApplyAnswer;
    if rows != [] {
      var p := rows[|rows| - 1];
      ReconcileKeepsDeposits(s, rows[..|rows| - 1], gateway, answers);
      var before := ReconcileAll(s, rows[..|rows| - 1], gateway, answers).value;
      if p in answers && p < |before.payments| { AnswerKeepsDeposits(before, p, gateway, answers[p]); }
    }
  }

  lemma OtherCallsLeavePayments(s: Db, e: Event)
    requires !(e.Webhook? || e.Check? || e.Confirm? || e.ReconcilePending?)
    ensures var after := Step(s, e);
            && s.payments <= after.payments && after.seen == s.seen
            && forall p | |s.payments| <= p < |after.payments| ::
                 after.payments[p].status == Unpaid && after.payments[p].user in s.bank.users
  {
    hide PlaceOrder, SyncOrder, HandleWebhook, CheckPayment, ManualConfirm, Reconcile;
    if Handle(s, e).Success? {
      match e
      case Place(request, answer) => PlaceLeavesPayments(s, request, answer);
      case Sync(i, report) => SyncLeavesPayments(s, i, report);
      case _ =>
    }
  }

  lemma PlaceLeavesPayments(s: Db, r: OrderRequest, answer: Answer)
    requires PlaceOrder(s, r, answer).Success?
    ensures PlaceOrder(s, r, answer).value.payments == s.payments && PlaceOrder(s, r, answer).value.seen == s.seen
  {
    hide CheckRequest, ExistingOrder, KeyToStore, Reserve, Release, Capture;
  }

  lemma SyncLeavesPayments(s: Db, i: nat, report: PanelReport)
    requires i < |s.orders| && SyncOrder(s, i, report).Success?
    ensures SyncOrder(s, i, report).value.payments == s.payments && SyncOrder(s, i, report).value.seen == s.seen
  {
  }

  lemma OtherCallIsUntouched(s: Db, e: Event)
    requires LedgerOk(s.bank) && Handle(s, e).Success? && !(e.Webhook? || e.Check? || e.Confirm? || e.ReconcilePending?)
    ensures Untouched(s.bank, Handle(s, e).value.bank)
  {
    hide LedgerOk, Handle, CreditOrderCommission, CompletedState, OrderCommissionDue;
    if Completes(s, e) {
      CompletingSync(s, e);
      CompletedBank(s, e);
      CompletionRewards(CompletedState(s, e), e.order);
    } else {
      OtherCallIsOrdinary(s, e);
    }
  }

  lemma CompletedBank(s: Db, e: Event)
    requires Completes(s, e)
    ensures CompletedState(s, e).bank == s.bank && |CompletedState(s, e).orders| == |s.orders|
    ensures CompletedState(s, e).orders[e.order].status == Completed
  {
  }

  /** Every call keeps deposits and ledger in agreement. */
  lemma StepKeepsDeposits(s: Db, e: Event)
    requires DepositsOk(s)
    ensures DepositsOk(Step(s, e))
  {
    hide DepositsOk, Settle, HandleWebhook, ApplyAnswer, ReconcileAll, Untouched;
    LedgerOfDeposits(s);
    if Handle(s, e).Success? {
      match e
      case Webhook(gateway, notice) => WebhookKeepsDeposits(s, gateway, notice);
      case Check(p, user, said) => if Handle(s, e).value != s { AnswerKeepsDeposits(s, p, RAZORPAY, said); }
      case Confirm(p) =>
        if p < |s.payments| {
          var row := s.payments[p];
          SettleKeepsDeposits(s, p, Receipt(row.gateway, row.ref, Some(row.amount), Some(row.currency), true));
        }
      case ReconcilePending(gateway, aged, limit, answers) =>
        ReconcileKeepsDeposits(s, ToReconcile(s.payments, gateway, aged, limit), gateway, answers);
      case _ => OtherStepKeepsDeposits(s, e);
    }
  }

  lemma OtherStepKeepsDeposits(s: Db, e: Event)
    requires DepositsOk(s) && Handle(s, e).Success? && !(e.Webhook? || e.Check? || e.Confirm? || e.ReconcilePending?)
    ensures DepositsOk(Handle(s, e).value)
  {
    hide DepositsOk, Handle, Untouched;
    LedgerOfDeposits(s);
    OtherCallIsUntouched(s, e);
    OtherCallsLeavePayments(s, e);
    UntouchedKeeps(s, Handle(s, e).value);
  }

  lemma {:induction false} RunKeepsDeposits(s: Db, events: seq<Event>)
    requires DepositsOk(s)
    ensures DepositsOk(Run(s, events))
  {
    hide DepositsOk, Step;
    if events != [] {
      RunKeepsDeposits(s, events[..|events| - 1]);
      StepKeepsDeposits(Run(s, events[..|events| - 1]), events[|events| - 1]);
    }
  }
}
