/** What each call does to each invoice: exactly when one becomes paid, held or expired. */
module SettlementRules {
  import opened Results
  import opened Keys
  import opened Wallet
  import opened Tables
  import opened Referrals
  import opened Payments
  import opened Engine
  import opened Books
  import opened Deposits
  import opened Receipts

  /** The receipt that a call brings for an invoice: a paid notice, an answer to the owner, or an operator's word. */
  function ReceiptFor(row: Payment, p: nat, e: Event): Option<Receipt> {
    match e
    case Webhook(gateway, n) =>
      if n.payment == Some(p) && n.kind == PaidNotice then Some(Receipt(gateway, n.ref, n.amount, n.currency, false))
      else None
    case Check(q, user, said) =>
      if q == p && user == row.user && row.gateway == "razorpay" && row.ref.Some? && row.ref.value != ""
        && said.SaysPaid?
      then Some(Receipt("razorpay", row.ref, said.amount, said.currency, false))
      else None
    case Confirm(q) =>
      if q == p then Some(Receipt(row.gateway, row.ref, Some(row.amount), Some(row.currency), true)) else None
    case _ => None
  }

  /** The call says that the checkout of an invoice is over. */
  predicate ExpiryFor(row: Payment, p: nat, e: Event) {
    match e
    case Webhook(gateway, n) => n.payment == Some(p) && n.kind == ExpiredNotice
    case Check(q, user, said) =>
      && q == p && user == row.user && row.gateway == "razorpay" && row.ref.Some? && row.ref.value != ""
      && said == SaysExpired
    case _ => false
  }

  /** The notice was processed before. */
  predicate Repeated(s: Db, e: Event) {
    e.Webhook? && (e.gateway, e.notice.id) in s.seen
  }

  predicate PaysNow(s: Db, p: nat, e: Event)
    requires p < |s.payments|
  {
    var row, r := s.payments[p], ReceiptFor(s.payments[p], p, e);
    && !Repeated(s, e) && row.status != Paid && r.Some?
    && Concerns(row, r.value) && Covers(row, r.value) && row.user in s.bank.users && row.amount > 0
  }

  predicate HoldsNow(s: Db, p: nat, e: Event)
    requires p < |s.payments|
  {
    var row, r := s.payments[p], ReceiptFor(s.payments[p], p, e);
    && !Repeated(s, e) && row.status != Paid && r.Some?
    && Concerns(row, r.value) && (!Covers(row, r.value) || row.user !in s.bank.users)
  }

  predicate ExpiresNow(s: Db, p: nat, e: Event)
    requires p < |s.payments|
  {
    !Repeated(s, e) && s.payments[p].status == Unpaid && ExpiryFor(s.payments[p], p, e)
  }

  /** The row that the rules leave behind, its reference apart when it is paid. */
  ghost predicate FollowsRules(s: Db, p: nat, e: Event, row': Payment)
    requires p < |s.payments|
  {
    var row := s.payments[p];
    if PaysNow(s, p, e) then
      && row' == row.(status := Paid, ref := row'.ref)
      && KeepsOrTakesRef(row, ReceiptFor(row, p, e).value, row')
    else if HoldsNow(s, p, e) then row' == row.(status := Held)
    else if ExpiresNow(s, p, e) then row' == row.(status := Expired)
    else row' == row
  }

  /**
   * Every call but reconciliation, seen from every invoice: it becomes paid if and only if the call
   * brings a fresh receipt that concerns and covers it, its owner is known and its amount is
   * positive; held if and only if such a receipt does not cover it or its owner is not known;
   * expired if and only if it was pending and the call says so; and otherwise it stays as it was.
   */
  lemma CallAnswers(s: Db, e: Event, p: nat)
    requires LedgerOk(s.bank) && p < |s.payments| && !e.ReconcilePending?
    ensures p < |Step(s, e).payments| && FollowsRules(s, p, e, Step(s, e).payments[p])
  {
    hide LedgerOk, Settle, Concerns, Covers;
    match e
    case Webhook(gateway, n) => NoticeAnswers(s, gateway, n, p);
    case Check(q, user, said) => CheckAnswers(s, q, user, said, p);
    case Confirm(q) => ConfirmAnswers(s, q, p);
    case _ => OtherCallsLeavePayments(s, e);
  }

  lemma NoticeAnswers(s: Db, gateway: string, n: Notice, p: nat)
    requires LedgerOk(s.bank) && p < |s.payments|
    ensures p < |Step(s, Webhook(gateway, n)).payments|
    ensures FollowsRules(s, p, Webhook(gateway, n), Step(s, Webhook(gateway, n)).payments[p])
    ensures Repeated(s, Webhook(gateway, n)) ==> Step(s, Webhook(gateway, n)) == s
  {
    hide LedgerOk, Settle, Concerns, Covers, KeepsOrTakesRef;
    if !Repeated(s, Webhook(gateway, n)) && n.payment.Some? && n.payment.value < |s.payments| && n.kind == PaidNotice {
      SettleAnswers(s.(seen := s.seen + {(gateway, n.id)}), n.payment.value,
        Receipt(gateway, n.ref, n.amount, n.currency, false));
    }
  }

  lemma NoticeIsSeen(s: Db, gateway: string, n: Notice)
    ensures Step(s, Webhook(gateway, n)).seen <= s.seen + {(gateway, n.id)}
  {
    hide CreditDepositCommission, Credit, Verdict;
    if (gateway, n.id) !in s.seen && n.payment.Some? && n.payment.value < |s.payments| && n.kind == PaidNotice {
      SettleLeavesSeen(s.(seen := s.seen + {(gateway, n.id)}), n.payment.value,
        Receipt(gateway, n.ref, n.amount, n.currency, false));
      hide Settle;
    }
  }

  lemma SettleLeavesSeen(s: Db, p: nat, r: Receipt)
    requires p < |s.payments|
    ensures Settle(s, p, r).Success? ==> Settle(s, p, r).value.seen == s.seen
  {
  }

  lemma DepositCallLeavesSeen(s: Db, e: Event)
    requires e.Check? || e.Confirm?
    ensures Step(s, e).seen == s.seen
  {
    hide Settle;
    if e.payment < |s.payments| {
      var row := s.payments[e.payment];
      SettleLeavesSeen(s, e.payment, Receipt(row.gateway, row.ref, Some(row.amount), Some(row.currency), true));
      if e.Check? && e.said.SaysPaid? {
        SettleLeavesSeen(s, e.payment, Receipt(RAZORPAY, row.ref, e.said.amount, e.said.currency, false));
      }
    }
  }

  lemma CheckAnswers(s: Db, q: nat, user: UserId, said: GatewayAnswer, p: nat)
    requires LedgerOk(s.bank) && p < |s.payments|
    ensures p < |Step(s, Check(q, user, said)).payments|
    ensures FollowsRules(s, p, Check(q, user, said), Step(s, Check(q, user, said)).payments[p])
  {
    hide LedgerOk, Settle, Covers, KeepsOrTakesRef;
    if q < |s.payments| && said.SaysPaid? {
      SettleAnswers(s, q, Receipt(RAZORPAY, s.payments[q].ref, said.amount, said.currency, false));
    }
  }

  lemma ConfirmAnswers(s: Db, q: nat, p: nat)
    requires LedgerOk(s.bank) && p < |s.payments|
    ensures p < |Step(s, Confirm(q)).payments|
    ensures FollowsRules(s, p, Confirm(q), Step(s, Confirm(q)).payments[p])
  {
    hide LedgerOk, Settle, Concerns, Covers, KeepsOrTakesRef;
    if q < |s.payments| {
      var row := s.payments[q];
      SettleAnswers(s, q, Receipt(row.gateway, row.ref, Some(row.amount), Some(row.currency), true));
    }
  }

  // ---------------------------------------------------------------- reconciliation

  /** What the answer about an asked invoice makes of it. */
  ghost predicate FollowsAnswer(s: Db, p: nat, gateway: string, said: GatewayAnswer, row': Payment)
    requires p < |s.payments|
  {
    var row := s.payments[p];
    match said
    case SaysPaid(amount, currency) =>
      var r := Receipt(gateway, row.ref, amount, currency, false);
      if row.status == Paid || row.gateway != gateway then row' == row
      else if Covers(row, r) && row.user in s.bank.users then
        row.amount > 0 && row' == row.(status := Paid, ref := row'.ref) && KeepsOrTakesRef(row, r, row')
      else row' == row.(status := Held)
    case SaysExpired => row' == if row.status == Unpaid then row.(status := Expired) else row
    case _ => row' == row
  }

  lemma OneAnswer(s: Db, p: nat, gateway: string, said: GatewayAnswer)
    requires LedgerOk(s.bank) && p < |s.payments| && ApplyAnswer(s, p, gateway, said).Success?
    ensures var after := ApplyAnswer(s, p, gateway, said).value;
            && LedgerOk(after.bank) && s.bank.users.Keys <= after.bank.users.Keys && after.seen == s.seen
            && |after.payments| == |s.payments| && after.payments == s.payments[p := after.payments[p]]
            && FollowsAnswer(s, p, gateway, said, after.payments[p])
  {
    hide LedgerOk, Settle, Covers, KeepsOrTakesRef;
    if said.SaysPaid? {
      SettleAnswers(s, p, Receipt(gateway, s.payments[p].ref, said.amount, said.currency, false));
    }
  }

  predicate Raises(s: Db, p: nat, gateway: string, said: GatewayAnswer) {
    && p < |s.payments| && said.SaysPaid? && s.payments[p].gateway == gateway && s.payments[p].status != Paid
    && Covers(s.payments[p], Receipt(gateway, s.payments[p].ref, said.amount, said.currency, false))
    && s.payments[p].user in s.bank.users && s.payments[p].amount <= 0
  }

  lemma AnswerRaisesIff(s: Db, p: nat, gateway: string, said: GatewayAnswer)
    requires LedgerOk(s.bank) && p < |s.payments|
    ensures ApplyAnswer(s, p, gateway, said).Failure? <==> Raises(s, p, gateway, said)
  {
    hide LedgerOk, Settle, Covers, KeepsOrTakesRef;
    if said.SaysPaid? {
      SettleAnswers(s, p, Receipt(gateway, s.payments[p].ref, said.amount, said.currency, false));
    }
  }

  /** One of the invoices fits its answer but has nothing to credit. */
  predicate SomeRaises(s: Db, rows: seq<nat>, gateway: string, answers: map<nat, GatewayAnswer>) {
    exists p | p in rows && p in answers :: Raises(s, p, gateway, answers[p])
  }

  predicate Distinct(rows: seq<nat>) {
    forall j, k | 0 <= j < k < |rows| :: rows[j] != rows[k]
  }

  /** Each invoice asked about follows its own answer, and the others stay as they were. */
  lemma {:induction false} AllAnswers(s: Db, rows: seq<nat>, gateway: string, answers: map<nat, GatewayAnswer>, p: nat)
    requires LedgerOk(s.bank) && p < |s.payments| && s.payments[p].user in s.bank.users && Distinct(rows)
    requires ReconcileAll(s, rows, gateway, answers).Success?
    ensures var after := ReconcileAll(s, rows, gateway, answers).value;
            && LedgerOk(after.bank) && s.bank.users.Keys <= after.bank.users.Keys && |after.payments| == |s.payments|
            && if p in rows && p in answers then FollowsAnswer(s, p, gateway, answers[p], after.payments[p])
               else after.payments[p] == s.payments[p]
  {
    hide LedgerOk, ApplyAnswer, Covers, KeepsOrTakesRef;
    if rows != [] {
      var n := |rows| - 1;
      AllAnswers(s, rows[..n], gateway, answers, p);
      var before := ReconcileAll(s, rows[..n], gateway, answers).value;
      var q := rows[n];
      assert p in rows <==> p in rows[..n] || p == q;
      assert q !in rows[..n];
      if q in answers && q < |before.payments| { OneAnswer(before, q, gateway, answers[q]); }
    }
  }

  /** Asking about the invoices raises exactly when one of them fits its answer but has nothing to credit. */
  lemma {:induction false} AllRaiseIff(s: Db, rows: seq<nat>, gateway: string, answers: map<nat, GatewayAnswer>)
    requires LedgerOk(s.bank) && Distinct(rows)
    requires forall p | p in rows :: p < |s.payments| && s.payments[p].user in s.bank.users
    ensures ReconcileAll(s, rows, gateway, answers).Failure?
        <==> SomeRaises(s, rows, gateway, answers)
  {
    hide LedgerOk, ApplyAnswer, Covers, KeepsOrTakesRef, Raises;
    if rows != [] {
      var n := |rows| - 1;
      var q := rows[n];
      forall p | p in rows[..n] ensures p < |s.payments| && s.payments[p].user in s.bank.users {
        assert p in rows;
      }
      assert Distinct(rows[..n]);
      AllRaiseIff(s, rows[..n], gateway, answers);
      assert forall p :: p in rows <==> p in rows[..n] || p == q;
      if ReconcileAll(s, rows[..n], gateway, answers).Success? {
        assert q in rows;
        AllAnswers(s, rows[..n], gateway, answers, q);
        var before := ReconcileAll(s, rows[..n], gateway, answers).value;
        assert q !in rows[..n];
        if q in answers {
          AnswerRaisesIff(before, q, gateway, answers[q]);
          SameRaises(s, before, q, gateway, answers[q]);
        }
      }
    }
  }

  lemma SameRaises(s: Db, before: Db, q: nat, gateway: string, said: GatewayAnswer)
    requires q < |s.payments| == |before.payments| && before.payments[q] == s.payments[q]
    requires s.payments[q].user in s.bank.users && s.bank.users.Keys <= before.bank.users.Keys
    ensures Raises(before, q, gateway, said) <==> Raises(s, q, gateway, said)
  {
  }

  /**
   * Reconciliation is all or nothing: it raises, and changes nothing, exactly when an invoice it
   * asks about fits its answer but has nothing to credit; otherwise each invoice it asks about
   * follows its answer and every other one stays as it was.
   */
  lemma ReconcileAnswers(s: Db, e: Event, p: nat)
    requires DepositsOk(s) && e.ReconcilePending? && p < |s.payments|
    ensures var asked := ToReconcile(s.payments, e.gateway, e.aged, e.limit);
            && p < |Step(s, e).payments|
            && if SomeRaises(s, asked, e.gateway, e.answers) then Step(s, e) == s
               else if p in asked && p in e.answers then
                 FollowsAnswer(s, p, e.gateway, e.answers[p], Step(s, e).payments[p])
               else Step(s, e).payments[p] == s.payments[p]
  {
    hide DepositsOk, LedgerOk, ToReconcile, ReconcileAll, FollowsAnswer, SomeRaises, Distinct, Asked;
    var asked := ToReconcile(s.payments, e.gateway, e.aged, e.limit);
    AskedAreDistinct(s, e.gateway, e.aged, e.limit);
    LedgerOfDeposits(s);
    OwnerIsKnown(s, p);
    AllRaiseIff(s, asked, e.gateway, e.answers);
    ReconcileStep(s, e);
    hide Handle, Step;
    if ReconcileAll(s, asked, e.gateway, e.answers).Success? { AllAnswers(s, asked, e.gateway, e.answers, p); }
  }

  lemma ReconcileStep(s: Db, e: Event)
    requires e.ReconcilePending?
    ensures var r := ReconcileAll(s, ToReconcile(s.payments, e.gateway, e.aged, e.limit), e.gateway, e.answers);
            Step(s, e) == if r.Success? then r.value else s
  {
    hide ReconcileAll, ToReconcile;
  }

  lemma OwnerIsKnown(s: Db, p: nat)
    requires DepositsOk(s) && p < |s.payments|
    ensures s.payments[p].user in s.bank.users
  {
    assert PaymentOk(AccountsOf(s), p);
  }

  lemma AskedAreDistinct(s: Db, gateway: string, aged: set<nat>, limit: nat)
    requires DepositsOk(s)
    ensures var asked := ToReconcile(s.payments, gateway, aged, limit);
            Distinct(asked) && forall p | p in asked :: p < |s.payments| && s.payments[p].user in s.bank.users
  {
    hide DepositsOk, ToReconcile, Asked;
    ReconcilesOldestFirst(s.payments, gateway, aged, limit);
    forall p | p in ToReconcile(s.payments, gateway, aged, limit)
      ensures p < |s.payments| && s.payments[p].user in s.bank.users
    {
      OwnerIsKnown(s, p);
    }
  }

  /** A notice is remembered as processed unless settling it raised. */
  lemma NoticeIsRemembered(s: Db, gateway: string, n: Notice)
    requires LedgerOk(s.bank)
    ensures (gateway, n.id) in Step(s, Webhook(gateway, n)).seen <==>
              || (gateway, n.id) in s.seen
              || n.kind != PaidNotice || n.payment.None? || n.payment.value >= |s.payments|
              || !Raises(s, n.payment.value, gateway, SaysPaid(n.amount, n.currency))
              || !Concerns(s.payments[n.payment.value], Receipt(gateway, n.ref, n.amount, n.currency, false))
  {
    hide LedgerOk, Settle, KeepsOrTakesRef;
    var known := s.(seen := s.seen + {(gateway, n.id)});
    if (gateway, n.id) !in s.seen && n.payment.Some? && n.payment.value < |s.payments| && n.kind == PaidNotice {
      SettleAnswers(known, n.payment.value, Receipt(gateway, n.ref, n.amount, n.currency, false));
    }
  }
}
