/** The deposit lifecycle performed on the session; each method ends as its function in `Payments` says. */
module PaymentService {
  import opened Results
  import opened Keys
  import opened Wallet
  import opened Tables
  import opened Referrals
  import opened Payments
  import WalletService
  import ReferralService

  method SettlePayment(session: Store, p: nat, r: Receipt) returns (raised: Option<Error>)
    requires p < |session.payments|
    modifies session
    ensures Ended(old(session.View()), Settle(old(session.View()), p, r), raised, session.View())
  {
    hide CreditDepositCommission, Upper;
    raised := None;
    var saved := session.View();
    var row := session.payments[p];
    if row.gateway != r.gateway && !r.manual {
      return;
    }
    if Given(row.ref) && Given(r.ref) && row.ref != r.ref {
      return;
    }
    if row.status == Paid {
      return;
    }
    var currency := row.currency;
    if Given(r.currency) {
      currency := r.currency.value;
    }
    if r.amount != Some(row.amount) || Upper(currency) != Upper(row.currency) || row.user !in session.users {
      session.payments := session.payments[p := row.(status := Held)];
      return;
    }
    raised := WalletService.Credit(session, row.user, row.amount, ForPayment(p), DepositKey(p));
    if raised.Some? {
      return;
    }
    raised := ReferralService.CreditFirstDeposit(session, p);
    if raised.Some? {
      session.Rollback(saved);
      return;
    }
    CommissionMovesOnlyMoney(saved.(bank :=
      Credit(saved.bank, row.user, row.amount, ForPayment(p), DepositKey(p)).value), p);
    row := row.(status := Paid);
    if Given(r.ref) && !Given(row.ref) {
      row := row.(ref := Some(if |r.ref.value| > 64 then r.ref.value[..64] else r.ref.value));
    }
    session.payments := session.payments[p := row];
  }

  method ExpirePayment(session: Store, p: nat)
    requires p < |session.payments|
    modifies session`payments
    ensures session.View() == Expire(old(session.View()), p)
  {
    if session.payments[p].status == Unpaid {
      session.payments := session.payments[p := session.payments[p].(status := Expired)];
    }
  }

  /** Processes one verified gateway notification exactly once. */
  method ReceiveNotice(session: Store, gateway: string, n: Notice) returns (raised: Option<Error>)
    modifies session
    ensures Ended(old(session.View()), HandleWebhook(old(session.View()), gateway, n), raised, session.View())
  {
    hide Settle;
    raised := None;
    if (gateway, n.id) in session.seen {
      return;
    }
    var saved := session.View();
    session.seen := session.seen + {(gateway, n.id)};
    if n.payment.None? || n.payment.value >= |session.payments| {
      return;
    }
    if n.kind == PaidNotice {
      raised := SettlePayment(session, n.payment.value, Receipt(gateway, n.ref, n.amount, n.currency, false));
      if raised.Some? {
        session.Rollback(saved);
      }
    } else if n.kind == ExpiredNotice {
      ExpirePayment(session, n.payment.value);
    }
  }

  /** Believes what the gateway says about one checkout. */
  method FollowAnswer(session: Store, p: nat, gateway: string, answer: GatewayAnswer) returns (raised: Option<Error>)
    requires p < |session.payments|
    modifies session
    ensures Ended(old(session.View()), ApplyAnswer(old(session.View()), p, gateway, answer), raised, session.View())
  {
    hide Settle;
    raised := None;
    match answer
    case SaysPaid(amount, currency) =>
      raised := SettlePayment(session, p, Receipt(gateway, session.payments[p].ref, amount, currency, false));
    case SaysExpired => ExpirePayment(session, p);
    case _ =>
  }

  method CheckInvoice(session: Store, p: nat, user: UserId, answer: GatewayAnswer) returns (raised: Option<Error>)
    requires p < |session.payments|
    modifies session
    ensures Ended(old(session.View()), CheckPayment(old(session.View()), p, user, answer), raised, session.View())
  {
    hide ApplyAnswer;
    raised := None;
    var row := session.payments[p];
    if row.user != user {
      return;
    }
    if row.status != Paid && row.gateway == RAZORPAY && Given(row.ref) {
      raised := FollowAnswer(session, p, RAZORPAY, answer);
    }
  }

  method ConfirmByHand(session: Store, p: nat) returns (raised: Option<Error>)
    requires p < |session.payments|
    modifies session
    ensures Ended(old(session.View()), ManualConfirm(old(session.View()), p), raised, session.View())
  {
    hide Settle;
    var row := session.payments[p];
    raised := SettlePayment(session, p, Receipt(row.gateway, row.ref, Some(row.amount), Some(row.currency), true));
  }

  /** Asks the gateway about the oldest open invoices, one after the other. */
  method ReconcilePending(session: Store, gateway: string, aged: set<nat>, limit: nat, answers: map<nat, GatewayAnswer>)
    returns (raised: Option<Error>)
    modifies session
    ensures Ended(old(session.View()), Reconcile(old(session.View()), gateway, aged, limit, answers), raised,
            session.View())
  {
    hide ApplyAnswer;
    var saved := session.View();
    var rows := ToReconcile(session.payments, gateway, aged, limit);
    var i := 0;
    while i < |rows|
      invariant 0 <= i <= |rows|
      invariant ReconcileAll(saved, rows[..i], gateway, answers) == Success(session.View())
    {
      var p := rows[i];
      AnswerNext(saved, rows, i, gateway, answers);
      if p in answers && p < |session.payments| {
        raised := FollowAnswer(session, p, gateway, answers[p]);
        if raised.Some? {
          FailureStays(saved, rows, i + 1, gateway, answers);
          session.Rollback(saved);
          return;
        }
      }
      i := i + 1;
    }
    assert rows[..|rows|] == rows;
    return None;
  }

  lemma AnswerNext(s: Db, rows: seq<nat>, i: nat, gateway: string, answers: map<nat, GatewayAnswer>)
    requires i < |rows| && ReconcileAll(s, rows[..i], gateway, answers).Success?
    ensures var before := ReconcileAll(s, rows[..i], gateway, answers).value;
            var p := rows[i];
            ReconcileAll(s, rows[..i + 1], gateway, answers)
            == if p !in answers || p >= |before.payments| then Success(before)
              else ApplyAnswer(before, p, gateway, answers[p])
  {
    hide ApplyAnswer;
    assert rows[..i + 1][..i] == rows[..i];
  }

  /** Once an invoice raised, the whole reconciliation raises the same error. */
  lemma {:induction false} FailureStays(s: Db, rows: seq<nat>, i: nat, gateway: string,
      answers: map<nat, GatewayAnswer>)
    requires i <= |rows| && ReconcileAll(s, rows[..i], gateway, answers).Failure?
    ensures ReconcileAll(s, rows, gateway, answers) == ReconcileAll(s, rows[..i], gateway, answers)
    decreases |rows|
  {
    hide ApplyAnswer;
    if i == |rows| {
      assert rows[..i] == rows;
    } else {
      var n := |rows| - 1;
      assert rows[..n][..i] == rows[..i];
      FailureStays(s, rows[..n], i, gateway, answers);
    }
  }

  method OpenInvoice(session: Store, r: DepositRequest, checkout: Option<string>) returns (raised: Option<Error>)
    modifies session
    ensures Ended(old(session.View()), CreateDeposit(old(session.View()), r, checkout), raised, session.View())
  {
    if r.user !in session.users {
      return Some(UnknownUser);
    }
    if session.users[r.user].banned {
      return Some(Suspended);
    }
    if !session.users[r.user].termsAccepted {
      return Some(TermsNotAccepted);
    }
    if !r.open {
      return Some(Closed);
    }
    if r.amount < r.min || r.amount > r.max {
      return Some(DepositOutOfRange);
    }
    var known := FindInvoice(session.payments, r.key);
    if known.Some? && known.value < |session.payments| {
      if session.payments[known.value].user == r.user {
        return None;
      }
      return Some(DuplicateKey);
    }
    var saved := session.View();
    var p := |session.payments|;
    session.payments := session.payments + [Payment(r.user, r.amount, r.currency, r.gateway, Unpaid, None, r.key)];
    if r.gateway == RAZORPAY {
      if checkout.None? {
        session.payments := session.payments[..p];
        return Some(ProviderRefused);
      }
      session.payments := session.payments[p := session.payments[p].(ref := checkout)];
    }
    return None;
  }
}
