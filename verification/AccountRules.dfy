/** What the calls about users, payouts and invoices answer and change. */
module AccountRules {
  import opened Results
  import opened Keys
  import opened Wallet
  import opened Tables
  import opened Payments
  import opened Engine
  import opened Books
  import opened EngineBooks
  import opened WalletRules

  /** Nothing but the bank is different. */
  predicate OnlyBank(s: Db, after: Db) {
    after == s.(bank := after.bank)
  }

  /**
   * A staff adjustment goes through exactly for a known user, an amount that is not zero, and
   * enough available funds when it takes money; the same adjustment again changes nothing, and a
   * new one moves the user's balance by the amount and nothing else.
   */
  lemma AdjustAnswers(s: Db, u: UserId, amount: int, actor: UserId, nonce: nat)
    requires LedgerOk(s.bank)
    ensures Handle(s, Adjust(u, amount, actor, nonce)).Success? <==>
              && u in s.bank.users && amount != 0
              && (amount > 0 || HasKey(s.bank.ledger, AdjustmentKey(nonce))
                  || s.bank.users[u].balance - s.bank.users[u].reserved >= -amount)
    ensures Handle(s, Adjust(u, amount, actor, nonce)).Success? ==>
              var after := Step(s, Adjust(u, amount, actor, nonce));
              && OnlyBank(s, after)
              && if HasKey(s.bank.ledger, AdjustmentKey(nonce)) then after == s
                 else Shifts(s.bank, after.bank, u, amount, 0)
  {
    hide LedgerOk, HasKey, Credit, Debit, IsCovered;
    if u in s.bank.users {
      WalletAnswers(s.bank, CreditCall(u, amount, ForAdmin(actor), AdjustmentKey(nonce)));
      WalletAnswers(s.bank, DebitCall(u, -amount, ForAdmin(actor), AdjustmentKey(nonce)));
      DebitIsCovered(s.bank, u, -amount, ForAdmin(actor), AdjustmentKey(nonce));
      CreditIsCovered(s.bank, u, amount, ForAdmin(actor), AdjustmentKey(nonce));
    }
  }

  lemma DebitIsCovered(b: Bank, u: UserId, amount: int, ref: Ref, key: Key)
    requires u in b.users
    ensures IsCovered(DebitCall(u, amount, ref, key), b.users[u]) <==>
            b.users[u].balance - b.users[u].reserved >= amount
  {
  }

  lemma CreditIsCovered(b: Bank, u: UserId, amount: int, ref: Ref, key: Key)
    requires u in b.users
    ensures IsCovered(CreditCall(u, amount, ref, key), b.users[u])
  {
  }

  /** The welcome bonus is credited once to a known user, when it is positive. */
  lemma WelcomeAnswers(s: Db, u: UserId, bonus: int)
    requires LedgerOk(s.bank)
    ensures Handle(s, Welcome(u, bonus)).Success? <==> u in s.bank.users && bonus > 0
    ensures Handle(s, Welcome(u, bonus)).Success? ==>
              var after := Step(s, Welcome(u, bonus));
              && OnlyBank(s, after)
              && HasKey(after.bank.ledger, WelcomeKey(u))
              && if HasKey(s.bank.ledger, WelcomeKey(u)) then after == s
                 else Shifts(s.bank, after.bank, u, bonus, 0)
  {
    hide LedgerOk, Credit, IsCovered;
    if u in s.bank.users {
      WalletAnswers(s.bank, CreditCall(u, bonus, ForBonus, WelcomeKey(u)));
      CreditIsCovered(s.bank, u, bonus, ForBonus, WelcomeKey(u));
      var after := Step(s, Welcome(u, bonus)).bank.ledger;
      if bonus > 0 && !HasKey(s.bank.ledger, WelcomeKey(u)) { assert after[|s.bank.ledger|].key == WelcomeKey(u); }
    }
  }

  /**
   * A payout is taken exactly from a known user for at least 10,000 paise that are available; it
   * lowers the balance by the amount and stores one payout row.
   */
  lemma PayoutAnswers(s: Db, u: UserId, amount: int)
    requires MoneyOk(AccountsOf(s))
    ensures Handle(s, RequestPayoutOf(u, amount)).Success? <==>
              u in s.bank.users && amount >= 10000 && s.bank.users[u].balance - s.bank.users[u].reserved >= amount
    ensures Handle(s, RequestPayoutOf(u, amount)).Success? ==>
              var after := Step(s, RequestPayoutOf(u, amount));
              && after == s.(bank := after.bank, payouts := s.payouts + [Payout(u, amount)])
              && Shifts(s.bank, after.bank, u, -amount, 0)
  {
    hide MoneyOk, LedgerOk, EntriesOk, HasKey, Debit, IsCovered, Shifts;
    LedgerOf(AccountsOf(s));
    PayoutKeyIsNew(AccountsOf(s));
    if u in s.bank.users {
      WalletAnswers(s.bank, DebitCall(u, amount, ForPayout(|s.payouts|), PayoutKey(|s.payouts|)));
      DebitIsCovered(s.bank, u, amount, ForPayout(|s.payouts|), PayoutKey(|s.payouts|));
    }
  }

  lemma PayoutKeyIsNew(a: Accounts)
    requires MoneyOk(a)
    ensures !HasKey(a.bank.ledger, PayoutKey(|a.payouts|))
  {
    forall k | 0 <= k < |a.bank.ledger| ensures a.bank.ledger[k].key != PayoutKey(|a.payouts|) {
      assert EntryOk(a, a.bank.ledger[k]);
    }
  }

  // ---------------------------------------------------------------- users

  /** A first visit stores an empty wallet; a start link names the referrer of a user once, and never the user. */
  lemma VisitAnswers(s: Db, u: UserId, referrer: UserId)
    ensures var after := Step(s, Join(u));
            && OnlyBank(s, after) && after.bank.ledger == s.bank.ledger
            && after.bank.users == if u in s.bank.users then s.bank.users
                                   else s.bank.users[u := User(0, 0, None, false, false)]
    ensures var after := Step(s, StartLink(u, referrer));
            if u in s.bank.users && referrer in s.bank.users && referrer != u && s.bank.users[u].referredBy.None? then
              && OnlyBank(s, after) && after.bank.ledger == s.bank.ledger
              && after.bank.users == s.bank.users[u := s.bank.users[u].(referredBy := Some(referrer))]
            else after == s
    ensures Handle(s, StartLink(u, referrer)).Success? <==> u in s.bank.users
  {
  }

  /** A profile change sets the two flags of a known user and nothing else. */
  lemma ProfileAnswers(s: Db, u: UserId, banned: bool, termsAccepted: bool)
    ensures Handle(s, Profile(u, banned, termsAccepted)).Success? <==> u in s.bank.users
    ensures u in s.bank.users ==>
              var after := Step(s, Profile(u, banned, termsAccepted));
              && OnlyBank(s, after) && after.bank.ledger == s.bank.ledger
              && after.bank.users == s.bank.users[u :=
                   s.bank.users[u].(banned := banned, termsAccepted := termsAccepted)]
  {
  }

  // ---------------------------------------------------------------- opening invoices

  /** The first invoice opened under a key. */
  predicate FirstUnder(payments: seq<Payment>, key: InvoiceKey, p: nat) {
    p < |payments| && payments[p].key == key && forall q | 0 <= q < p :: payments[q].key != key
  }

  lemma {:induction false} FindsFirst(payments: seq<Payment>, key: InvoiceKey)
    ensures FindInvoice(payments, key).Some? ==> FirstUnder(payments, key, FindInvoice(payments, key).value)
    ensures FindInvoice(payments, key).None? ==> forall q | 0 <= q < |payments| :: payments[q].key != key
  {
    if payments != [] { FindsFirst(payments[..|payments| - 1], key); }
  }

  /** The user may open invoices, and asks for an allowed amount. */
  predicate MayDeposit(s: Db, r: DepositRequest) {
    && r.user in s.bank.users && !s.bank.users[r.user].banned && s.bank.users[r.user].termsAccepted
    && r.open && r.min <= r.amount <= r.max
  }

  /**
   * Opening an invoice: the same request again returns the invoice it opened and changes nothing;
   * a new one stores exactly one pending invoice, unless its online checkout failed, and then
   * nothing is left behind. Nobody gets an invoice of somebody else.
   */
  lemma DepositRequestAnswers(s: Db, r: DepositRequest, checkout: Option<string>, p: nat)
    requires FirstUnder(s.payments, r.key, p)
             || (p == |s.payments| && forall q | 0 <= q < p :: s.payments[q].key != r.key)
    ensures Handle(s, OpenDeposit(r, checkout)).Success? <==>
              && MayDeposit(s, r)
              && if p < |s.payments| then s.payments[p].user == r.user
                 else r.gateway != "razorpay" || checkout.Some?
    ensures var after := Step(s, OpenDeposit(r, checkout));
            if p < |s.payments| || Handle(s, OpenDeposit(r, checkout)).Failure? then after == s
            else after == s.(payments := s.payments + [Payment(r.user, r.amount, r.currency, r.gateway, Unpaid,
                   if r.gateway == "razorpay" then checkout else None, r.key)])
  {
    FindsFirst(s.payments, r.key);
    hide FindInvoice;
  }
}
