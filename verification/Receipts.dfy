/**
 * What a receipt has to say for an invoice to be paid or held, stated apart from the order in
 * which settlement checks it, and that settlement does exactly that.
 */
module Receipts {
  import opened Keys
  import opened Wallet
  import opened Tables
  import opened Referrals
  import opened Payments
  import opened Commissions
  import opened Deposits

  /** The same character, or one letter in its two cases. */
  predicate SameLetter(c: char, d: char) {
    || c == d
    || ('a' <= c <= 'z' && d as int == c as int - 32)
    || ('a' <= d <= 'z' && c as int == d as int - 32)
  }

  predicate SameIgnoringCase(a: string, b: string) {
    |a| == |b| && forall i | 0 <= i < |a| :: SameLetter(a[i], b[i])
  }

  /** It comes from the invoice's gateway or from staff, and no two references contradict each other. */
  predicate Concerns(row: Payment, r: Receipt) {
    && (r.gateway == row.gateway || r.manual)
    && (row.ref.Some? && row.ref.value != "" && r.ref.Some? && r.ref.value != "" ==> r.ref.value == row.ref.value)
  }

  /** It states the invoice's amount, and no other currency. */
  predicate Covers(row: Payment, r: Receipt) {
    && r.amount.Some? && r.amount.value == row.amount
    && (r.currency.Some? && r.currency.value != "" ==> SameIgnoringCase(r.currency.value, row.currency))
  }

  lemma SameCaseReflexive(a: string)
    ensures SameIgnoringCase(a, a)
  {
  }

  lemma {:induction false} UpperIgnoresCase(a: string, b: string)
    ensures |Upper(a)| == |a|
    ensures Upper(a) == Upper(b) <==> SameIgnoringCase(a, b)
    decreases |a| + |b|
  {
    UpperLength(a);
    UpperLength(b);
    if a != [] && |a| == |b| {
      var n := |a| - 1;
      UpperIgnoresCase(a[..n], b[..n]);
      UpperLast(a);
      UpperLast(b);
      SameLetterLast(a, b);
      hide Upper, SameIgnoringCase, SameLetter;
      assert Upper(a)[..n] == Upper(a[..n]) && Upper(b)[..n] == Upper(b[..n]);
    }
  }

  lemma {:induction false} UpperLength(a: string)
    ensures |Upper(a)| == |a|
  {
    if a != [] { UpperLength(a[..|a| - 1]); }
  }

  function UpperChar(c: char): char {
    if 'a' <= c <= 'z' then (c as int - 32) as char else c
  }

  lemma UpperLast(a: string)
    requires a != []
    ensures Upper(a) == Upper(a[..|a| - 1]) + [UpperChar(a[|a| - 1])]
  {
  }

  lemma SameLetterLast(a: string, b: string)
    requires a != [] && |a| == |b|
    ensures var n := |a| - 1;
            && (SameIgnoringCase(a, b) <==> SameIgnoringCase(a[..n], b[..n]) && SameLetter(a[n], b[n]))
            && (SameLetter(a[n], b[n]) <==> UpperChar(a[n]) == UpperChar(b[n]))
  {
    var n := |a| - 1;
    hide SameLetter;
    if SameIgnoringCase(a[..n], b[..n]) && SameLetter(a[n], b[n]) {
      forall i | 0 <= i < |a| ensures SameLetter(a[i], b[i]) {
        if i < n { assert SameLetter(a[..n][i], b[..n][i]); }
      }
    }
    SameLetterUpper(a[n], b[n]);
  }

  lemma SameLetterUpper(c: char, d: char)
    ensures SameLetter(c, d) <==> UpperChar(c) == UpperChar(d)
  {
  }

  /** The checks of settlement, in terms of what a receipt has to say. */
  lemma VerdictIs(row: Payment, r: Receipt, known: bool)
    ensures Verdict(row, r, known) in {GatewayMismatch, RefMismatch} <==> !Concerns(row, r)
    ensures Concerns(row, r) ==> (Verdict(row, r, known) == AlreadyPaid <==> row.status == Paid)
    ensures Concerns(row, r) && row.status != Paid ==>
              && (Verdict(row, r, known) == Credited <==> Covers(row, r) && known)
              && (Verdict(row, r, known) in {AmountMismatch, OwnerMissing} <==> !Covers(row, r) || !known)
  {
    UpperIgnoresCase(if Given(r.currency) then r.currency.value else row.currency, row.currency);
    SameCaseReflexive(row.currency);
    hide Upper, SameIgnoringCase;
  }

  /** The reference of a paid invoice: its own, else the first 64 characters of the receipt's. */
  predicate KeepsOrTakesRef(row: Payment, r: Receipt, row': Payment) {
    if (row.ref.Some? && row.ref.value != "") || r.ref.None? || r.ref.value == "" then row'.ref == row.ref
    else
      && row'.ref.Some? && row'.ref.value <= r.ref.value && |row'.ref.value| <= 64
      && (row'.ref.value == r.ref.value || |row'.ref.value| == 64)
  }

  /**
   * Settlement, exactly: an unpaid invoice becomes paid if and only if the receipt concerns it and
   * covers it, its owner is known and its amount is positive; it is held if and only if the receipt
   * concerns it but does not cover it, or nobody known owns it; otherwise nothing changes at all.
   */
  lemma SettleAnswers(s: Db, p: nat, r: Receipt)
    requires LedgerOk(s.bank) && p < |s.payments|
    ensures var row := s.payments[p];
            var after := Commit(s, Settle(s, p, r));
            var open := row.status != Paid && Concerns(row, r);
            var fits := Covers(row, r) && row.user in s.bank.users;
            && LedgerOk(after.bank) && s.bank.users.Keys <= after.bank.users.Keys
            && |after.payments| == |s.payments| && after.payments == s.payments[p := after.payments[p]]
            && after == s.(bank := after.bank, payments := after.payments)
            && (if open && fits && row.amount > 0 then
                  && after.payments[p] == row.(status := Paid, ref := after.payments[p].ref)
                  && KeepsOrTakesRef(row, r, after.payments[p])
                  && HasKey(after.bank.ledger, DepositKey(p))
                else if open && !fits then
                  after == s.(payments := s.payments[p := row.(status := Held)])
                else
                  after == s)
            && (Settle(s, p, r).Failure? <==> open && fits && row.amount <= 0)
  {
    hide LedgerOk, Verdict, Concerns, Covers, Credit, CreditDepositCommission, PaidRow;
    var row := s.payments[p];
    VerdictIs(row, r, row.user in s.bank.users);
    if Verdict(row, r, row.user in s.bank.users) == Credited {
      if row.amount > 0 {
        SettlePays(s, p, r);
        PaidRowIs(row, r);
      } else {
        NothingToCredit(s.bank, row.user, row.amount, ForPayment(p), DepositKey(p));
      }
    }
  }

  lemma PaidRowIs(row: Payment, r: Receipt)
    ensures PaidRow(row, r.ref) == row.(status := Paid, ref := PaidRow(row, r.ref).ref)
    ensures KeepsOrTakesRef(row, r, PaidRow(row, r.ref))
  {
  }

  /** A receipt that fits is credited without an error. */
  lemma SettlePays(s: Db, p: nat, r: Receipt)
    requires LedgerOk(s.bank) && p < |s.payments| && s.payments[p].user in s.bank.users && s.payments[p].amount > 0
    requires Verdict(s.payments[p], r, true) == Credited
    ensures Settle(s, p, r).Success?
    ensures var after := Settle(s, p, r).value;
            && after == s.(bank := after.bank, payments := s.payments[p := PaidRow(s.payments[p], r.ref)])
            && LedgerOk(after.bank) && s.bank.users.Keys <= after.bank.users.Keys
            && HasKey(after.bank.ledger, DepositKey(p))
  {
    hide LedgerOk, Verdict, CreditDepositCommission, PaidRow;
    var row := s.payments[p];
    CreditSucceeds(s.bank, row.user, row.amount, ForPayment(p), DepositKey(p));
    CallExtends(s.bank, CreditCall(row.user, row.amount, ForPayment(p), DepositKey(p)));
    var credited := s.(bank := Credit(s.bank, row.user, row.amount, ForPayment(p), DepositKey(p)).value);
    hide Credit;
    RewardedDeposit(credited, p);
    var rewarded := CreditDepositCommission(credited, p).value;
    KeyStays(credited.bank, rewarded.bank, DepositKey(p));
  }

  lemma KeyStays(b: Bank, after: Bank, key: Key)
    requires Extends(b, after) && HasKey(b.ledger, key)
    ensures HasKey(after.ledger, key) && b.users.Keys <= after.users.Keys
  {
    hide LedgerOk;
    var k :| 0 <= k < |b.ledger| && b.ledger[k].key == key;
    assert after.ledger[k].key == key;
  }
}
