/** Commissions, payouts and attribution, as functions of the database. */
module Referrals {
  import opened Results
  import opened Sums
  import opened Keys
  import opened Wallet
  import opened Tables

  const REFERRAL_ORDER_COMMISSION_PERCENT := 8
  const REFERRAL_DEPOSIT_COMMISSION_PERCENT := 5
  const REFERRAL_ORDER_CAP := 3
  const MIN_PAYOUT_PAISE := 10000

  function Commission(amount: int, percent: int): int {
    if amount <= 0 || percent <= 0 then 0 else amount * percent / 100
  }

  function CompletedBy(user: UserId): Order -> int {
    (o: Order) => if o.user == user && o.status == Completed then 1 else 0
  }

  /** How many orders of the same buyer with a lower id are completed. */
  function CompletedBelow(orders: seq<Order>, i: nat): int
    requires i < |orders|
  {
    Sum(orders[..i], CompletedBy(orders[i].user))
  }

  /** The account that earns on a user's orders, when there is one. */
  function ReferrerOf(b: Bank, buyer: UserId): Option<UserId> {
    if buyer !in b.users || b.users[buyer].referredBy.None? then None
    else
      var referrer := b.users[buyer].referredBy.value;
      if referrer !in b.users || referrer == buyer then None else Some(referrer)
  }

  /** What completing order `i` is worth to the referrer, before the replay guard. */
  function OrderCommissionDue(s: Db, i: nat): int
    requires i < |s.orders|
  {
    var o := s.orders[i];
    if o.status != Completed || ReferrerOf(s.bank, o.user).None? || CompletedBelow(s.orders, i) >= REFERRAL_ORDER_CAP
      then 0
    else Commission(o.charge, REFERRAL_ORDER_COMMISSION_PERCENT)
  }

  /** 8% of the order, when it is among the buyer's three lowest completed ids. */
  function CreditOrderCommission(s: Db, i: nat): Result<Db>
    requires i < |s.orders|
  {
    var due := OrderCommissionDue(s, i);
    if due <= 0 then Success(s)
    else
      var referrer := ReferrerOf(s.bank, s.orders[i].user).value;
      var bank :- Credit(s.bank, referrer, due, ForReferredOrder(i), OrderCommissionKey(i));
      Success(s.(bank := bank))
  }

  function PaidPaymentOf(user: UserId): Payment -> int {
    (p: Payment) => if p.user == user && p.status == Paid then 1 else 0
  }

  /**
   * 5% of a deposit, guarded by a key per buyer. Called while payment `p` is not yet stored as
   * paid, so the count of paid deposits leaves it out.
   */
  function CreditDepositCommission(s: Db, p: nat): Result<Db>
    requires p < |s.payments|
  {
    var payment := s.payments[p];
    var due := Commission(payment.amount, REFERRAL_DEPOSIT_COMMISSION_PERCENT);
    if ReferrerOf(s.bank, payment.user).None? || Sum(s.payments, PaidPaymentOf(payment.user)) > 1 || due <= 0
      then Success(s)
    else
      var referrer := ReferrerOf(s.bank, payment.user).value;
      var bank :- Credit(s.bank, referrer, due, ForReferredDeposit(p), DepositCommissionKey(payment.user));
      Success(s.(bank := bank))
  }

  /** A deposit commission touches nothing but the bank. */
  lemma CommissionMovesOnlyMoney(s: Db, p: nat)
    requires p < |s.payments| && CreditDepositCommission(s, p).Success?
    ensures CreditDepositCommission(s, p).value == s.(bank := CreditDepositCommission(s, p).value.bank)
  {
  }

  function RequestPayout(s: Db, user: UserId, amount: int): Result<Db> {
    if user !in s.bank.users then Failure(UnknownUser)
    else if amount < MIN_PAYOUT_PAISE then Failure(BelowMinimumPayout)
    else if Available(s.bank.users[user]) < amount then Failure(InsufficientFunds)
    else
      var n := |s.payouts|;
      var bank :- Debit(s.bank, user, amount, ForPayout(n), PayoutKey(n));
      Success(s.(bank := bank, payouts := s.payouts + [Payout(user, amount)]))
  }

  /** A first start link attributes a visitor to somebody else, once. */
  function RecordStart(s: Db, visitor: UserId, referrer: UserId): Result<Db> {
    if visitor !in s.bank.users then Failure(UnknownUser)
    else if referrer !in s.bank.users || referrer == visitor || s.bank.users[visitor].referredBy.Some? then Success(s)
    else
      var row := s.bank.users[visitor].(referredBy := Some(referrer));
      Success(s.(bank := s.bank.(users := s.bank.users[visitor := row])))
  }
}
