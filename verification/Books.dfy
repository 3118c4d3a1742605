/**
 * The books: what the cached wallet columns and the ledger must say, given the order, payment
 * and payout rows. `MoneyOk` holds in every run; the reserve of each user (`HoldsOk`) and the full
 * refund of cancelled orders (`InFull`) depend on which orders are cancelled. `BooksOk` is all three.
 */
module Books {
  import opened Sums
  import opened Keys
  import opened Wallet
  import opened Tables
  import opened Orders

  /** The tables that money depends on. */
  datatype Accounts = Accounts(
    bank: Bank,
    orders: seq<Order>,
    records: map<Key, int>,
    payments: seq<Payment>,
    payouts: seq<Payout>
  )

  function AccountsOf(s: Db): Accounts {
    Accounts(s.bank, s.orders, s.records, s.payments, s.payouts)
  }

  // ---------------------------------------------------------------- totals over business rows

  /** Funds reserved and neither captured nor given back. */
  predicate IsHeld(o: Order) {
    o.provider.None? && o.status in {AwaitingProvider, Review}
  }

  predicate IsCaptured(o: Order) {
    o.provider.Some?
  }

  function HeldBy(user: UserId): Order -> int {
    (o: Order) => if o.user == user && IsHeld(o) then o.charge else 0
  }

  function CapturedFrom(user: UserId): Order -> int {
    (o: Order) => if o.user == user && IsCaptured(o) then o.charge else 0
  }

  function Recorded(records: map<Key, int>, key: Key): int {
    if key in records then records[key] else 0
  }

  /** The row was pending when it was cancelled: nothing was credited by that. */
  predicate CancelledFromPending(o: Order) {
    o.status == Canceled && |o.events| > 0 && o.events[|o.events| - 1].from == Pending
  }

  /** The refunds on record: a partial one, and one by the provider's closing status. */
  function RecordedRefunds(records: map<Key, int>, o: Order): int {
    Recorded(records, PartialKey(o.id))
    + Recorded(records, RefundKey(o.id, CanceledTag)) + Recorded(records, RefundKey(o.id, FailedTag))
  }

  /** What the business rows say was refunded: all of it when cancelled while at work, else what is on record. */
  function RefundOf(records: map<Key, int>, o: Order): int {
    if !IsCaptured(o) then 0
    else if o.status == Canceled && !CancelledFromPending(o) then o.charge
    else RecordedRefunds(records, o)
  }

  function RefundedTo(records: map<Key, int>, user: UserId): Order -> int {
    (o: Order) => if o.user == user then RefundOf(records, o) else 0
  }

  function DepositedBy(user: UserId): Payment -> int {
    (p: Payment) => if p.user == user && p.status == Paid then p.amount else 0
  }

  function PaidOutTo(user: UserId): Payout -> int {
    (p: Payout) => if p.user == user then p.amount else 0
  }

  /** Commissions, staff adjustments and bonuses: money that no order, payment or payout row explains. */
  predicate IsOutside(ref: Ref) {
    ref.ForReferredOrder? || ref.ForReferredDeposit? || ref.ForAdmin? || ref.ForBonus?
  }

  function OutsideOf(user: UserId): Entry -> int {
    (e: Entry) => if e.user == user && IsOutside(e.ref) then e.amount else 0
  }

  // ---------------------------------------------------------------- the invariant

  predicate PhaseOk(o: Order) {
    if o.provider.None? then o.status in {AwaitingProvider, Review, Failed, Canceled}
    else o.status !in {AwaitingProvider, Review}
  }

  ghost predicate RowOk(a: Accounts, i: nat)
    requires i < |a.orders|
  {
    var o := a.orders[i];
    o.id == i && o.user in a.bank.users && o.charge > 0 && PhaseOk(o)
  }

  /** Which rows the key of a ledger entry speaks about, and what they must look like by now. */
  ghost predicate EntryOk(a: Accounts, e: Entry) {
    && (e.ref.ForOrder? ==> e.ref.order < |a.orders| && e.user == a.orders[e.ref.order].user)
    && (e.kind == CreditEntry ==> e.amount > 0)
    && (e.ref.ForPayment? ==> e.key == DepositKey(e.ref.payment))
    && (e.ref.ForReferredOrder? ==> e.key == OrderCommissionKey(e.ref.order))
    && (e.ref.ForReferredDeposit? ==> e.key.DepositCommissionKey?)
    && match e.key
       case ReserveKey(i) => i < |a.orders|
       case CaptureKey(i) => i < |a.orders| && IsCaptured(a.orders[i])
       case ReleaseKey(i, _) => i < |a.orders| && a.orders[i].status in {Failed, Canceled}
       case PartialKey(i) => e.key in a.records
       case RefundKey(i, tag) =>
         i < |a.orders| && if tag == UserCancelTag then a.orders[i].status == Canceled else e.key in a.records
       case DepositKey(p) =>
         && p < |a.payments| && a.payments[p].status == Paid
         && e.user == a.payments[p].user && e.amount == a.payments[p].amount
         && e.kind == CreditEntry && e.ref == ForPayment(p)
       case PayoutKey(n) => n < |a.payouts|
       case _ => true
  }

  /** Refund records are written for captured orders only, and a closing refund ends the order. */
  ghost predicate RecordOk(a: Accounts, key: Key)
    requires key in a.records
  {
    && a.records[key] > 0
    && match key
       case PartialKey(i) => i < |a.orders| && IsCaptured(a.orders[i])
       case RefundKey(i, tag) =>
         i < |a.orders| && tag != UserCancelTag && IsCaptured(a.orders[i]) && a.orders[i].status == Refunded
       case _ => false
  }

  function RefundedOn(a: Accounts, i: nat): int
    requires i < |a.orders|
  {
    Sum(a.bank.ledger, RefundEntry(i, a.orders[i].user))
  }

  /** The provider or the buyer closed an order whose funds had been captured, while it was at work. */
  predicate ClosedAfterCapture(o: Order) {
    && IsCaptured(o)
    && (o.status == Failed
        || (o.status == Canceled && !CancelledFromPending(o))
        || (o.status == Refunded && |o.events| > 0 && o.events[|o.events| - 1].from in {Canceled, Failed}))
  }

  /** The ledger's credits for an order match its rows, never exceed its charge, and close it exactly. */
  ghost predicate RefundsOk(a: Accounts, i: nat)
    requires i < |a.orders|
  {
    var o := a.orders[i];
    && RefundedOn(a, i) == RefundOf(a.records, o)
    && 0 <= RefundedOn(a, i) <= o.charge
    && (ClosedAfterCapture(o) ==> RefundedOn(a, i) == o.charge)
  }

  /** A cancelled captured order was refunded in full. */
  predicate InFull(a: Accounts, i: nat)
    requires i < |a.orders|
  {
    var o := a.orders[i];
    IsCaptured(o) && o.status == Canceled ==> RefundOf(a.records, o) == o.charge
  }

  ghost predicate PaymentOk(a: Accounts, p: nat)
    requires p < |a.payments|
  {
    && a.payments[p].user in a.bank.users
    && (a.payments[p].status == Paid <==> HasKey(a.bank.ledger, DepositKey(p)))
  }

  ghost predicate HoldsOk(a: Accounts, user: UserId)
    requires user in a.bank.users
  {
    a.bank.users[user].reserved == Sum(a.orders, HeldBy(user))
  }

  ghost predicate BalanceOk(a: Accounts, user: UserId)
    requires user in a.bank.users
  {
    a.bank.users[user].balance
    == Sum(a.payments, DepositedBy(user)) + Sum(a.bank.ledger, OutsideOf(user))
      + Sum(a.orders, RefundedTo(a.records, user))
       - Sum(a.orders, CapturedFrom(user)) - Sum(a.payouts, PaidOutTo(user))
  }

  ghost predicate RowsOk(a: Accounts) {
    forall i | 0 <= i < |a.orders| :: RowOk(a, i)
  }

  ghost predicate EntriesOk(a: Accounts) {
    forall k | 0 <= k < |a.bank.ledger| :: EntryOk(a, a.bank.ledger[k])
  }

  ghost predicate RecordsOk(a: Accounts) {
    forall key | key in a.records :: RecordOk(a, key)
  }

  ghost predicate AllRefundsOk(a: Accounts) {
    forall i | 0 <= i < |a.orders| :: RefundsOk(a, i)
  }

  ghost predicate PaymentsOk(a: Accounts) {
    forall p | 0 <= p < |a.payments| :: PaymentOk(a, p)
  }

  ghost predicate PayoutsOk(a: Accounts) {
    forall n | 0 <= n < |a.payouts| :: a.payouts[n].user in a.bank.users
  }

  ghost predicate AllHoldsOk(a: Accounts) {
    forall u | u in a.bank.users :: HoldsOk(a, u)
  }

  ghost predicate AllBalancesOk(a: Accounts) {
    forall u | u in a.bank.users :: BalanceOk(a, u)
  }

  ghost predicate AllInFull(a: Accounts) {
    forall i | 0 <= i < |a.orders| :: InFull(a, i)
  }

  /** What every run keeps. */
  ghost predicate MoneyOk(a: Accounts) {
    && LedgerOk(a.bank)
    && RowsOk(a)
    && EntriesOk(a)
    && RecordsOk(a)
    && AllRefundsOk(a)
    && PaymentsOk(a)
    && PayoutsOk(a)
    && AllBalancesOk(a)
  }

  ghost predicate BooksOk(a: Accounts) {
    MoneyOk(a) && AllHoldsOk(a) && AllInFull(a)
  }

  // ---------------------------------------------------------------- what a step may do to the books

  /**
   * The step keeps what every run keeps, and with it the exact reserve of each user and the full
   * refund of each cancelled order.
   */
  ghost predicate Keeps(a: Accounts, a': Accounts) {
    && MoneyOk(a')
    && |a.orders| <= |a'.orders|
    && (forall u | u in a.bank.users :: u in a'.bank.users && (HoldsOk(a, u) ==> HoldsOk(a', u)))
    && (forall u | u in a'.bank.users && u !in a.bank.users :: HoldsOk(a', u))
    && (forall i | 0 <= i < |a'.orders| :: (i < |a.orders| ==> InFull(a, i)) ==> InFull(a', i))
  }

  lemma KeepsNothing(a: Accounts)
    requires MoneyOk(a)
    ensures Keeps(a, a)
  {
  }

  lemma KeepsTwice(a: Accounts, b: Accounts, c: Accounts)
    requires Keeps(a, b) && Keeps(b, c)
    ensures Keeps(a, c)
  {
    hide MoneyOk, HoldsOk, InFull;
  }

  lemma KeepsBooks(a: Accounts, a': Accounts)
    requires BooksOk(a) && Keeps(a, a')
    ensures BooksOk(a')
  {
    hide MoneyOk, HoldsOk, InFull;
  }

  lemma KeepsMoney(a: Accounts, a': Accounts)
    requires Keeps(a, a')
    ensures MoneyOk(a')
  {
    hide MoneyOk, HoldsOk, InFull;
  }
}
