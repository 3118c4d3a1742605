/** The deposit lifecycle, as functions of the database. Gateway answers are arguments. */
module Payments {
  import opened Results
  import opened Keys
  import opened Wallet
  import opened Tables
  import opened Referrals

  const RAZORPAY := "razorpay"

  datatype SettleOutcome = Credited | AlreadyPaid | AmountMismatch | OwnerMissing | GatewayMismatch | RefMismatch

  /** What a gateway says it received. */
  datatype Receipt = Receipt(gateway: string, ref: Option<string>, amount: Option<int>, currency: Option<string>,
    manual: bool)

  function Upper(text: string): string {
    if text == [] then []
    else
      var c := text[|text| - 1];
      Upper(text[..|text| - 1]) + [if 'a' <= c <= 'z' then (c as int - 32) as char else c]
  }

  predicate Given(text: Option<string>) {
    text.Some? && text.value != ""
  }

  /** What a receipt means for an invoice, checked in the order of the settlement rules. */
  function Verdict(p: Payment, r: Receipt, ownerKnown: bool): SettleOutcome {
    if p.gateway != r.gateway && !r.manual then GatewayMismatch
    else if Given(p.ref) && Given(r.ref) && p.ref != r.ref then RefMismatch
    else if p.status == Paid then AlreadyPaid
    else
      var currency := if Given(r.currency) then r.currency.value else p.currency;
      if r.amount != Some(p.amount) || Upper(currency) != Upper(p.currency) then AmountMismatch
      else if !ownerKnown then OwnerMissing
      else Credited
  }

  /** Only an unpaid invoice is credited or held, and only a known owner is credited. */
  lemma VerdictMeans(row: Payment, r: Receipt, known: bool)
    ensures Verdict(row, r, known) == Credited ==> known && row.status != Paid
    ensures Verdict(row, r, known) in {AmountMismatch, OwnerMissing} ==> row.status != Paid
  {
  }

  function SetPayment(s: Db, p: nat, row: Payment): Db
    requires p < |s.payments|
  {
    s.(payments := s.payments[p := row])
  }

  /** The paid invoice, with the gateway's reference if it had none. */
  function PaidRow(p: Payment, ref: Option<string>): Payment {
    p.(status := Paid,
       ref := if Given(ref) && !Given(p.ref) then Some(if |ref.value| > 64 then ref.value[..64] else ref.value)
         else p.ref)
  }

  /** Settles an invoice by a receipt: the amount goes to the wallet if the receipt fits, else the invoice is held. */
  function Settle(s: Db, p: nat, r: Receipt): Result<Db>
    requires p < |s.payments|
  {
    var row := s.payments[p];
    match Verdict(row, r, row.user in s.bank.users)
    case Credited =>
      var bank :- Credit(s.bank, row.user, row.amount, ForPayment(p), DepositKey(p));
      var rewarded :- CreditDepositCommission(s.(bank := bank), p);
      Success(SetPayment(rewarded, p, PaidRow(row, r.ref)))
    case AmountMismatch => Success(SetPayment(s, p, row.(status := Held)))
    case OwnerMissing => Success(SetPayment(s, p, row.(status := Held)))
    case _ => Success(s)
  }

  function Expire(s: Db, p: nat): Db
    requires p < |s.payments|
  {
    if s.payments[p].status == Unpaid then SetPayment(s, p, s.payments[p].(status := Expired)) else s
  }

  function HandleWebhook(s: Db, gateway: string, n: Notice): Result<Db> {
    if (gateway, n.id) in s.seen then Success(s)
    else
      var known := s.(seen := s.seen + {(gateway, n.id)});
      if n.payment.None? || n.payment.value >= |s.payments| then Success(known)
      else
        match n.kind
        case PaidNotice => Settle(known, n.payment.value, Receipt(gateway, n.ref, n.amount, n.currency, false))
        case ExpiredNotice => Success(Expire(known, n.payment.value))
        case _ => Success(known)
  }

  /** The gateway's answer about one checkout. */
  datatype GatewayAnswer = GatewayDown | SaysPaid(amount: Option<int>,
    currency: Option<string>) | SaysExpired | SaysOpen

  function ApplyAnswer(s: Db, p: nat, gateway: string, answer: GatewayAnswer): Result<Db>
    requires p < |s.payments|
  {
    match answer
    case SaysPaid(amount, currency) => Settle(s, p, Receipt(gateway, s.payments[p].ref, amount, currency, false))
    case SaysExpired => Success(Expire(s, p))
    case _ => Success(s)
  }

  /** The buyer's "I have paid" button: only the gateway is believed. */
  function CheckPayment(s: Db, p: nat, user: UserId, answer: GatewayAnswer): Result<Db>
    requires p < |s.payments|
  {
    var row := s.payments[p];
    if row.user != user || row.status == Paid || row.gateway != RAZORPAY || !Given(row.ref) then Success(s)
    else ApplyAnswer(s, p, RAZORPAY, answer)
  }

  /** A staff member settles an invoice by hand. */
  function ManualConfirm(s: Db, p: nat): Result<Db>
    requires p < |s.payments|
  {
    var row := s.payments[p];
    Settle(s, p, Receipt(row.gateway, row.ref, Some(row.amount), Some(row.currency), true))
  }

  predicate Reconcilable(p: Payment, gateway: string) {
    p.gateway == gateway && p.status in {Unpaid, Expired} && p.ref.Some?
  }

  /** The first `limit` reconcilable invoices inside the age window, by id. */
  function ToReconcile(payments: seq<Payment>, gateway: string, aged: set<nat>, limit: nat): seq<nat>
  {
    if payments == [] then []
    else
      var n := |payments| - 1;
      var before := ToReconcile(payments[..n], gateway, aged, limit);
      if Reconcilable(payments[n], gateway) && n in aged && |before| < limit then before + [n] else before
  }

  /** The invoices reconciliation is for: of this gateway, pending or expired, at a checkout, inside the age window. */
  predicate Asked(payments: seq<Payment>, gateway: string, aged: set<nat>, n: nat)
    requires n < |payments|
  {
    var p := payments[n];
    p.gateway == gateway && (p.status == Unpaid || p.status == Expired) && p.ref.Some? && n in aged
  }

  /**
   * Reconciliation asks about open invoices in id order, each once, and leaves one out only for newer ones
   * than it has room for.
   */
  lemma {:induction false} ReconcilesOldestFirst(payments: seq<Payment>, gateway: string, aged: set<nat>, limit: nat)
    ensures var rows := ToReconcile(payments, gateway, aged, limit);
            && |rows| <= limit
            && (forall k | 0 <= k < |rows| :: rows[k] < |payments| && Asked(payments, gateway, aged, rows[k]))
            && (forall j, k | 0 <= j < k < |rows| :: rows[j] < rows[k])
            && (forall n | 0 <= n < |payments| && Asked(payments, gateway, aged, n) && n !in rows ::
                  |rows| == limit && forall k | 0 <= k < |rows| :: rows[k] < n)
  {
    if payments != [] {
      var m := |payments| - 1;
      ReconcilesOldestFirst(payments[..m], gateway, aged, limit);
      forall n: nat | n < m ensures Asked(payments[..m], gateway, aged, n) == Asked(payments, gateway, aged, n) {}
      hide Asked;
      var before := ToReconcile(payments[..m], gateway, aged, limit);
      var rows := ToReconcile(payments, gateway, aged, limit);
      assert rows == before || rows == before + [m];
      assert forall x | x in before :: x in rows;
      assert rows != before ==> rows[|before|] == m;
    }
  }

  /** Asks the gateway about each selected invoice in turn. */
  function ReconcileAll(s: Db, rows: seq<nat>, gateway: string, answers: map<nat, GatewayAnswer>): Result<Db>
  {
    if rows == [] then Success(s)
    else
      var before :- ReconcileAll(s, rows[..|rows| - 1], gateway, answers);
      var p := rows[|rows| - 1];
      if p !in answers || p >= |before.payments| then Success(before) else ApplyAnswer(before, p, gateway, answers[p])
  }

  function Reconcile(s: Db, gateway: string, aged: set<nat>, limit: nat, answers: map<nat, GatewayAnswer>): Result<Db> {
    ReconcileAll(s, ToReconcile(s.payments, gateway, aged, limit), gateway, answers)
  }

  datatype DepositRequest = DepositRequest(
    user: UserId,
    amount: int,
    key: InvoiceKey,
    gateway: string,
    currency: string,
    min: int,
    max: int,
    open: bool
  )

  function FindInvoice(payments: seq<Payment>, key: InvoiceKey): Option<nat> {
    if payments == [] then None
    else if FindInvoice(payments[..|payments| - 1], key).Some? then FindInvoice(payments[..|payments| - 1], key)
    else if payments[|payments| - 1].key == key then Some(|payments| - 1)
    else None
  }

  /** Opens an invoice; a gateway invoice needs a checkout, whose reference it keeps. */
  function CreateDeposit(s: Db, r: DepositRequest, checkout: Option<string>): Result<Db> {
    if r.user !in s.bank.users then Failure(UnknownUser)
    else if s.bank.users[r.user].banned then Failure(Suspended)
    else if !s.bank.users[r.user].termsAccepted then Failure(TermsNotAccepted)
    else if !r.open then Failure(Closed)
    else if r.amount < r.min || r.amount > r.max then Failure(DepositOutOfRange)
    else
      var known := FindInvoice(s.payments, r.key);
      if known.Some? && known.value < |s.payments| then
        if s.payments[known.value].user == r.user then Success(s) else Failure(DuplicateKey)
      else if r.gateway == RAZORPAY && checkout.None? then Failure(ProviderRefused)
      else
        var ref := if r.gateway == RAZORPAY then checkout else None;
        Success(s.(payments := s.payments + [Payment(r.user, r.amount, r.currency, r.gateway, Unpaid, ref, r.key)]))
  }
}
