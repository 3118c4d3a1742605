/** Deposits over whole runs: settlement is a climb to a maximum, whatever the order of deliveries. */
module PaymentRuns {
  import opened Sums
  import opened Rounding
  import opened Keys
  import opened Wallet
  import opened Pricing
  import opened Tables
  import opened Payments
  import opened Engine
  import opened Books
  import opened Deposits
  import opened Receipts
  import opened SettlementRules

  // ---------------------------------------------------------------- levels

  /** pending < expired < review < paid */
  function Rank(status: PaymentStatus): nat {
    match status
    case Unpaid => 0
    case Expired => 1
    case Held => 2
    case Paid => 3
  }

  /** How high a receipt lifts an invoice that is not paid yet and has a known owner. */
  function ReceiptLevel(row: Payment, r: Receipt): nat {
    if !Concerns(row, r) then 0
    else if !Covers(row, r) then 2
    else if row.amount > 0 then 3
    else 0
  }

  /** How high one event lifts invoice `p`, judged by the invoice as it was opened. */
  function Level(row: Payment, p: nat, e: Event): nat {
    if ReceiptFor(row, p, e).Some? then ReceiptLevel(row, ReceiptFor(row, p, e).value)
    else if ExpiryFor(row, p, e) then 1
    else 0
  }

  function HighestLevel(row: Payment, p: nat, events: seq<Event>): nat {
    if events == [] then 0
    else Max(HighestLevel(row, p, events[..|events| - 1]), Level(row, p, events[|events| - 1]))
  }

  // ---------------------------------------------------------------- one call, seen from one invoice

  /** The identity of an invoice never changes, and its reference only when it becomes paid. */
  predicate SameInvoice(row: Payment, row': Payment) {
    && row'.user == row.user && row'.amount == row.amount && row'.currency == row.currency
    && row'.gateway == row.gateway && row'.key == row.key
    && (row'.status != Paid ==> row'.ref == row.ref)
  }

  ghost predicate ClimbsTo(row: Payment, row': Payment, level: nat) {
    && SameInvoice(row, row')
    && Rank(row'.status) == Max(Rank(row.status), level)
    && (row.status == Paid ==> row' == row)
  }

  // ---------------------------------------------------------------- reconciliation

  predicate Rises(row: Payment, row': Payment) {
    SameInvoice(row, row') && Rank(row.status) <= Rank(row'.status) && (row.status == Paid ==> row' == row)
  }

  /** Reconciliation only moves an invoice upward. */
  lemma {:induction false} ReconcileRises(s: Db, rows: seq<nat>, gateway: string, answers: map<nat, GatewayAnswer>,
      p: nat)
    requires LedgerOk(s.bank) && p < |s.payments|
    requires ReconcileAll(s, rows, gateway, answers).Success?
    ensures var after := ReconcileAll(s, rows, gateway, answers).value;
            && LedgerOk(after.bank) && after.seen == s.seen
            && |after.payments| == |s.payments| && Rises(s.payments[p], after.payments[p])
  {
    hide LedgerOk, ApplyAnswer, Covers, KeepsOrTakesRef;
    if rows != [] {
      var q := rows[|rows| - 1];
      ReconcileRises(s, rows[..|rows| - 1], gateway, answers, p);
      var before := ReconcileAll(s, rows[..|rows| - 1], gateway, answers).value;
      if q in answers && q < |before.payments| { OneAnswer(before, q, gateway, answers[q]); }
    }
  }

  // ---------------------------------------------------------------- every run

  lemma LevelIgnoresStatus(row: Payment, row': Payment, p: nat, e: Event)
    requires SameInvoice(row, row') && row'.status != Paid
    ensures Level(row', p, e) == Level(row, p, e)
  {
    assert row'.(status := Unpaid) == row.(status := Unpaid);
  }

  lemma LevelIsAtMostPaid(row: Payment, p: nat, e: Event)
    ensures Level(row, p, e) <= 3
  {
  }

  /** Redelivered notices carry the same content, and none was processed before the run. */
  ghost predicate Redelivered(s: Db, events: seq<Event>) {
    && (forall j, k | 0 <= j < |events| && 0 <= k < |events| && events[j].Webhook? && events[k].Webhook?
          && events[j].gateway == events[k].gateway && events[j].notice.id == events[k].notice.id ::
               events[j] == events[k])
    && (forall k | 0 <= k < |events| && events[k].Webhook? :: (events[k].gateway, events[k].notice.id) !in s.seen)
  }

  ghost predicate Delivered(events: seq<Event>, id: (string, string)) {
    exists k | 0 <= k < |events| :: events[k].Webhook? && (events[k].gateway, events[k].notice.id) == id
  }

  lemma {:induction false} LevelsAreIncluded(row: Payment, p: nat, events: seq<Event>, k: nat)
    requires k < |events|
    ensures Level(row, p, events[k]) <= HighestLevel(row, p, events)
  {
    if k < |events| - 1 { LevelsAreIncluded(row, p, events[..|events| - 1], k); }
  }

  /** One call without reconciliation climbs to its level, or repeats a notice already seen. */
  lemma StepClimbs(s: Db, e: Event, p: nat)
    requires DepositsOk(s) && p < |s.payments| && !e.ReconcilePending?
    ensures p < |Step(s, e).payments|
    ensures ClimbsTo(s.payments[p], Step(s, e).payments[p], if Repeated(s, e) then 0 else Level(s.payments[p], p, e))
  {
    assert PaymentOk(AccountsOf(s), p);
    LedgerOfDeposits(s);
    hide DepositsOk, LedgerOk, Step, Concerns, Covers, KeepsOrTakesRef;
    CallAnswers(s, e, p);
  }

  lemma SeenGrows(s: Db, e: Event)
    requires !e.ReconcilePending?
    ensures forall id | id in Step(s, e).seen :: id in s.seen || (e.Webhook? && id == (e.gateway, e.notice.id))
  {
    if e.Webhook? {
      NoticeIsSeen(s, e.gateway, e.notice);
    } else if e.Check? || e.Confirm? {
      DepositCallLeavesSeen(s, e);
    } else {
      OtherCallsLeavePayments(s, e);
    }
  }

  /**
   * Settlement is confluent: after any run, an invoice stands at the highest level that any of
   * the run's events lifts it to, in pending < expired < review < paid. Order, interleaving with
   * other calls, and redelivery of notices make no difference.
   */
  lemma {:induction false} SettlementReachesMaximum(s: Db, events: seq<Event>, p: nat)
    requires DepositsOk(s) && p < |s.payments|
    requires Redelivered(s, events) && forall k | 0 <= k < |events| :: !events[k].ReconcilePending?
    ensures DepositsOk(Run(s, events)) && p < |Run(s, events).payments|
    ensures forall id | id in Run(s, events).seen :: id in s.seen || Delivered(events, id)
    ensures var row, row' := s.payments[p], Run(s, events).payments[p];
            SameInvoice(row, row') && Rank(row'.status) == Max(Rank(row.status), HighestLevel(row, p, events))
  {
    hide DepositsOk, Step;
    if events != [] {
      var n := |events| - 1;
      var earlier, e := events[..n], events[n];
      SettlementReachesMaximum(s, earlier, p);
      var before := Run(s, earlier);
      StepKeepsDeposits(before, e);
      StepClimbs(before, e, p);
      SeenGrows(before, e);
      LevelIsAtMostPaid(s.payments[p], p, e);
      if before.payments[p].status != Paid { LevelIgnoresStatus(s.payments[p], before.payments[p], p, e); }
      LevelIsAtMostPaid(before.payments[p], p, e);
      DeliveredGrows(earlier, e, events);
      if e.Webhook? && (e.gateway, e.notice.id) in before.seen {
        var k :| 0 <= k < |earlier| && earlier[k].Webhook?
          && (earlier[k].gateway, earlier[k].notice.id) == (e.gateway, e.notice.id);
        assert events[k] == events[n];
        LevelsAreIncluded(s.payments[p], p, earlier, k);
      }
    }
  }

  lemma DeliveredGrows(earlier: seq<Event>, e: Event, events: seq<Event>)
    requires |events| > 0 && earlier == events[..|events| - 1] && e == events[|events| - 1]
    ensures forall id :: Delivered(earlier, id) ==> Delivered(events, id)
    ensures e.Webhook? ==> Delivered(events, (e.gateway, e.notice.id))
  {
    forall id | Delivered(earlier, id) ensures Delivered(events, id) {
      var k :| 0 <= k < |earlier| && earlier[k].Webhook? && (earlier[k].gateway, earlier[k].notice.id) == id;
      assert events[k] == earlier[k];
    }
  }

  /** The highest level is a property of the set of events. */
  lemma {:induction false} HighestLevelOfSet(row: Payment, p: nat, events: seq<Event>, others: seq<Event>)
    requires forall k | 0 <= k < |events| :: events[k] in others
    ensures HighestLevel(row, p, events) <= HighestLevel(row, p, others)
  {
    if events != [] {
      var n := |events| - 1;
      HighestLevelOfSet(row, p, events[..n], others);
      var k :| 0 <= k < |others| && others[k] == events[n];
      LevelsAreIncluded(row, p, others, k);
    }
  }

  // ---------------------------------------------------------------- exactly-once credit

  /** What the ledger credited for one invoice. */
  function CreditFor(p: nat): Entry -> int {
    (e: Entry) => if e.ref == ForPayment(p) then e.amount else 0
  }

  lemma {:induction false} OneEntrySum(ledger: seq<Entry>, f: Entry -> int, k: nat)
    requires k < |ledger| && forall j | 0 <= j < |ledger| && j != k :: f(ledger[j]) == 0
    ensures Sum(ledger, f) == f(ledger[k])
  {
    if k == |ledger| - 1 {
      SumZero(ledger[..k], f);
    } else {
      OneEntrySum(ledger[..|ledger| - 1], f, k);
    }
  }

  /**
   * Exactly-once deposits: an invoice is paid if and only if the ledger holds an entry under its
   * deposit key; that entry is the only one, and credits the owner exactly the invoice amount.
   */
  lemma DepositExactlyOnce(s: Db, p: nat)
    requires DepositsOk(s) && p < |s.payments|
    ensures s.payments[p].status == Paid <==> HasKey(s.bank.ledger, DepositKey(p))
    ensures forall k | 0 <= k < |s.bank.ledger| && s.bank.ledger[k].key == DepositKey(p) ::
              s.bank.ledger[k].user == s.payments[p].user && s.bank.ledger[k].amount == s.payments[p].amount
    ensures forall j, k | 0 <= j < |s.bank.ledger| && 0 <= k < |s.bank.ledger|
              && s.bank.ledger[j].key == DepositKey(p) && s.bank.ledger[k].key == DepositKey(p) :: j == k
    ensures Sum(s.bank.ledger, CreditFor(p)) == if s.payments[p].status == Paid then s.payments[p].amount else 0
  {
    assert PaymentOk(AccountsOf(s), p);
    forall k | 0 <= k < |s.bank.ledger|
      ensures s.bank.ledger[k].key == DepositKey(p) <==> s.bank.ledger[k].ref == ForPayment(p)
      ensures s.bank.ledger[k].key == DepositKey(p) ==>
                s.bank.ledger[k].user == s.payments[p].user && s.bank.ledger[k].amount == s.payments[p].amount
    {
      assert DepositEntryOk(s, s.bank.ledger[k]);
    }
    assert UniqueKeys(s.bank.ledger);
    hide DepositsOk, DepositEntryOk, LedgerOk;
    if s.payments[p].status == Paid {
      var k :| 0 <= k < |s.bank.ledger| && s.bank.ledger[k].key == DepositKey(p);
      OneEntrySum(s.bank.ledger, CreditFor(p), k);
    } else {
      SumZero(s.bank.ledger, CreditFor(p));
    }
  }

  /**
   * Two runs with the same events, in any order and with any redeliveries, leave an invoice in
   * the same status and credit the same amount for it.
   */
  lemma SettlementIsConfluent(s: Db, events: seq<Event>, others: seq<Event>, p: nat)
    requires DepositsOk(s) && p < |s.payments|
    requires Redelivered(s, events) && Redelivered(s, others)
    requires forall k | 0 <= k < |events| :: !events[k].ReconcilePending? && events[k] in others
    requires forall k | 0 <= k < |others| :: !others[k].ReconcilePending? && others[k] in events
    ensures p < |Run(s, events).payments| && p < |Run(s, others).payments|
    ensures Run(s, events).payments[p].status == Run(s, others).payments[p].status
    ensures Sum(Run(s, events).bank.ledger, CreditFor(p)) == Sum(Run(s, others).bank.ledger, CreditFor(p))
  {
    hide DepositsOk, Run;
    SettlementReachesMaximum(s, events, p);
    SettlementReachesMaximum(s, others, p);
    HighestLevelOfSet(s.payments[p], p, events, others);
    HighestLevelOfSet(s.payments[p], p, others, events);
    DepositExactlyOnce(Run(s, events), p);
    DepositExactlyOnce(Run(s, others), p);
  }

  /** Whatever calls follow, reconciliation included, a paid invoice never changes again. */
  lemma {:induction false} PaidIsNeverLeft(s: Db, events: seq<Event>, p: nat)
    requires DepositsOk(s) && p < |s.payments|
    ensures DepositsOk(Run(s, events)) && p < |Run(s, events).payments|
    ensures Rises(s.payments[p], Run(s, events).payments[p])
  {
    hide DepositsOk, Step;
    if events != [] {
      var earlier, e := events[..|events| - 1], events[|events| - 1];
      PaidIsNeverLeft(s, earlier, p);
      StepKeepsDeposits(Run(s, earlier), e);
      StepRises(Run(s, earlier), e, p);
    }
  }

  lemma StepRises(s: Db, e: Event, p: nat)
    requires DepositsOk(s) && p < |s.payments|
    ensures p < |Step(s, e).payments| && Rises(s.payments[p], Step(s, e).payments[p])
  {
    LedgerOfDeposits(s);
    hide DepositsOk, LedgerOk, ReconcileAll, ToReconcile;
    if e.ReconcilePending? {
      if Handle(s, e).Success? {
        ReconcileRises(s, ToReconcile(s.payments, e.gateway, e.aged, e.limit), e.gateway, e.answers, p);
      }
    } else {
      hide Step;
      StepClimbs(s, e, p);
    }
  }

  /**
   * In every state any run from the empty database reaches: an invoice is paid if and only if the
   * ledger holds an entry under its key, and it was credited exactly its amount or nothing.
   */
  lemma DepositsAreCreditedOnce(coupons: map<Code, Coupon>, events: seq<Event>, p: nat)
    requires p < |Run(EmptyDb(coupons), events).payments|
    ensures var s := Run(EmptyDb(coupons), events);
            && (s.payments[p].status == Paid <==> HasKey(s.bank.ledger, DepositKey(p)))
            && Sum(s.bank.ledger, CreditFor(p)) == if s.payments[p].status == Paid then s.payments[p].amount else 0
  {
    assert DepositsOk(EmptyDb(coupons));
    hide DepositsOk, Run, EmptyDb;
    RunKeepsDeposits(EmptyDb(coupons), events);
    DepositExactlyOnce(Run(EmptyDb(coupons), events), p);
  }
}
