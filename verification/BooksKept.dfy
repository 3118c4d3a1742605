/** The few kinds of change every engine call is made of, and what each keeps of the books. */
module BooksKept {
  import opened Results
  import opened Sums
  import opened Keys
  import opened Wallet
  import opened Tables
  import opened Orders
  import opened Books

  /** An append with a fresh key, spelled out. */
  ghost predicate Posts(b: Bank, after: Bank, e: Entry) {
    && e.user in b.users
    && !HasKey(b.ledger, e.key)
    && after.ledger == b.ledger + [e]
    && after.users == b.users[e.user := b.users[e.user].(balance := e.balanceAfter, reserved := e.reservedAfter)]
    && e.balanceAfter == b.users[e.user].balance + e.amount
    && 0 <= e.reservedAfter <= e.balanceAfter
  }

  lemma PostKeepsLedger(b: Bank, after: Bank, e: Entry)
    requires LedgerOk(b) && Posts(b, after, e)
    ensures LedgerOk(after)
  {
    AppendKeepsLedger(b, e.user, e.amount, e.kind, e.ref, e.key, e.balanceAfter, e.reservedAfter);
    assert after == Append(b, e.user, e.amount, e.kind, e.ref, e.key, e.balanceAfter, e.reservedAfter).value;
  }

  /** A key is in the grown ledger if it was there before or is the new one. */
  lemma KeyAfterPost(b: Bank, after: Bank, e: Entry, key: Key)
    requires after.ledger == b.ledger + [e]
    ensures HasKey(after.ledger, key) <==> HasKey(b.ledger, key) || key == e.key
  {
    if HasKey(b.ledger, key) {
      var i :| 0 <= i < |b.ledger| && b.ledger[i].key == key;
      assert after.ledger[i].key == key;
    }
    assert after.ledger[|b.ledger|] == e;
  }

  /** The rows that ledger entries speak about are still there, and still say the same. */
  ghost predicate KeepsRows(a: Accounts, a': Accounts) {
    && a.orders <= a'.orders && a.records == a'.records && a.payouts <= a'.payouts && |a.payments| <= |a'.payments|
    && forall p | 0 <= p < |a.payments| && a.payments[p].status == Paid :: a'.payments[p] == a.payments[p]
  }

  lemma EntriesAfterPost(a: Accounts, a': Accounts, e: Entry)
    requires EntriesOk(a) && KeepsRows(a, a') && a'.bank.ledger == a.bank.ledger + [e] && EntryOk(a', e)
    ensures EntriesOk(a')
  {
    forall k | 0 <= k < |a'.bank.ledger| ensures EntryOk(a', a'.bank.ledger[k]) {
      if k < |a.bank.ledger| { assert EntryOk(a, a.bank.ledger[k]); }
    }
  }

  lemma EntriesUntouched(a: Accounts, a': Accounts)
    requires EntriesOk(a) && KeepsRows(a, a') && a'.bank.ledger == a.bank.ledger
    ensures EntriesOk(a')
  {
    forall k | 0 <= k < |a'.bank.ledger| ensures EntryOk(a', a'.bank.ledger[k]) { assert EntryOk(a, a.bank.ledger[k]); }
  }

  /** Commissions, adjustments and bonuses touch no order, payment or payout. */
  lemma OutsidePostKeeps(a: Accounts, after: Bank, e: Entry)
    requires MoneyOk(a) && Posts(a.bank, after, e)
    requires IsOutside(e.ref)
    requires e.reservedAfter == a.bank.users[e.user].reserved
    requires EntryOk(a, e) && !e.key.DepositKey?
    ensures Keeps(a, a.(bank := after))
  {
    hide MoneyOk, Posts, Keeps, EntryOk, SameReserves;
    OutsidePostMoney(a, after, e);
    SameReservesKeep(a, a.(bank := after));
  }

  lemma OutsidePostMoney(a: Accounts, after: Bank, e: Entry)
    requires MoneyOk(a) && Posts(a.bank, after, e)
    requires IsOutside(e.ref)
    requires e.reservedAfter == a.bank.users[e.user].reserved
    requires EntryOk(a, e) && !e.key.DepositKey?
    ensures MoneyOk(a.(bank := after)) && SameReserves(a, a.(bank := after))
  {
    var a' := a.(bank := after);
    UsersAfterPost(a.bank, after, e);
    hide LedgerOk, Posts;
    PostKeepsLedger(a.bank, after, e);
    EntriesAfterPost(a, a', e);
    OrdersAfterOtherPost(a, a', e);
    PaymentsAfterPost(a, a', e);
    OutsideBalances(a, a', e);
    hide RowsOk, EntriesOk, RecordsOk, AllRefundsOk, PaymentsOk, AllBalancesOk;
  }

  lemma UsersAfterPost(b: Bank, after: Bank, e: Entry)
    requires Posts(b, after, e)
    ensures after.users.Keys == b.users.Keys && after.ledger == b.ledger + [e] && e.user in b.users
  {
  }

  lemma OutsideBalances(a: Accounts, a': Accounts, e: Entry)
    requires AllBalancesOk(a) && Posts(a.bank, a'.bank, e) && a' == a.(bank := a'.bank)
    requires IsOutside(e.ref) && e.reservedAfter == a.bank.users[e.user].reserved
    ensures AllBalancesOk(a') && SameReserves(a, a')
  {
    forall u | u in a'.bank.users ensures BalanceOk(a', u) {
      assert BalanceOk(a, u);
      SumAppend(a.bank.ledger, e, OutsideOf(u));
    }
  }

  /** No order row and no reserve changed. */
  ghost predicate SameReserves(a: Accounts, a': Accounts) {
    && a'.orders == a.orders && a'.records == a.records
    && a'.bank.users.Keys == a.bank.users.Keys
    && (forall u | u in a.bank.users :: a'.bank.users[u].reserved == a.bank.users[u].reserved)
  }

  lemma SameReservesKeep(a: Accounts, a': Accounts)
    requires MoneyOk(a') && SameReserves(a, a')
    ensures Keeps(a, a')
  {
    hide MoneyOk;
  }

  // ---------------------------------------------------------------- changes of one order row

  /** A row may be rewritten while its order is not closed; owner, charge and provider id stay. */
  ghost predicate Rewrites(o: Order, o': Order) {
    && o'.id == o.id && o'.user == o.user && o'.charge == o.charge
    && (IsCaptured(o) ==> IsCaptured(o'))
    && o.status !in {Failed, Canceled, Refunded}
    && PhaseOk(o')
  }

  function HoldOf(o: Order): int {
    if IsHeld(o) then o.charge else 0
  }

  function ChargeOf(o: Order): int {
    if IsCaptured(o) then o.charge else 0
  }

  /** Refund records of orders other than `i` stay, and no record is lost or changed. */
  ghost predicate RecordsGrow(a: Accounts, a': Accounts, i: nat) {
    && (forall key | key in a.records :: key in a'.records && a'.records[key] == a.records[key])
    && (forall key | key in a'.records && key !in a.records ::
         (key.PartialKey? || key.RefundKey?) && key.order == i && RecordOk(a', key))
  }

  /** The ledger is the same, or has one more entry, for order `i`. */
  ghost predicate LedgerStep(a: Accounts, a': Accounts, i: nat, posted: Option<Entry>) {
    match posted
    case None => a'.bank == a.bank
    case Some(e) => Posts(a.bank, a'.bank, e) && e.ref == ForOrder(i) && EntryOk(a', e) && !e.key.DepositKey?
  }

  /** What the entry does to the balance and the refunds of the order. */
  ghost predicate MoneyMoves(a: Accounts, a': Accounts, i: nat, posted: Option<Entry>)
    requires i < |a.orders| == |a'.orders| && a.orders[i].user in a.bank.users
  {
    var o, o' := a.orders[i], a'.orders[i];
    var refund := RefundOf(a'.records, o') - RefundOf(a.records, o);
    && refund == (if posted.Some? && posted.value.kind == CreditEntry then posted.value.amount else 0)
    && (if posted.Some? then posted.value.amount else 0) == refund - ChargeOf(o') + ChargeOf(o)
    && (posted.Some? ==> posted.value.user == o.user)
    && 0 <= RefundOf(a'.records, o') <= o'.charge
    && (ClosedAfterCapture(o') ==> RefundOf(a'.records, o') == o'.charge)
  }

  /** What the entry does to the hold of the order. */
  ghost predicate HoldMoves(a: Accounts, a': Accounts, i: nat, posted: Option<Entry>)
    requires i < |a.orders| == |a'.orders| && a.orders[i].user in a.bank.users
  {
    var o, o' := a.orders[i], a'.orders[i];
    (if posted.Some? then posted.value.reservedAfter else a.bank.users[o.user].reserved)
    == a.bank.users[o.user].reserved - HoldOf(o) + HoldOf(o')
  }

  /** Row `i` is rewritten, together with at most one ledger entry that accounts for it. */
  ghost predicate OrderStep(a: Accounts, a': Accounts, i: nat, posted: Option<Entry>)
    requires i < |a.orders|
  {
    && |a'.orders| == |a.orders|
    && a' == a.(bank := a'.bank, orders := a.orders[i := a'.orders[i]], records := a'.records)
    && a.orders[i].user in a.bank.users
    && Rewrites(a.orders[i], a'.orders[i])
    && RecordsGrow(a, a', i)
    && LedgerStep(a, a', i, posted)
    && MoneyMoves(a, a', i, posted)
  }

  lemma OrderStepRows(a: Accounts, a': Accounts, i: nat, posted: Option<Entry>)
    requires i < |a.orders| && OrderStep(a, a', i, posted)
    requires RowsOk(a) && RecordsOk(a)
    ensures RowsOk(a') && RecordsOk(a')
  {
    assert RowOk(a, i);
    forall j | 0 <= j < |a'.orders| ensures RowOk(a', j) { assert RowOk(a, j); }
    forall key | key in a'.records ensures RecordOk(a', key) {
      if key in a.records { assert RecordOk(a, key); }
    }
  }

  lemma OrderStepEntries(a: Accounts, a': Accounts, i: nat, posted: Option<Entry>)
    requires i < |a.orders| && OrderStep(a, a', i, posted)
    requires EntriesOk(a) && PaymentsOk(a)
    ensures EntriesOk(a') && PaymentsOk(a')
  {
    forall k | 0 <= k < |a'.bank.ledger| ensures EntryOk(a', a'.bank.ledger[k]) {
      if k < |a.bank.ledger| { assert EntryOk(a, a.bank.ledger[k]); }
    }
    forall p | 0 <= p < |a.payments| ensures PaymentOk(a', p) {
      assert PaymentOk(a, p);
      if posted.Some? { KeyAfterPost(a.bank, a'.bank, posted.value, DepositKey(p)); }
    }
  }

  lemma OrderStepRefunds(a: Accounts, a': Accounts, i: nat, posted: Option<Entry>)
    requires i < |a.orders| && OrderStep(a, a', i, posted)
    requires RowsOk(a) && AllRefundsOk(a)
    ensures AllRefundsOk(a')
  {
    forall j | 0 <= j < |a'.orders| ensures RefundsOk(a', j) {
      assert RowOk(a, j) && RefundsOk(a, j);
      if posted.Some? { SumAppend(a.bank.ledger, posted.value, RefundEntry(j, a.orders[j].user)); }
      if j != i { assert RefundOf(a'.records, a.orders[j]) == RefundOf(a.records, a.orders[j]); }
    }
  }

  /** The reserve of a user stays exact when the step is about somebody else's order, or moves the hold. */
  lemma OrderStepHolds(a: Accounts, a': Accounts, i: nat, posted: Option<Entry>, u: UserId)
    requires i < |a.orders| && OrderStep(a, a', i, posted) && u in a.bank.users && HoldsOk(a, u)
    requires a.orders[i].user == u ==> HoldMoves(a, a', i, posted)
    ensures u in a'.bank.users && HoldsOk(a', u)
  {
    SumChange(a.orders, a'.orders, HeldBy(u), HeldBy(u), i);
  }

  /** Cancelled orders other than this one stay refunded in full. */
  lemma OrderStepInFull(a: Accounts, a': Accounts, i: nat, posted: Option<Entry>, j: nat)
    requires i < |a.orders| && OrderStep(a, a', i, posted) && RowsOk(a)
    requires j < |a.orders| && j != i && InFull(a, j)
    ensures j < |a'.orders| && InFull(a', j)
  {
    assert RowOk(a, j);
    assert RefundOf(a'.records, a.orders[j]) == RefundOf(a.records, a.orders[j]);
  }

  lemma OrderStepBalances(a: Accounts, a': Accounts, i: nat, posted: Option<Entry>)
    requires i < |a.orders| && OrderStep(a, a', i, posted)
    requires AllBalancesOk(a) && RowsOk(a)
    ensures AllBalancesOk(a')
  {
    OrderStepUsers(a, a', i, posted);
    hide RowsOk, BalanceOk, OrderStep;
    forall u | u in a'.bank.users ensures BalanceOk(a', u) {
      OrderStepBalance(a, a', i, posted, u);
    }
  }

  lemma OrderStepBalance(a: Accounts, a': Accounts, i: nat, posted: Option<Entry>, u: UserId)
    requires i < |a.orders| && OrderStep(a, a', i, posted) && RowsOk(a)
    requires u in a.bank.users && u in a'.bank.users && BalanceOk(a, u)
    ensures BalanceOk(a', u)
  {
    OrderStepTotals(a, a', i, posted, u);
    hide RowsOk, RecordsGrow, Rewrites, RefundOf, ClosedAfterCapture;
  }

  /** The totals of one user move by what the row and the entry say. */
  lemma OrderStepTotals(a: Accounts, a': Accounts, i: nat, posted: Option<Entry>, u: UserId)
    requires i < |a.orders| && OrderStep(a, a', i, posted)
    requires RowsOk(a)
    ensures Sum(a'.orders, CapturedFrom(u)) == Sum(a.orders, CapturedFrom(u)) - CapturedFrom(u)(a.orders[i])
            + CapturedFrom(u)(a'.orders[i])
    ensures Sum(a'.orders, RefundedTo(a'.records, u))
         == Sum(a.orders, RefundedTo(a.records, u)) - RefundedTo(a.records, u)(a.orders[i])
           + RefundedTo(a'.records, u)(a'.orders[i])
    ensures Sum(a'.bank.ledger, OutsideOf(u)) == Sum(a.bank.ledger, OutsideOf(u))
  {
    OrderStepCaptured(a, a', i, posted, u);
    OrderStepRefunded(a, a', i, posted, u);
    hide OrderStep, RowsOk;
    OrderStepOutside(a, a', i, posted, u);
  }

  lemma OrderStepCaptured(a: Accounts, a': Accounts, i: nat, posted: Option<Entry>, u: UserId)
    requires i < |a.orders| && OrderStep(a, a', i, posted)
    ensures |a'.orders| == |a.orders|
    ensures Sum(a'.orders, CapturedFrom(u)) == Sum(a.orders, CapturedFrom(u)) - CapturedFrom(u)(a.orders[i])
            + CapturedFrom(u)(a'.orders[i])
  {
    hide RecordsGrow, LedgerStep, MoneyMoves, Rewrites;
    SumChange(a.orders, a'.orders, CapturedFrom(u), CapturedFrom(u), i);
  }

  lemma OrderStepRefunded(a: Accounts, a': Accounts, i: nat, posted: Option<Entry>, u: UserId)
    requires i < |a.orders| && OrderStep(a, a', i, posted) && RowsOk(a)
    ensures |a'.orders| == |a.orders|
    ensures Sum(a'.orders, RefundedTo(a'.records, u))
         == Sum(a.orders, RefundedTo(a.records, u)) - RefundedTo(a.records, u)(a.orders[i])
           + RefundedTo(a'.records, u)(a'.orders[i])
  {
    hide LedgerStep, MoneyMoves, Rewrites;
    forall j | 0 <= j < |a.orders| && j != i
      ensures RefundedTo(a.records, u)(a.orders[j]) == RefundedTo(a'.records, u)(a'.orders[j])
    {
      assert RowOk(a, j);
    }
    hide RecordsGrow, RefundOf, RowsOk;
    SumChange(a.orders, a'.orders, RefundedTo(a.records, u), RefundedTo(a'.records, u), i);
  }

  lemma OrderStepOutside(a: Accounts, a': Accounts, i: nat, posted: Option<Entry>, u: UserId)
    requires i < |a.orders| && OrderStep(a, a', i, posted)
    ensures Sum(a'.bank.ledger, OutsideOf(u)) == Sum(a.bank.ledger, OutsideOf(u))
  {
    hide RecordsGrow, MoneyMoves, Rewrites;
    if posted.Some? { SumAppend(a.bank.ledger, posted.value, OutsideOf(u)); }
  }

  /** Any such step keeps what every run keeps. */
  lemma OrderStepMoney(a: Accounts, a': Accounts, i: nat, posted: Option<Entry>)
    requires MoneyOk(a) && i < |a.orders| && OrderStep(a, a', i, posted)
    ensures MoneyOk(a')
  {
    if posted.Some? { PostKeepsLedger(a.bank, a'.bank, posted.value); }
    OrderStepRows(a, a', i, posted);
    OrderStepEntries(a, a', i, posted);
    OrderStepRefunds(a, a', i, posted);
    OrderStepBalances(a, a', i, posted);
  }

  lemma OrderStepUsers(a: Accounts, a': Accounts, i: nat, posted: Option<Entry>)
    requires i < |a.orders| && OrderStep(a, a', i, posted)
    ensures a'.bank.users.Keys == a.bank.users.Keys && |a'.orders| == |a.orders|
  {
  }

  /** A step that also moves an exact hold, and refunds a cancelled order in full, keeps all of the books. */
  lemma OrderStepKeeps(a: Accounts, a': Accounts, i: nat, posted: Option<Entry>)
    requires MoneyOk(a) && i < |a.orders| && OrderStep(a, a', i, posted)
    requires HoldsOk(a, a.orders[i].user) ==> HoldMoves(a, a', i, posted)
    requires InFull(a', i)
    ensures Keeps(a, a')
  {
    hide MoneyOk, RowsOk, OrderStep, HoldsOk, InFull, HoldMoves;
    OrderStepMoney(a, a', i, posted);
    OrderStepUsers(a, a', i, posted);
    MoneyRows(a);
    forall u | u in a.bank.users && HoldsOk(a, u) ensures HoldsOk(a', u) { OrderStepHolds(a, a', i, posted, u); }
    forall j | 0 <= j < |a.orders| && j != i && InFull(a, j) ensures InFull(a', j) {
      OrderStepInFull(a, a', i, posted, j);
    }
  }

  lemma MoneyRows(a: Accounts)
    requires MoneyOk(a)
    ensures RowsOk(a)
  {
  }

  // ---------------------------------------------------------------- a new order

  /** A new order starts held, with one reserve entry for its charge. */
  lemma OpenKeeps(a: Accounts, after: Bank, o: Order, e: Entry)
    requires MoneyOk(a) && Posts(a.bank, after, e)
    requires o.id == |a.orders| && o.user == e.user && o.charge > 0 && IsHeld(o)
    requires e.kind == ReserveEntry && e.amount == 0 && e.ref == ForOrder(|a.orders|) && e.key == ReserveKey(|a.orders|)
    requires e.reservedAfter == a.bank.users[e.user].reserved + o.charge
    ensures Keeps(a, a.(bank := after, orders := a.orders + [o]))
  {
    hide MoneyOk, Posts, HoldsOk;
    var a' := a.(bank := after, orders := a.orders + [o]);
    UsersAfterPost(a.bank, after, e);
    OpenMoney(a, after, o, e);
    forall u | u in a.bank.users && HoldsOk(a, u) ensures HoldsOk(a', u) { OpenHolds(a, a', o, e, u); }
  }

  lemma OpenMoney(a: Accounts, after: Bank, o: Order, e: Entry)
    requires MoneyOk(a) && Posts(a.bank, after, e)
    requires o.id == |a.orders| && o.user == e.user && o.charge > 0 && IsHeld(o)
    requires e.kind == ReserveEntry && e.amount == 0 && e.ref == ForOrder(|a.orders|) && e.key == ReserveKey(|a.orders|)
    ensures MoneyOk(a.(bank := after, orders := a.orders + [o]))
  {
    var a' := a.(bank := after, orders := a.orders + [o]);
    UsersAfterPost(a.bank, after, e);
    hide LedgerOk, Posts;
    PostKeepsLedger(a.bank, after, e);
    EntriesAfterPost(a, a', e);
    PaymentsAfterPost(a, a', e);
    OpenRows(a, a', o, e);
    OpenBalances(a, a', o, e);
    hide RowsOk, EntriesOk, RecordsOk, AllRefundsOk, PaymentsOk, AllBalancesOk;
  }

  lemma OpenHolds(a: Accounts, a': Accounts, o: Order, e: Entry, u: UserId)
    requires Posts(a.bank, a'.bank, e) && u in a.bank.users && HoldsOk(a, u)
    requires a' == a.(bank := a'.bank, orders := a.orders + [o]) && IsHeld(o) && o.user == e.user
    requires e.reservedAfter == a.bank.users[e.user].reserved + o.charge
    ensures u in a'.bank.users && HoldsOk(a', u)
  {
    SumAppend(a.orders, o, HeldBy(u));
  }

  lemma OpenBalances(a: Accounts, a': Accounts, o: Order, e: Entry)
    requires AllBalancesOk(a) && Posts(a.bank, a'.bank, e)
    requires a' == a.(bank := a'.bank, orders := a.orders + [o]) && IsHeld(o) && o.user == e.user
    requires e.amount == 0 && e.ref.ForOrder?
    ensures AllBalancesOk(a')
  {
    forall u | u in a'.bank.users ensures BalanceOk(a', u) {
      assert BalanceOk(a, u);
      SumAppend(a.bank.ledger, e, OutsideOf(u));
      SumAppend(a.orders, o, CapturedFrom(u));
      SumAppend(a.orders, o, RefundedTo(a.records, u));
    }
  }

  lemma OpenRows(a: Accounts, a': Accounts, o: Order, e: Entry)
    requires RowsOk(a) && RecordsOk(a) && AllRefundsOk(a) && EntriesOk(a)
    requires Posts(a.bank, a'.bank, e) && e.kind == ReserveEntry
    requires a'.orders == a.orders + [o] && a'.records == a.records
    requires o.id == |a.orders| && o.user == e.user && o.charge > 0 && IsHeld(o)
    ensures RowsOk(a') && RecordsOk(a') && AllRefundsOk(a')
  {
    var n := |a.orders|;
    forall k | 0 <= k < |a'.bank.ledger| ensures RefundEntry(n, o.user)(a'.bank.ledger[k]) == 0 {
      if k < |a.bank.ledger| { assert EntryOk(a, a.bank.ledger[k]); }
    }
    SumZero(a'.bank.ledger, RefundEntry(n, o.user));
    forall j | 0 <= j < |a'.orders| ensures RowOk(a', j) && RefundsOk(a', j) {
      if j < n {
        assert RowOk(a, j) && RefundsOk(a, j);
        SumAppend(a.bank.ledger, e, RefundEntry(j, a.orders[j].user));
      }
    }
    forall key | key in a.records ensures RecordOk(a', key) { assert RecordOk(a, key); }
  }

  lemma PaymentsAfterPost(a: Accounts, a': Accounts, e: Entry)
    requires PaymentsOk(a) && a'.payments == a.payments
    requires Posts(a.bank, a'.bank, e) && !e.key.DepositKey?
    ensures PaymentsOk(a')
  {
    forall p | 0 <= p < |a.payments| ensures PaymentOk(a', p) {
      assert PaymentOk(a, p);
      KeyAfterPost(a.bank, a'.bank, e, DepositKey(p));
    }
  }

  // ---------------------------------------------------------------- payments, payouts, users

  /** Orders and refund records depend on the ledger only through entries for orders. */
  lemma OrdersAfterOtherPost(a: Accounts, a': Accounts, e: Entry)
    requires RowsOk(a) && RecordsOk(a) && AllRefundsOk(a)
    requires a'.orders == a.orders && a'.records == a.records && Posts(a.bank, a'.bank, e) && !e.ref.ForOrder?
    ensures RowsOk(a') && RecordsOk(a') && AllRefundsOk(a')
  {
    forall i | 0 <= i < |a.orders| ensures RowOk(a', i) && RefundsOk(a', i) {
      assert RowOk(a, i) && RefundsOk(a, i);
      SumAppend(a.bank.ledger, e, RefundEntry(i, a.orders[i].user));
    }
    forall key | key in a.records ensures RecordOk(a', key) { assert RecordOk(a, key); }
  }

  /** An invoice becomes paid together with the one credit under its deposit key. */
  lemma DepositKeeps(a: Accounts, after: Bank, p: nat, row: Payment, e: Entry)
    requires MoneyOk(a) && p < |a.payments| && Posts(a.bank, after, e)
    requires a.payments[p].status != Paid && row.status == Paid
    requires row.user == a.payments[p].user == e.user && row.amount == a.payments[p].amount == e.amount > 0
    requires e.kind == CreditEntry && e.ref == ForPayment(p) && e.key == DepositKey(p)
    requires e.reservedAfter == a.bank.users[e.user].reserved
    ensures Keeps(a, a.(bank := after, payments := a.payments[p := row]))
  {
    hide MoneyOk, Posts, SameReserves, Keeps;
    DepositMoney(a, after, p, row, e);
    SameReservesKeep(a, a.(bank := after, payments := a.payments[p := row]));
  }

  lemma DepositMoney(a: Accounts, after: Bank, p: nat, row: Payment, e: Entry)
    requires MoneyOk(a) && p < |a.payments| && Posts(a.bank, after, e)
    requires a.payments[p].status != Paid && row.status == Paid
    requires row.user == a.payments[p].user == e.user && row.amount == a.payments[p].amount == e.amount > 0
    requires e.kind == CreditEntry && e.ref == ForPayment(p) && e.key == DepositKey(p)
    requires e.reservedAfter == a.bank.users[e.user].reserved
    ensures var a' := a.(bank := after, payments := a.payments[p := row]); MoneyOk(a') && SameReserves(a, a')
  {
    var a' := a.(bank := after, payments := a.payments[p := row]);
    PostKeepsLedger(a.bank, after, e);
    OrdersAfterOtherPost(a, a', e);
    EntriesAfterPost(a, a', e);
    DepositPayments(a, a', p, e);
    DepositBalances(a, a', p, e);
    UsersAfterPost(a.bank, after, e);
    hide LedgerOk, Posts, RowsOk, EntriesOk, RecordsOk, AllRefundsOk, PaymentsOk, AllBalancesOk;
  }

  lemma DepositPayments(a: Accounts, a': Accounts, p: nat, e: Entry)
    requires PaymentsOk(a) && p < |a.payments| == |a'.payments| && a'.payments == a.payments[p := a'.payments[p]]
    requires a'.payments[p].status == Paid && a'.payments[p].user == a.payments[p].user
    requires Posts(a.bank, a'.bank, e) && e.key == DepositKey(p)
    ensures PaymentsOk(a')
  {
    forall q | 0 <= q < |a'.payments| ensures PaymentOk(a', q) {
      assert PaymentOk(a, q);
      KeyAfterPost(a.bank, a'.bank, e, DepositKey(q));
    }
  }

  lemma DepositBalances(a: Accounts, a': Accounts, p: nat, e: Entry)
    requires AllBalancesOk(a) && p < |a.payments| == |a'.payments| && Posts(a.bank, a'.bank, e)
    requires a' == a.(bank := a'.bank, payments := a.payments[p := a'.payments[p]])
    requires a.payments[p].status != Paid && a'.payments[p].status == Paid
    requires a'.payments[p].user == e.user && a'.payments[p].amount == e.amount && e.ref == ForPayment(p)
    requires e.reservedAfter == a.bank.users[e.user].reserved
    ensures AllBalancesOk(a') && SameReserves(a, a')
  {
    forall u | u in a'.bank.users ensures BalanceOk(a', u) {
      assert BalanceOk(a, u);
      SumAppend(a.bank.ledger, e, OutsideOf(u));
      SumChange(a.payments, a'.payments, DepositedBy(u), DepositedBy(u), p);
    }
  }

  /** An unpaid invoice may change its status or reference without becoming paid. */
  lemma InvoiceRewriteKeeps(a: Accounts, p: nat, row: Payment)
    requires MoneyOk(a) && p < |a.payments|
    requires row.user == a.payments[p].user && row.status != Paid && a.payments[p].status != Paid
    ensures Keeps(a, a.(payments := a.payments[p := row]))
  {
    hide LedgerOk, RowsOk, EntriesOk, RecordsOk, AllRefundsOk;
    var a' := a.(payments := a.payments[p := row]);
    OrdersUntouched(a, a');
    EntriesUntouched(a, a');
    forall q | 0 <= q < |a'.payments| ensures PaymentOk(a', q) { assert PaymentOk(a, q); }
    forall u | u in a.bank.users ensures BalanceOk(a', u) {
      assert BalanceOk(a, u);
      SumChange(a.payments, a'.payments, DepositedBy(u), DepositedBy(u), p);
    }
  }

  lemma OrdersUntouched(a: Accounts, a': Accounts)
    requires RowsOk(a) && RecordsOk(a) && AllRefundsOk(a)
    requires a'.orders == a.orders && a'.records == a.records && a'.bank.ledger == a.bank.ledger
    requires a.bank.users.Keys <= a'.bank.users.Keys
    ensures RowsOk(a') && RecordsOk(a') && AllRefundsOk(a')
  {
    forall i | 0 <= i < |a.orders| ensures RowOk(a', i) && RefundsOk(a', i) {
      assert RowOk(a, i) && RefundsOk(a, i);
    }
    forall key | key in a.records ensures RecordOk(a', key) { assert RecordOk(a, key); }
  }

  lemma NewInvoiceKeeps(a: Accounts, row: Payment)
    requires MoneyOk(a) && row.status == Unpaid && row.user in a.bank.users
    ensures Keeps(a, a.(payments := a.payments + [row]))
  {
    hide MoneyOk, Keeps;
    NewInvoiceMoney(a, row);
    SameReservesKeep(a, a.(payments := a.payments + [row]));
  }

  lemma NewInvoiceMoney(a: Accounts, row: Payment)
    requires MoneyOk(a) && row.status == Unpaid && row.user in a.bank.users
    ensures MoneyOk(a.(payments := a.payments + [row]))
  {
    hide LedgerOk, RowsOk, RecordsOk, AllRefundsOk;
    var a' := a.(payments := a.payments + [row]);
    OrdersUntouched(a, a');
    EntriesUntouched(a, a');
    forall q | 0 <= q < |a'.payments| ensures PaymentOk(a', q) {
      if q < |a.payments| { assert PaymentOk(a, q); }
    }
    forall u | u in a.bank.users ensures BalanceOk(a', u) {
      assert BalanceOk(a, u);
      SumAppend(a.payments, row, DepositedBy(u));
    }
  }

  /** A payout row is stored together with its debit. */
  lemma PayoutKeeps(a: Accounts, after: Bank, amount: int, e: Entry)
    requires MoneyOk(a) && Posts(a.bank, after, e)
    requires e.amount == -amount && e.kind == DebitEntry && e.ref == ForPayout(|a.payouts|)
             && e.key == PayoutKey(|a.payouts|)
    requires e.reservedAfter == a.bank.users[e.user].reserved
    ensures Keeps(a, a.(bank := after, payouts := a.payouts + [Payout(e.user, amount)]))
  {
    hide MoneyOk, Posts, SameReserves, Keeps;
    PayoutMoney(a, after, amount, e);
    SameReservesKeep(a, a.(bank := after, payouts := a.payouts + [Payout(e.user, amount)]));
  }

  lemma PayoutMoney(a: Accounts, after: Bank, amount: int, e: Entry)
    requires MoneyOk(a) && Posts(a.bank, after, e)
    requires e.amount == -amount && e.kind == DebitEntry
    requires e.ref == ForPayout(|a.payouts|) && e.key == PayoutKey(|a.payouts|)
    requires e.reservedAfter == a.bank.users[e.user].reserved
    ensures var a' := a.(bank := after, payouts := a.payouts + [Payout(e.user, amount)]);
            MoneyOk(a') && SameReserves(a, a')
  {
    hide LedgerOk, RowsOk, EntriesOk, RecordsOk, AllRefundsOk, PaymentsOk, AllBalancesOk;
    var a' := a.(bank := after, payouts := a.payouts + [Payout(e.user, amount)]);
    PostKeepsLedger(a.bank, after, e);
    OrdersAfterOtherPost(a, a', e);
    PaymentsAfterPost(a, a', e);
    EntriesAfterPost(a, a', e);
    PayoutBalances(a, a', amount, e);
  }

  lemma PayoutBalances(a: Accounts, a': Accounts, amount: int, e: Entry)
    requires AllBalancesOk(a) && Posts(a.bank, a'.bank, e)
    requires a' == a.(bank := a'.bank, payouts := a.payouts + [Payout(e.user, amount)])
    requires e.amount == -amount && e.ref.ForPayout? && e.reservedAfter == a.bank.users[e.user].reserved
    ensures AllBalancesOk(a') && SameReserves(a, a')
  {
    forall u | u in a'.bank.users ensures BalanceOk(a', u) {
      assert BalanceOk(a, u);
      PayoutTotals(a.bank.ledger, a.payouts, amount, e, u);
    }
  }

  lemma PayoutTotals(ledger: seq<Entry>, payouts: seq<Payout>, amount: int, e: Entry, u: UserId)
    requires e.ref.ForPayout?
    ensures Sum(ledger + [e], OutsideOf(u)) == Sum(ledger, OutsideOf(u))
    ensures Sum(payouts + [Payout(e.user, amount)], PaidOutTo(u)) == Sum(payouts, PaidOutTo(u)) + if e.user == u
            then amount else 0
  {
    SumAppend(ledger, e, OutsideOf(u));
    SumAppend(payouts, Payout(e.user, amount), PaidOutTo(u));
  }

  /** The money columns of known users are the same; new users start with empty wallets. */
  ghost predicate SameWallets(b: Bank, after: Bank) {
    && after.ledger == b.ledger
    && b.users.Keys <= after.users.Keys
    && (forall u | u in b.users ::
         after.users[u].balance == b.users[u].balance && after.users[u].reserved == b.users[u].reserved)
    && (forall u | u in after.users && u !in b.users :: after.users[u].balance == 0 && after.users[u].reserved == 0)
  }

  lemma NoEntriesOf(ledger: seq<Entry>, u: UserId)
    requires forall i | 0 <= i < |ledger| :: ledger[i].user != u
    ensures LastOf(ledger, u) == None && Sum(ledger, AmountOf(u)) == 0 && Sum(ledger, OutsideOf(u)) == 0
  {
  }

  lemma UsersKeep(a: Accounts, after: Bank)
    requires MoneyOk(a) && SameWallets(a.bank, after)
    ensures Keeps(a, a.(bank := after))
  {
    UsersMoney(a, after);
    hide MoneyOk;
    var a' := a.(bank := after);
    forall u | u in after.users && u !in a.bank.users ensures HoldsOk(a', u) { UserColumns(a, after, u); }
  }

  lemma UsersMoney(a: Accounts, after: Bank)
    requires MoneyOk(a) && SameWallets(a.bank, after)
    ensures MoneyOk(a.(bank := after))
  {
    hide CachedFromLedger, BalanceOk, Replays, UniqueKeys, RowsOk, EntriesOk, RecordsOk, AllRefundsOk;
    var a' := a.(bank := after);
    OrdersUntouched(a, a');
    EntriesUntouched(a, a');
    forall p | 0 <= p < |a.payments| ensures PaymentOk(a', p) { assert PaymentOk(a, p); }
    forall u | u in after.users ensures CachedFromLedger(after, u) && BalanceOk(a', u) { UserColumns(a, after, u); }
  }

  /** The columns of one user, known or new. */
  lemma UserColumns(a: Accounts, after: Bank, u: UserId)
    requires MoneyOk(a) && SameWallets(a.bank, after) && u in after.users
    ensures CachedFromLedger(after, u) && BalanceOk(a.(bank := after), u)
    ensures u !in a.bank.users ==> HoldsOk(a.(bank := after), u)
  {
    hide RowsOk, EntriesOk, RecordsOk, AllRefundsOk, PaymentsOk;
    if u in a.bank.users {
      assert CachedFromLedger(a.bank, u) && BalanceOk(a, u);
    } else {
      NewUserIsEmpty(a, u);
    }
  }

  /** Nothing in the books mentions a user who has not joined. */
  lemma NewUserIsEmpty(a: Accounts, u: UserId)
    requires MoneyOk(a) && u !in a.bank.users
    ensures LastOf(a.bank.ledger, u) == None && Sum(a.bank.ledger, AmountOf(u)) == 0
            && Sum(a.bank.ledger, OutsideOf(u)) == 0
    ensures Sum(a.orders, HeldBy(u)) == 0 && Sum(a.orders, CapturedFrom(u)) == 0
            && Sum(a.orders, RefundedTo(a.records, u)) == 0
    ensures Sum(a.payments, DepositedBy(u)) == 0 && Sum(a.payouts, PaidOutTo(u)) == 0
  {
    NoEntriesOf(a.bank.ledger, u);
    forall i | 0 <= i < |a.orders| ensures a.orders[i].user != u { assert RowOk(a, i); }
    SumZero(a.orders, HeldBy(u));
    SumZero(a.orders, CapturedFrom(u));
    SumZero(a.orders, RefundedTo(a.records, u));
    forall p | 0 <= p < |a.payments| ensures a.payments[p].user != u { assert PaymentOk(a, p); }
    SumZero(a.payments, DepositedBy(u));
    SumZero(a.payouts, PaidOutTo(u));
  }
}
