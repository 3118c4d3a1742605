/**
 * What each call about a stored order answers and changes: when it goes through, the row it leaves
 * behind, and the money it moves. A call that does not go through changes nothing.
 */
module OrderRules {
  import opened Results
  import opened Sums
  import opened Rounding
  import opened Keys
  import opened Wallet
  import opened Tables
  import opened Referrals
  import opened Orders
  import opened Engine
  import opened Books
  import opened EngineBooks
  import opened EngineKept
  import opened Lifecycle
  import opened WalletRules
  import opened Consequences

  /** The caller owns the order or is staff. */
  predicate IsFor(o: Order, actor: UserId, staff: bool) {
    staff || o.user == actor
  }

  /** The order has an id at its provider. */
  predicate AtProvider(o: Order) {
    o.provider.Some? && o.provider.value != ""
  }

  /** One row changes to this, with one more event. */
  ghost predicate MovesRow(s: Db, after: Db, i: nat, o': Order)
    requires i < |s.orders|
  {
    after.orders == s.orders[i := o'.(events := s.orders[i].events + [OrderEvent(s.orders[i].status, o'.status)])]
  }

  // ---------------------------------------------------------------- refill

  /**
   * A refill is granted exactly while refills are open, to the owner or staff, for an order that
   * can be refilled, is completed or partial and is at its provider, when the provider agrees.
   */
  lemma RefillAnswers(s: Db, i: nat, actor: UserId, staff: bool, open: bool, accepted: bool)
    ensures var e := Refill(i, actor, staff, open, accepted);
            && (Handle(s, e).Success? <==>
                 && i < |s.orders| && open && IsFor(s.orders[i], actor, staff) && s.orders[i].refillable
                 && (s.orders[i].status == Completed || s.orders[i].status == Partial)
                 && AtProvider(s.orders[i]) && accepted)
            && if Handle(s, e).Failure? then Step(s, e) == s
               else
                 && Step(s, e) == s.(orders := Step(s, e).orders)
                 && MovesRow(s, Step(s, e), i, s.orders[i].(status := Refilling, refills := s.orders[i].refills + 1))
  {
  }

  // ---------------------------------------------------------------- cancel

  /** The order may be cancelled by this caller; a provider that has it must agree. */
  predicate MayCancel(o: Order, actor: UserId, staff: bool, confirmed: bool) {
    && IsFor(o, actor, staff) && o.cancelable
    && (o.status == Pending || o.status == AwaitingProvider || o.status == Processing || o.status == InProgress)
    && (AtProvider(o) ==> confirmed)
  }

  /**
   * A cancel goes through exactly for the owner or staff, a cancelable order in one of four
   * statuses, and with the provider's consent once the provider has it. It gives the hold of a
   * pending or awaiting order back, as far as there is one, and otherwise credits what is owed.
   */
  lemma CancelAnswers(s: Db, i: nat, actor: UserId, staff: bool, confirmed: bool)
    requires MoneyOk(AccountsOf(s))
    ensures var e := Cancel(i, actor, staff, confirmed);
            && (Handle(s, e).Success? <==> i < |s.orders| && MayCancel(s.orders[i], actor, staff, confirmed))
            && (Handle(s, e).Failure? ==> Step(s, e) == s)
            && (Handle(s, e).Success? ==>
                  var o := s.orders[i];
                  && Step(s, e) == s.(orders := Step(s, e).orders, bank := Step(s, e).bank)
                  && MovesRow(s, Step(s, e), i, o.(status := Canceled))
                  && o.user in s.bank.users
                  && if o.status == Pending || o.status == AwaitingProvider then
                       Shifts(s.bank, Step(s, e).bank, o.user, 0, -Min(o.charge, s.bank.users[o.user].reserved))
                     else
                       && Shifts(s.bank, Step(s, e).bank, o.user, o.charge - RefundedSoFar(s, i), 0)
                       && RefundedSoFar(Step(s, e), i) == o.charge)
  {
    hide MoneyOk, LedgerOk, EntriesOk, HasKey, CancelOrder, RefundedSoFar;
    if i < |s.orders| {
      BooksAt(AccountsOf(s), i);
      CancelOutcome(s, i, actor, staff, confirmed);
      if MayCancel(s.orders[i], actor, staff, confirmed) && s.orders[i].status in {Processing, InProgress} {
        CancelCredits(s, i, actor, staff, confirmed);
      }
    }
  }

  lemma CancelCredits(s: Db, i: nat, actor: UserId, staff: bool, confirmed: bool)
    requires MoneyOk(AccountsOf(s)) && i < |s.orders| && s.orders[i].status in {Processing, InProgress}
    requires CancelOrder(s, i, actor, staff, confirmed).Success?
    ensures var after := CancelOrder(s, i, actor, staff, confirmed).value;
            i < |after.orders| && RefundedSoFar(after, i) == s.orders[i].charge
  {
    hide MoneyOk, CancelOrder;
    BooksAt(AccountsOf(s), i);
    ClosingRow(s, Cancel(i, actor, staff, confirmed), i);
  }

  lemma CancelOutcome(s: Db, i: nat, actor: UserId, staff: bool, confirmed: bool)
    requires MoneyOk(AccountsOf(s)) && i < |s.orders|
    ensures var r := CancelOrder(s, i, actor, staff, confirmed);
            && (r.Success? <==> MayCancel(s.orders[i], actor, staff, confirmed))
            && (r.Success? ==>
                  var o := s.orders[i];
                  && r.value == s.(orders := r.value.orders, bank := r.value.bank)
                  && MovesRow(s, r.value, i, o.(status := Canceled))
                  && o.user in s.bank.users
                  && if o.status == Pending || o.status == AwaitingProvider then
                       Shifts(s.bank, r.value.bank, o.user, 0, -Min(o.charge, s.bank.users[o.user].reserved))
                     else Shifts(s.bank, r.value.bank, o.user, o.charge - RefundedSoFar(s, i), 0))
  {
    hide MoneyOk, ReturnFunds, Shifts, RefundedSoFar;
    BooksAt(AccountsOf(s), i);
    if Cancelable(s.orders[i].status) { FundsReturned(s, i); }
  }

  /** The money of a cancel: the hold back, as far as there is one, or a credit of what is owed. */
  lemma FundsReturned(s: Db, i: nat)
    requires MoneyOk(AccountsOf(s)) && i < |s.orders| && Cancelable(s.orders[i].status)
    ensures s.orders[i].user in s.bank.users && ReturnFunds(s, i).Success?
    ensures var o, after := s.orders[i], ReturnFunds(s, i).value;
            && after == s.(bank := after.bank)
            && if o.status == Pending || o.status == AwaitingProvider then
                 Shifts(s.bank, after.bank, o.user, 0, -Min(o.charge, s.bank.users[o.user].reserved))
               else Shifts(s.bank, after.bank, o.user, o.charge - RefundedSoFar(s, i), 0)
  {
    hide MoneyOk, LedgerOk, EntriesOk, HasKey, Release, Credit, RefundedSoFar, IsCovered, Shifts;
    var a, o := AccountsOf(s), s.orders[i];
    BooksAt(a, i);
    LedgerOf(a);
    if o.status in {Pending, AwaitingProvider} {
      KeyIsFresh(a, ReleaseKey(i, CancelTag));
      WalletAnswers(s.bank, ReleaseCall(o.user, o.charge, ForOrder(i), ReleaseKey(i, CancelTag)));
      ReleaseIsCovered(s.bank, o.user, o.charge, ForOrder(i), ReleaseKey(i, CancelTag));
    } else {
      OwedIsRest(s, i);
      RecordAt(a, RefundKey(i, UserCancelTag));
      KeyIsFresh(a, RefundKey(i, UserCancelTag));
      WalletAnswers(s.bank, CreditCall(o.user, Owed(s, i), ForOrder(i), RefundKey(i, UserCancelTag)));
      ReleaseIsCovered(s.bank, o.user, Owed(s, i), ForOrder(i), RefundKey(i, UserCancelTag));
      NoShift(s.bank, o.user);
    }
  }

  lemma OwedIsRest(s: Db, i: nat)
    requires MoneyOk(AccountsOf(s)) && i < |s.orders|
    ensures Owed(s, i) == s.orders[i].charge - RefundedSoFar(s, i) >= 0
  {
    hide MoneyOk;
    BooksAt(AccountsOf(s), i);
  }

  lemma ReleaseIsCovered(b: Bank, u: UserId, amount: int, ref: Ref, key: Key)
    requires u in b.users
    ensures IsCovered(ReleaseCall(u, amount, ref, key), b.users[u])
    ensures IsCovered(CreditCall(u, amount, ref, key), b.users[u])
  {
  }

  lemma NoShift(b: Bank, u: UserId)
    requires u in b.users
    ensures Shifts(b, b, u, 0, 0)
  {
    assert b.users[u := b.users[u]] == b.users;
  }

  // ---------------------------------------------------------------- review

  /** What a provider id is cut down to. */
  predicate CutTo64(text: string, cut: string) {
    cut <= text && if |text| <= 64 then cut == text else |cut| == 64
  }

  /**
   * Closing a review goes through exactly for an order in review and one of the two resolutions, and
   * attaching only while the charge is reserved. Releasing fails the order and gives its hold back,
   * as far as there is one; attaching stores the provider's id and debits the charge from the hold.
   */
  lemma ResolveAnswers(s: Db, i: nat, release: bool, attach: Option<string>)
    requires MoneyOk(AccountsOf(s))
    ensures var e := Resolve(i, release, attach);
            && (Handle(s, e).Success? <==>
                 && i < |s.orders| && s.orders[i].status == Review
                 && (release <==> attach.None? || attach.value == "")
                 && s.orders[i].user in s.bank.users
                 && (release || s.bank.users[s.orders[i].user].reserved >= s.orders[i].charge))
            && (Handle(s, e).Failure? ==> Step(s, e) == s)
            && (Handle(s, e).Success? ==>
                  var o, after := s.orders[i], Step(s, e);
                  if release then
                    && after == s.(orders := after.orders, bank := after.bank, coupons := after.coupons,
                         redemptions := after.redemptions)
                    && MovesRow(s, after, i, o.(status := Failed))
                    && Shifts(s.bank, after.bank, o.user, 0, -Min(o.charge, s.bank.users[o.user].reserved))
                  else
                    && after == s.(orders := after.orders, bank := after.bank)
                    && i < |after.orders| && after.orders[i].provider.Some?
                    && CutTo64(attach.value, after.orders[i].provider.value)
                    && MovesRow(s, after, i, o.(status := Processing, provider := after.orders[i].provider))
                    && Shifts(s.bank, after.bank, o.user, -o.charge, -o.charge))
  {
    hide MoneyOk, FailAndRelease, CaptureOrder, CutTo64, MovesRow, Shifts;
    if i < |s.orders| && s.orders[i].status == Review && s.orders[i].user in s.bank.users {
      BooksAt(AccountsOf(s), i);
      if release { Failing(s, i, ReviewTag); } else if attach.Some? { Attaching(s, i, attach.value); }
    }
  }

  lemma Attaching(s: Db, i: nat, attach: string)
    requires MoneyOk(AccountsOf(s)) && i < |s.orders| && IsHeld(s.orders[i]) && s.orders[i].user in s.bank.users
    ensures var r := CaptureOrder(s, i, if |attach| > 64 then attach[..64] else attach);
            && (r.Success? <==> s.bank.users[s.orders[i].user].reserved >= s.orders[i].charge)
            && (r.Success? ==>
                  && r.value == s.(orders := r.value.orders, bank := r.value.bank)
                  && i < |r.value.orders| && r.value.orders[i].provider.Some?
                  && CutTo64(attach, r.value.orders[i].provider.value)
                  && MovesRow(s, r.value, i, s.orders[i].(status := Processing, provider := r.value.orders[i].provider))
                  && Shifts(s.bank, r.value.bank, s.orders[i].user, -s.orders[i].charge, -s.orders[i].charge))
  {
    hide MoneyOk, CaptureOrder, CutTo64, MovesRow, Shifts;
    CutIs(attach);
    Capturing(s, i, if |attach| > 64 then attach[..64] else attach);
  }

  lemma CutIs(text: string)
    ensures CutTo64(text, if |text| > 64 then text[..64] else text)
  {
  }

  /** The rejection of a held order. */
  lemma Failing(s: Db, i: nat, tag: ReleaseTag)
    requires MoneyOk(AccountsOf(s)) && i < |s.orders| && IsHeld(s.orders[i])
    ensures s.orders[i].user in s.bank.users
    ensures var r := FailAndRelease(s, i, tag);
            && r.Success?
            && r.value == s.(orders := r.value.orders, bank := r.value.bank, coupons := r.value.coupons,
                 redemptions := r.value.redemptions)
            && MovesRow(s, r.value, i, s.orders[i].(status := Failed))
            && Shifts(s.bank, r.value.bank, s.orders[i].user, 0,
                 -Min(s.orders[i].charge, s.bank.users[s.orders[i].user].reserved))
  {
    hide MoneyOk, LedgerOk, EntriesOk, HasKey, Release;
    var a, o := AccountsOf(s), s.orders[i];
    BooksAt(a, i);
    LedgerOf(a);
    KeyIsFresh(a, ReleaseKey(i, tag));
    WalletAnswers(s.bank, ReleaseCall(o.user, o.charge, ForOrder(i), ReleaseKey(i, tag)));
  }

  /** The capture of a held order. */
  lemma Capturing(s: Db, i: nat, id: string)
    requires MoneyOk(AccountsOf(s)) && i < |s.orders| && IsHeld(s.orders[i])
    ensures s.orders[i].user in s.bank.users
    ensures var r := CaptureOrder(s, i, id);
            && (r.Success? <==> s.bank.users[s.orders[i].user].reserved >= s.orders[i].charge)
            && (r.Success? ==>
                  && r.value == s.(orders := r.value.orders, bank := r.value.bank)
                  && r.value.orders == s.orders[i := Move(s.orders[i].(provider := Some(id)), Processing)]
                  && MovesRow(s, r.value, i, s.orders[i].(status := Processing, provider := Some(id)))
                  && Shifts(s.bank, r.value.bank, s.orders[i].user, -s.orders[i].charge, -s.orders[i].charge))
  {
    hide MoneyOk, LedgerOk, EntriesOk, HasKey, Capture;
    var a, o := AccountsOf(s), s.orders[i];
    BooksAt(a, i);
    LedgerOf(a);
    KeyIsFresh(a, CaptureKey(i));
    WalletAnswers(s.bank, CaptureCall(o.user, o.charge, ForOrder(i), CaptureKey(i)));
  }

  // ---------------------------------------------------------------- stuck orders

  /** The order was never submitted, and is old enough to be looked at. */
  predicate Overdue(orders: seq<Order>, stale: set<nat>, j: nat)
    requires j < |orders|
  {
    (orders[j].status == Pending || orders[j].status == AwaitingProvider) && orders[j].provider.None? && j in stale
  }

  function OverdueBefore(orders: seq<Order>, stale: set<nat>, i: nat): set<nat>
    requires i <= |orders|
  {
    set j: nat | j < i && Overdue(orders, stale, j)
  }

  lemma {:induction false} FlaggedIsCount(orders: seq<Order>, stale: set<nat>, n: nat)
    requires n <= |orders|
    ensures Flagged(orders[..n], stale) == |OverdueBefore(orders, stale, n)|
  {
    if n == 0 {
      assert OverdueBefore(orders, stale, 0) == {};
    } else {
      FlaggedIsCount(orders, stale, n - 1);
      assert orders[..n][..n - 1] == orders[..n - 1];
      assert OverdueBefore(orders, stale, n)
        == OverdueBefore(orders, stale, n - 1) + if Overdue(orders, stale, n - 1) then {n - 1} else {};
    }
  }

  /** The stuck-order check moves an order to review exactly if it is overdue and not preceded by `limit` others. */
  lemma FlagAnswers(s: Db, stale: set<nat>, limit: nat, i: nat)
    requires i < |s.orders|
    ensures var after := Step(s, FlagStuckOrders(stale, limit));
            && after == s.(orders := after.orders) && |after.orders| == |s.orders|
            && after.orders[i] ==
               if Overdue(s.orders, stale, i) && |OverdueBefore(s.orders, stale, i)| < limit then
                 s.orders[i].(status := Review, events := s.orders[i].events + [OrderEvent(s.orders[i].status, Review)])
               else s.orders[i]
  {
    FlagsOldestFirst(s.orders, stale, limit, i);
    FlaggedIsCount(s.orders, stale, i);
    hide FlagStuck, Flagged, OverdueBefore;
  }

  // ---------------------------------------------------------------- status sync

  /** Nothing to ask, or nothing learned. */
  predicate NothingNew(o: Order, report: PanelReport) {
    || o.status == Completed || o.status == Canceled || o.status == Failed || o.status == Refunded
    || !AtProvider(o) || report.Unreachable?
  }

  /** The counters a report carries are taken over, the others stay. */
  predicate TakesCounters(o: Order, report: PanelReport, o': Order)
    requires report.Report?
  {
    && o'.startCount == (if report.startCount.Some? then report.startCount else o.startCount)
    && o'.remains == (if report.remains.Some? then report.remains else o.remains)
  }

  /** The report ends the order, and something is still owed on it. */
  predicate IsRepaid(s: Db, i: nat, report: PanelReport)
    requires i < |s.orders|
  {
    report.Report? && (report.status == Canceled || report.status == Failed) && RefundedSoFar(s, i) < s.orders[i].charge
  }

  /** The row a report leaves: its counters and status, and refunded after that when the charge was repaid. */
  ghost predicate ReportedRow(s: Db, i: nat, report: PanelReport, o': Order)
    requires i < |s.orders|
  {
    var o := s.orders[i];
    report.Report? ==>
      && TakesCounters(o, report, o')
      && o' == o.(startCount := o'.startCount, remains := o'.remains, status := o'.status, events := o'.events)
      && o'.status == (if IsRepaid(s, i, report) then Refunded else report.status)
      && o'.events == o.events
           + (if report.status == o.status then [] else [OrderEvent(o.status, report.status)])
           + (if IsRepaid(s, i, report) then [OrderEvent(report.status, Refunded)] else [])
  }

  /** A report that neither closes the order, completes it nor delivers it in part: no money moves. */
  predicate MovesNoMoney(o: Order, report: PanelReport) {
    report.Report? &&
    (report.status == o.status || report.status == Pending || report.status == Processing
     || report.status == InProgress || report.status == Refunded)
  }

  /**
   * A provider report never raises. It changes nothing about an order that is closed or not at a
   * provider; otherwise it rewrites that one row as reported, and moves no money unless it completes
   * the order, closes it, or delivers it in part.
   */
  lemma SyncAnswers(s: Db, i: nat, report: PanelReport)
    requires MoneyOk(AccountsOf(s))
    ensures Handle(s, Sync(i, report)).Success? <==> i < |s.orders|
    ensures i >= |s.orders| || NothingNew(s.orders[i], report) ==> Step(s, Sync(i, report)) == s
    ensures i < |s.orders| && !NothingNew(s.orders[i], report) ==>
              var after := Step(s, Sync(i, report));
              && after == s.(orders := after.orders, bank := after.bank, records := after.records)
              && |after.orders| == |s.orders| && after.orders == s.orders[i := after.orders[i]]
              && ReportedRow(s, i, report, after.orders[i])
              && (MovesNoMoney(s.orders[i], report) ==> after.bank == s.bank && after.records == s.records)
  {
    hide MoneyOk, Keeps, SyncOrder, RefundedSoFar;
    if i < |s.orders| {
      SyncKeeps(s, i, report);
      BooksAt(AccountsOf(s), i);
      SyncLeaves(s, i, report);
      if !NothingNew(s.orders[i], report) && report.status in {Canceled, Failed} {
        NoClosingRecord(AccountsOf(s), i, report.status);
        CloseLeaves(s, i, report);
      }
    }
  }

  lemma SyncLeaves(s: Db, i: nat, report: PanelReport)
    requires i < |s.orders| && SyncOrder(s, i, report).Success?
    ensures NothingNew(s.orders[i], report) ==> SyncOrder(s, i, report).value == s
    ensures !NothingNew(s.orders[i], report) && report.status !in {Canceled, Failed} ==>
              var after := SyncOrder(s, i, report).value;
              && after == s.(orders := after.orders, bank := after.bank, records := after.records)
              && |after.orders| == |s.orders| && after.orders == s.orders[i := after.orders[i]]
              && ReportedRow(s, i, report, after.orders[i])
              && (MovesNoMoney(s.orders[i], report) ==> after.bank == s.bank && after.records == s.records)
  {
    hide RefundedSoFar, RefundIfNeeded, MaybePartialRefund, CreditOrderCommission;
    if !NothingNew(s.orders[i], report) && report.status !in {Canceled, Failed} {
      var moved := SetOrder(s, i, Move(Observe(s.orders[i], report.startCount, report.remains), report.status));
      if report.remains.Some? { PartialLeavesRows(moved, i, report.remains.value); }
      CommissionLeavesRows(moved, i);
    }
  }

  lemma PartialLeavesRows(s: Db, i: nat, remains: int)
    requires i < |s.orders|
    ensures var r := MaybePartialRefund(s, i, remains);
            r.Success? ==> r.value == s.(bank := r.value.bank, records := r.value.records)
  {
    hide PartialShare, Owed, Credit;
  }

  lemma CommissionLeavesRows(s: Db, i: nat)
    requires i < |s.orders|
    ensures var r := CreditOrderCommission(s, i); r.Success? ==> r.value == s.(bank := r.value.bank)
  {
    hide OrderCommissionDue, Credit;
  }

  lemma CloseLeaves(s: Db, i: nat, report: PanelReport)
    requires i < |s.orders| && SyncOrder(s, i, report).Success? && !NothingNew(s.orders[i], report)
    requires report.status in {Canceled, Failed} && RefundKey(i, TagOf(report.status)) !in s.records
    requires s.orders[i].charge > 0 && s.orders[i].user in s.bank.users
    ensures var after := SyncOrder(s, i, report).value;
            && after == s.(orders := after.orders, bank := after.bank, records := after.records)
            && |after.orders| == |s.orders| && after.orders == s.orders[i := after.orders[i]]
            && ReportedRow(s, i, report, after.orders[i])
  {
    var seen := Observe(s.orders[i], report.startCount, report.remains);
    ClosingRefund(s, i, seen, report.status);
    assert SyncOrder(s, i, report)
      == RefundIfNeeded(SetOrder(s, i, Move(seen, report.status)), i, TagOf(report.status));
    hide SyncOrder, RefundIfNeeded, Credit, RefundedSoFar;
  }

  // ---------------------------------------------------------------- partial delivery

  /** A first report of partial delivery that says what is left. */
  predicate FirstPartial(s: Db, i: nat, remains: Option<int>)
    requires i < |s.orders|
  {
    remains.Some? && remains.value > 0 && s.orders[i].quantity > 0 && PartialKey(i) !in s.records
  }

  /** The undelivered share to the nearest paisa, or all that is owed when that is less. */
  ghost predicate IsFairShare(o: Order, remains: int, owed: int, paid: int)
    requires remains > 0 && o.quantity > 0
  {
    exists n :: NearestEven(UndeliveredShare(o, remains), n) && paid == Min(n, owed)
  }

  /** What a partial report may pay for an order: the fair share when it is the first to say so, else nothing. */
  ghost predicate PaysShare(s: Db, i: nat, remains: Option<int>, after: Db)
    requires i < |s.orders| && s.orders[i].user in s.bank.users
  {
    var o := s.orders[i];
    && |after.orders| == |s.orders| && after.orders[i].user == o.user
    && var paid := RefundedSoFar(after, i) - RefundedSoFar(s, i);
       if FirstPartial(s, i, remains) then
         && IsFairShare(o, remains.value, o.charge - RefundedSoFar(s, i), paid)
         && 0 <= paid && Shifts(s.bank, after.bank, o.user, paid, 0)
       else paid == 0 && after.bank == s.bank && after.records == s.records
  }

  /**
   * A report of partial delivery on an open order: the first one that says how much is left pays
   * exactly that share of the charge back, to the nearest paisa, or all that is owed when that is
   * less; a report that does not say it, says that nothing is left, or repeats, pays nothing.
   */
  lemma PartialReportIsFair(s: Db, i: nat, startCount: Option<int>, remains: Option<int>)
    requires MoneyOk(AccountsOf(s)) && i < |s.orders| && s.orders[i].status != Partial
    requires !NothingNew(s.orders[i], Report(Partial, startCount, remains))
    ensures s.orders[i].user in s.bank.users
    ensures var after := Step(s, Sync(i, Report(Partial, startCount, remains)));
            PaysShare(s, i, remains, after) && after.orders[i].status == Partial
  {
    var moved := SetOrder(s, i, Move(Observe(s.orders[i], startCount, remains), Partial));
    BooksAt(AccountsOf(s), i);
    MovedToPartial(s, i, startCount, remains);
    PartialReportIs(s, i, startCount, remains);
    hide MoneyOk, Keeps, MaybePartialRefund, SyncOrder, PaysShare;
    if remains.Some? {
      PartialPays(moved, i, remains.value);
      SamePaid(s, moved, i, remains, MaybePartialRefund(moved, i, remains.value).value);
    } else {
      PaidNothing(moved, i);
      SamePaid(s, moved, i, remains, moved);
    }
  }

  lemma PartialReportIs(s: Db, i: nat, startCount: Option<int>, remains: Option<int>)
    requires i < |s.orders| && s.orders[i].status != Partial
    requires !NothingNew(s.orders[i], Report(Partial, startCount, remains))
    ensures var moved := SetOrder(s, i, Move(Observe(s.orders[i], startCount, remains), Partial));
            Handle(s, Sync(i, Report(Partial, startCount, remains)))
            == if remains.Some? then MaybePartialRefund(moved, i, remains.value) else Success(moved)
  {
    hide MaybePartialRefund;
  }

  lemma PaidNothing(s: Db, i: nat)
    requires i < |s.orders| && s.orders[i].user in s.bank.users
    ensures PaysShare(s, i, None, s)
  {
    hide RefundedSoFar;
  }

  /** Moving the row to partial first makes no difference to what is paid. */
  lemma SamePaid(s: Db, moved: Db, i: nat, remains: Option<int>, after: Db)
    requires i < |s.orders| == |moved.orders| && s.orders[i].user in s.bank.users
    requires moved == s.(orders := moved.orders) && moved.orders[i].user == s.orders[i].user
    requires moved.orders[i].charge == s.orders[i].charge && moved.orders[i].quantity == s.orders[i].quantity
    requires RefundedSoFar(moved, i) == RefundedSoFar(s, i) && PaysShare(moved, i, remains, after)
    ensures PaysShare(s, i, remains, after)
  {
    hide RefundedSoFar, IsFairShare;
    if FirstPartial(s, i, remains) {
      SameShare(s.orders[i], moved.orders[i], remains.value, s.orders[i].charge - RefundedSoFar(s, i),
        RefundedSoFar(after, i) - RefundedSoFar(s, i));
    }
  }

  lemma PartialPays(s: Db, i: nat, remains: int)
    requires MoneyOk(AccountsOf(s)) && i < |s.orders| && s.orders[i].status == Partial && IsCaptured(s.orders[i])
    ensures MaybePartialRefund(s, i, remains).Success? && s.orders[i].user in s.bank.users
    ensures MaybePartialRefund(s, i, remains).value.orders == s.orders
    ensures PaysShare(s, i, Some(remains), MaybePartialRefund(s, i, remains).value)
  {
    hide MoneyOk, MaybePartialRefund, RefundedSoFar, IsFairShare, Shifts, FirstPartial;
    BooksAt(AccountsOf(s), i);
    if FirstPartial(s, i, Some(remains)) {
      FirstPartialPays(s, i, remains);
    } else {
      PartialPaysNothing(s, i, remains);
    }
  }

  lemma SameShare(o: Order, o': Order, remains: int, owed: int, paid: int)
    requires remains > 0 && o.quantity > 0 && o'.quantity == o.quantity && o'.charge == o.charge
    requires IsFairShare(o', remains, owed, paid)
    ensures IsFairShare(o, remains, owed, paid)
  {
    assert UndeliveredShare(o, remains) == UndeliveredShare(o', remains);
    hide UndeliveredShare, NearestEven;
  }

  lemma MovedToPartial(s: Db, i: nat, startCount: Option<int>, remains: Option<int>)
    requires MoneyOk(AccountsOf(s)) && i < |s.orders| && AtProvider(s.orders[i])
    requires s.orders[i].status !in {Completed, Canceled, Failed, Refunded}
    ensures var moved := SetOrder(s, i, Move(Observe(s.orders[i], startCount, remains), Partial));
            MoneyOk(AccountsOf(moved)) && RefundedSoFar(moved, i) == RefundedSoFar(s, i)
  {
    hide MoneyOk, Keeps;
    BooksAt(AccountsOf(s), i);
    var o' := Move(Observe(s.orders[i], startCount, remains), Partial);
    RewriteKeeps(AccountsOf(s), i, o');
    KeepsMoney(AccountsOf(s), AccountsOf(SetOrder(s, i, o')));
    assert AccountsOf(SetOrder(s, i, o')) == AccountsOf(s).(orders := s.orders[i := o']);
  }

  lemma PartialPaysNothing(s: Db, i: nat, remains: int)
    requires i < |s.orders| && !FirstPartial(s, i, Some(remains))
    ensures MaybePartialRefund(s, i, remains) == Success(s)
  {
  }

  lemma FirstPartialPays(s: Db, i: nat, remains: int)
    requires MoneyOk(AccountsOf(s)) && i < |s.orders| && s.orders[i].status == Partial && IsCaptured(s.orders[i])
    requires FirstPartial(s, i, Some(remains))
    ensures MaybePartialRefund(s, i, remains).Success? && s.orders[i].user in s.bank.users
    ensures var o, after := s.orders[i], MaybePartialRefund(s, i, remains).value;
            && after.orders == s.orders
            && var paid := RefundedSoFar(after, i) - RefundedSoFar(s, i);
               && IsFairShare(o, remains, o.charge - RefundedSoFar(s, i), paid)
               && 0 <= paid && Shifts(s.bank, after.bank, o.user, paid, 0)
  {
    hide MoneyOk, LedgerOk, EntriesOk, HasKey, Credit, PartialShare, IsFairShare, Shifts;
    var a, o := AccountsOf(s), s.orders[i];
    BooksAt(a, i);
    LedgerOf(a);
    KeyIsFresh(a, PartialKey(i));
    var refund := Min(PartialShare(o, remains), Owed(s, i));
    ShareIsFair(o, remains, Owed(s, i));
    WalletAnswers(s.bank, CreditCall(o.user, refund, ForOrder(i), PartialKey(i)));
    NoShift(s.bank, o.user);
    if refund > 0 {
      SumAppend(s.bank.ledger, MaybePartialRefund(s, i, remains).value.bank.ledger[|s.bank.ledger|],
        RefundEntry(i, o.user));
    }
  }

  lemma ShareIsFair(o: Order, remains: int, owed: int)
    requires remains > 0 && o.quantity > 0 && o.charge > 0 && owed >= 0
    ensures IsFairShare(o, remains, owed, Min(PartialShare(o, remains), owed))
    ensures PartialShare(o, remains) >= 0
  {
    ShareIsNearest(o, remains);
    RoundsToNearestEven(UndeliveredShare(o, remains), PartialShare(o, remains));
  }
}
