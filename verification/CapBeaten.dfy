/**
 * Two ways past the cap, for every number of orders: they complete from the newest to the oldest,
 * or in id order with refills in between, and every one of them earns a commission.
 */
module CapBeaten {
  import opened Results
  import opened Keys
  import opened Wallet
  import opened Pricing
  import opened Tables
  import opened Referrals
  import opened Orders
  import opened Engine
  import opened Books
  import opened Lifecycle
  import opened Commissions
  import opened CommissionCap
  import opened CommissionRuns
  import opened Consequences
  import opened PlainOrders

  const NOBODY: map<Code, Coupon> := map[]

  /** A buyer with a referrer and money for `n` orders. */
  function Setup(n: nat): seq<Event> {
    [Join(BUYER), Join(REFERRER), Profile(BUYER, false, true), StartLink(BUYER, REFERRER),
      Adjust(BUYER, 1000 * n + 1000, STAFF, 0)]
  }

  function PlaceOne(k: nat): Event {
    Place(PlainRequest(DerivedKey(BUYER, k), 0), Accepted("P"))
  }

  function CompleteOne(i: nat): Event {
    Sync(i, Report(Completed, None, None))
  }

  /** The first `k` orders are placed. */
  function PlacesTo(n: nat, k: nat): seq<Event> {
    if k == 0 then Setup(n) else PlacesTo(n, k - 1) + [PlaceOne(k - 1)]
  }

  /** All `n` orders are placed, and the newest `m` complete, newest first. */
  function DescendingTo(n: nat, m: nat): seq<Event>
    requires m <= n
  {
    if m == 0 then PlacesTo(n, n) else DescendingTo(n, m - 1) + [CompleteOne(n - m)]
  }

  function DescendingRun(n: nat): seq<Event> {
    DescendingTo(n, n)
  }

  function RefillOne(i: nat): Event {
    Refill(i, BUYER, false, true, true)
  }

  /**
   * All `n` orders are placed, and the oldest `m` complete, oldest first; from the fourth on, the
   * lowest completed order is sent back for a refill before the next one completes.
   */
  function RefillingTo(n: nat, m: nat): seq<Event>
    requires m <= n
  {
    if m == 0 then PlacesTo(n, n)
    else if m <= 3 then RefillingTo(n, m - 1) + [CompleteOne(m - 1)]
    else RefillingTo(n, m - 1) + [RefillOne(m - 4)] + [CompleteOne(m - 1)]
  }

  function RefillingRun(n: nat): seq<Event> {
    RefillingTo(n, n)
  }

  /** What the buyer's history says of the first `m` completions of either run. */
  function Newest(n: nat, m: nat): seq<Move>
    requires m <= n
  {
    if m == 0 then [] else Newest(n, m - 1) + [Finished(n - m, true)]
  }

  function Cycle(m: nat): seq<Move> {
    if m == 0 then []
    else if m <= 3 then Cycle(m - 1) + [Finished(m - 1, true)]
    else Cycle(m - 1) + [Reopened(m - 4)] + [Finished(m - 1, true)]
  }

  // ---------------------------------------------------------------- the setup

  function FundedBuyer(n: nat): Db {
    var balance := 1000 * n + 1000;
    EmptyDb(NOBODY).(bank := Bank(
      map[BUYER := User(balance, 0, Some(REFERRER), false, true), REFERRER := User(0, 0, None, false, false)],
      [Entry(BUYER, balance, CreditEntry, ForAdmin(STAFF), AdjustmentKey(0), balance, 0)]))
  }

  function LinkedBuyer(): Db {
    EmptyDb(NOBODY).(bank := Bank(
      map[BUYER := User(0, 0, Some(REFERRER), false, true), REFERRER := User(0, 0, None, false, false)], []))
  }

  lemma SetupRuns(n: nat)
    ensures Run(EmptyDb(NOBODY), Setup(n)) == FundedBuyer(n)
  {
    hide Run, Step, FundedBuyer, LinkedBuyer, EmptyDb;
    var run := Setup(n);
    SetupUsers(n);
    SetupLink();
    SetupFunds(n);
    RunNext(EmptyDb(NOBODY), run, 3);
    RunNext(EmptyDb(NOBODY), run, 4);
    assert run[..5] == run;
  }

  function JoinedBuyer(): Db {
    EmptyDb(NOBODY).(bank := Bank(
      map[BUYER := User(0, 0, None, false, true), REFERRER := User(0, 0, None, false, false)], []))
  }

  lemma SetupLink()
    ensures Step(JoinedBuyer(), StartLink(BUYER, REFERRER)) == LinkedBuyer()
  {
    assert JoinedBuyer().bank.users[BUYER := User(0, 0, Some(REFERRER), false, true)] == LinkedBuyer().bank.users;
  }

  lemma SetupFunds(n: nat)
    ensures Step(LinkedBuyer(), Adjust(BUYER, 1000 * n + 1000, STAFF, 0)) == FundedBuyer(n)
  {
    var balance := 1000 * n + 1000;
    assert LinkedBuyer().bank.users[BUYER := User(balance, 0, Some(REFERRER), false, true)]
      == FundedBuyer(n).bank.users;
  }

  lemma SetupUsers(n: nat)
    ensures Run(EmptyDb(NOBODY), Setup(n)[..3]) == JoinedBuyer()
  {
    var s, run := EmptyDb(NOBODY), Setup(n);
    RunNext(s, run, 0);
    RunNext(s, run, 1);
    RunNext(s, run, 2);
    hide Run;
    var third := Step(Step(Step(s, run[0]), run[1]), run[2]);
    assert third.bank.users == JoinedBuyer().bank.users;
  }

  // ---------------------------------------------------------------- placing

  /** The first `k` orders are at work, and the buyer can still pay for the others. */
  ghost predicate Placed(s: Db, n: nat, k: nat) {
    && |s.orders| == k
    && (forall i | 0 <= i < k :: s.orders[i] == PlainRow(i, DerivedKey(BUYER, i), Accepted("P")))
    && (forall key | key in s.placed :: exists i | 0 <= i < k :: key == DerivedKey(BUYER, i))
    && BUYER in s.bank.users && !s.bank.users[BUYER].banned && s.bank.users[BUYER].termsAccepted
    && s.bank.users[BUYER].referredBy == Some(REFERRER)
    && Available(s.bank.users[BUYER]) >= 1000 * (n - k) + 1000
  }

  lemma PlaceStep(s: Db, n: nat, k: nat)
    requires MoneyOk(AccountsOf(s)) && Placed(s, n, k) && k < n
    ensures Placed(Step(s, PlaceOne(k)), n, k + 1)
  {
    hide MoneyOk, Step, ExistingOrder;
    var key := DerivedKey(BUYER, k);
    UnknownKey(s, key);
    PlainPlace(s, key, 0, Accepted("P"));
    var t := Step(s, PlaceOne(k));
    assert t.orders[k] == PlainRow(k, key, Accepted("P"));
    forall x | x in t.placed ensures exists i | 0 <= i < k + 1 :: x == DerivedKey(BUYER, i) {
      if x == key { assert x == DerivedKey(BUYER, k); }
    }
  }

  lemma {:induction false} PlacesRun(n: nat, k: nat)
    requires k <= n
    ensures Placed(Run(EmptyDb(NOBODY), PlacesTo(n, k)), n, k)
  {
    hide Placed, Step, EmptyDb, Setup;
    if k == 0 {
      SetupRuns(n);
      FundedIsPlaced(n);
    } else {
      PlacesRun(n, k - 1);
      ReachedMoney(NOBODY, PlacesTo(n, k - 1));
      hide MoneyOk, Run;
      RunSnoc(EmptyDb(NOBODY), PlacesTo(n, k - 1), PlaceOne(k - 1));
      PlaceStep(Run(EmptyDb(NOBODY), PlacesTo(n, k - 1)), n, k - 1);
    }
  }

  lemma FundedIsPlaced(n: nat)
    ensures Placed(FundedBuyer(n), n, 0)
  {
  }

  // ---------------------------------------------------------------- completing and refilling

  /** All `n` orders were accepted, each for 1,000 paise, and the buyer has a referrer. */
  ghost predicate AllAccepted(s: Db, n: nat) {
    && |s.orders| == n
    && (forall i | 0 <= i < n ::
         && s.orders[i].user == BUYER && s.orders[i].charge == 1000
         && s.orders[i].refillable && HasProvider(s.orders[i]))
    && ReferrerOf(s.bank, BUYER).Some?
  }

  lemma CompleteStep(s: Db, n: nat, i: nat)
    requires OrdersOk(s) && CommissionsOk(s) && AllAccepted(s, n) && i < n && s.orders[i].status == Processing
    ensures var t := Step(s, CompleteOne(i));
            && AllAccepted(t, n) && t.orders == s.orders[i := t.orders[i]] && t.orders[i].status == Completed
    ensures MovesOf(s, CompleteOne(i), BUYER) == [Finished(i, true)]
  {
    hide OrdersOk, LedgerOk, Handle, CreditOrderCommission;
    var e := CompleteOne(i);
    assert Completes(s, e);
    CompletingSync(s, e);
    var done := CompletedState(s, e);
    CompletionRewards(done, i);
    assert Step(s, e).orders == done.orders;
    assert Commission(1000, REFERRAL_ORDER_COMMISSION_PERCENT) == 80;
  }

  lemma RefillStep(s: Db, n: nat, i: nat)
    requires AllAccepted(s, n) && i < n && s.orders[i].status == Completed
    ensures var t := Step(s, RefillOne(i));
            && AllAccepted(t, n) && t.orders == s.orders[i := t.orders[i]] && t.orders[i].status == Refilling
    ensures MovesOf(s, RefillOne(i), BUYER) == [Reopened(i)]
  {
    assert Handle(s, RefillOne(i)).Success?;
  }

  lemma PlacedIsAccepted(s: Db, n: nat)
    requires Placed(s, n, n) && REFERRER in s.bank.users
    ensures AllAccepted(s, n) && forall i | 0 <= i < n :: s.orders[i].status == Processing
  {
  }

  lemma ReferrerStaysKnown(n: nat, k: nat)
    requires k <= n
    ensures REFERRER in Run(EmptyDb(NOBODY), PlacesTo(n, k)).bank.users
  {
    hide OrdersOk, CommissionsOk, Step, EmptyDb, Setup;
    if k == 0 {
      SetupRuns(n);
    } else {
      ReferrerStaysKnown(n, k - 1);
      EmptyCommissions(NOBODY);
      RunKeepsCommissions(EmptyDb(NOBODY), PlacesTo(n, k - 1));
      RunSnoc(EmptyDb(NOBODY), PlacesTo(n, k - 1), PlaceOne(k - 1));
      UsersStay(Run(EmptyDb(NOBODY), PlacesTo(n, k - 1)), PlaceOne(k - 1), REFERRER);
    }
  }

  lemma UsersStay(s: Db, e: Event, u: UserId)
    requires OrdersOk(s) && CommissionsOk(s) && u in s.bank.users
    ensures u in Step(s, e).bank.users
  {
    hide OrdersOk, LedgerOk, Step;
    StepEffect(s, e);
  }

  /** Before anything completes: all orders are at work, and the history is empty. */
  lemma CompletingStarts(n: nat)
    ensures var s, run := EmptyDb(NOBODY), PlacesTo(n, n);
            && AllAccepted(Run(s, run), n) && Moves(s, run, BUYER) == []
            && forall i | 0 <= i < n :: Run(s, run).orders[i].status == Processing
  {
    hide EmptyDb, Placed, PlacesTo, Run;
    PlacesRun(n, n);
    ReferrerStaysKnown(n, n);
    PlacedIsAccepted(Run(EmptyDb(NOBODY), PlacesTo(n, n)), n);
    NoSyncYet(n, n);
    NothingMovesYet(EmptyDb(NOBODY), PlacesTo(n, n));
  }

  lemma {:induction false} NoSyncYet(n: nat, k: nat)
    ensures forall j | 0 <= j < |PlacesTo(n, k)| :: !PlacesTo(n, k)[j].Sync? && !PlacesTo(n, k)[j].Refill?
  {
    if k > 0 { NoSyncYet(n, k - 1); }
  }

  lemma {:induction false} NothingMovesYet(s: Db, events: seq<Event>)
    requires forall j | 0 <= j < |events| :: !events[j].Sync? && !events[j].Refill?
    ensures Moves(s, events, BUYER) == []
  {
    hide Step;
    if events != [] { NothingMovesYet(s, events[..|events| - 1]); }
  }

  /** One more call of a run: its state and its history. */
  lemma NextMove(events: seq<Event>, e: Event)
    ensures var s := EmptyDb(NOBODY);
            && OrdersOk(Run(s, events)) && CommissionsOk(Run(s, events))
            && Run(s, events + [e]) == Step(Run(s, events), e)
            && Moves(s, events + [e], BUYER) == Moves(s, events, BUYER) + MovesOf(Run(s, events), e, BUYER)
  {
    hide MovesOf, Run, EmptyDb, OrdersOk, CommissionsOk;
    EmptyCommissions(NOBODY);
    RunKeepsCommissions(EmptyDb(NOBODY), events);
    RunSnoc(EmptyDb(NOBODY), events, e);
    assert (events + [e])[..|events|] == events;
  }

  // ---------------------------------------------------------------- from the newest to the oldest

  /** The oldest `n - m` orders are still at work. */
  ghost predicate Descended(s: Db, n: nat, m: nat)
    requires m <= n
  {
    AllAccepted(s, n) && forall i | 0 <= i < n - m :: s.orders[i].status == Processing
  }

  lemma DescentStep(s: Db, n: nat, m: nat)
    requires OrdersOk(s) && CommissionsOk(s) && m < n && Descended(s, n, m)
    ensures Descended(Step(s, CompleteOne(n - m - 1)), n, m + 1)
    ensures MovesOf(s, CompleteOne(n - m - 1), BUYER) == [Finished(n - m - 1, true)]
  {
    CompleteStep(s, n, n - m - 1);
    hide AllAccepted, Step, MovesOf, OrdersOk, CommissionsOk;
    AcceptedLength(s, n);
  }

  lemma AcceptedLength(s: Db, n: nat)
    requires AllAccepted(s, n)
    ensures |s.orders| == n
  {
  }

  ghost predicate DescentRun(n: nat, m: nat)
    requires m <= n
  {
    && Descended(Run(EmptyDb(NOBODY), DescendingTo(n, m)), n, m)
    && Moves(EmptyDb(NOBODY), DescendingTo(n, m), BUYER) == Newest(n, m)
  }

  lemma {:induction false} DescendingRuns(n: nat, m: nat)
    requires m <= n
    ensures DescentRun(n, m)
  {
    hide DescentRun;
    if m == 0 {
      DescentStarts(n);
    } else {
      DescendingRuns(n, m - 1);
      DescentRunNext(n, m);
    }
  }

  lemma DescentStarts(n: nat)
    ensures DescentRun(n, 0)
  {
    hide Run, EmptyDb, Moves;
    CompletingStarts(n);
  }

  lemma DescentRunNext(n: nat, m: nat)
    requires 0 < m <= n && DescentRun(n, m - 1)
    ensures DescentRun(n, m)
  {
    hide Run, EmptyDb, Moves, MovesOf, OrdersOk, CommissionsOk, Descended;
    var earlier := DescendingTo(n, m - 1);
    NextMove(earlier, CompleteOne(n - m));
    DescentStep(Run(EmptyDb(NOBODY), earlier), n, m - 1);
  }

  lemma {:induction false} NewestDescend(n: nat, m: nat)
    requires m <= n
    ensures |Newest(n, m)| == m && forall k | 0 <= k < m :: Newest(n, m)[k] == Finished(n - 1 - k, true)
  {
    if m > 0 { NewestDescend(n, m - 1); }
  }

  /** However many: the run of `n` orders that complete from the newest to the oldest pays `n` commissions. */
  lemma EveryDescendingRunBeatsTheCap(n: nat)
    ensures |CommissionedOrders(Run(EmptyDb(NOBODY), DescendingRun(n)), BUYER)| == n
  {
    hide Run, EmptyDb, Moves, AllAccepted, DescendingTo, CommissionedOrders, PaidIds;
    DescendingRuns(n, n);
    assert DescentRun(n, n);
    NewestDescend(n, n);
    DescendingOrdersBeatTheCap(Newest(n, n));
    CommissionedIff(NOBODY, DescendingRun(n), BUYER);
  }

  // ---------------------------------------------------------------- in id order, with refills

  /** The newest three of the oldest `m` orders stand completed, and the orders after those are at work. */
  ghost predicate Cycled(s: Db, n: nat, m: nat)
    requires m <= n
  {
    && AllAccepted(s, n)
    && (forall i | m <= i < n :: s.orders[i].status == Processing)
    && (forall i | 0 <= i < m && m - 3 <= i :: s.orders[i].status == Completed)
  }

  /** The calls that complete one more order, after the refill of the lowest completed one when there are three. */
  lemma CycleStep(s: Db, n: nat, m: nat)
    requires OrdersOk(s) && CommissionsOk(s) && m < n && Cycled(s, n, m)
    requires m < 3
    ensures Cycled(Step(s, CompleteOne(m)), n, m + 1)
    ensures MovesOf(s, CompleteOne(m), BUYER) == [Finished(m, true)]
  {
    CompleteStep(s, n, m);
    hide AllAccepted, Step, MovesOf, OrdersOk, CommissionsOk;
    AcceptedLength(s, n);
  }

  lemma RefillCycleStep(s: Db, n: nat, m: nat)
    requires OrdersOk(s) && CommissionsOk(s) && 3 <= m < n && Cycled(s, n, m)
    requires OrdersOk(Step(s, RefillOne(m - 3))) && CommissionsOk(Step(s, RefillOne(m - 3)))
    ensures var t := Step(s, RefillOne(m - 3));
            && Cycled(Step(t, CompleteOne(m)), n, m + 1)
            && MovesOf(s, RefillOne(m - 3), BUYER) == [Reopened(m - 3)]
            && MovesOf(t, CompleteOne(m), BUYER) == [Finished(m, true)]
  {
    hide Step, MovesOf, OrdersOk, CommissionsOk;
    AcceptedLength(s, n);
    RefillStep(s, n, m - 3);
    CompleteStep(Step(s, RefillOne(m - 3)), n, m);
    hide AllAccepted;
  }

  ghost predicate CycleRun(n: nat, m: nat)
    requires m <= n
  {
    && Cycled(Run(EmptyDb(NOBODY), RefillingTo(n, m)), n, m)
    && Moves(EmptyDb(NOBODY), RefillingTo(n, m), BUYER) == Cycle(m)
  }

  lemma {:induction false} RefillingRuns(n: nat, m: nat)
    requires m <= n
    ensures CycleRun(n, m)
  {
    hide CycleRun;
    if m == 0 {
      CycleStarts(n);
    } else {
      RefillingRuns(n, m - 1);
      if m <= 3 { CycleRunNext(n, m); } else { RefillRunNext(n, m); }
    }
  }

  lemma CycleStarts(n: nat)
    ensures CycleRun(n, 0)
  {
    hide Run, EmptyDb, Moves;
    CompletingStarts(n);
  }

  lemma CycleRunNext(n: nat, m: nat)
    requires 0 < m <= 3 && m <= n && CycleRun(n, m - 1)
    ensures CycleRun(n, m)
  {
    hide Run, EmptyDb, Moves, MovesOf, OrdersOk, CommissionsOk, Cycled;
    var earlier := RefillingTo(n, m - 1);
    NextMove(earlier, CompleteOne(m - 1));
    CycleStep(Run(EmptyDb(NOBODY), earlier), n, m - 1);
  }

  lemma RefillRunNext(n: nat, m: nat)
    requires 3 < m <= n && CycleRun(n, m - 1)
    ensures CycleRun(n, m)
  {
    hide Run, EmptyDb, Moves, MovesOf, OrdersOk, CommissionsOk, Cycled;
    var earlier := RefillingTo(n, m - 1);
    NextMove(earlier, RefillOne(m - 4));
    NextMove(earlier + [RefillOne(m - 4)], CompleteOne(m - 1));
    RefillCycleStep(Run(EmptyDb(NOBODY), earlier), n, m - 1);
  }

  function FirstIds(m: nat): set<nat> {
    if m == 0 then {} else FirstIds(m - 1) + {m - 1}
  }

  lemma {:induction false} FirstIdsSize(m: nat)
    ensures |FirstIds(m)| == m && forall i | i in FirstIds(m) :: i < m
  {
    if m > 0 { FirstIdsSize(m - 1); }
  }

  lemma TwoBelow(done: set<nat>, m: nat)
    requires forall i | i in done :: m - 2 <= i
    ensures |LowerThan(done, m)| < 3
  {
    var two: set<nat> := if m < 2 then {0} else {m - 2, m - 1};
    SubsetSize(LowerThan(done, m), two);
  }

  lemma {:induction false} CyclePays(m: nat)
    ensures forall i | i in DoneAfter(Cycle(m)) :: m - 3 <= i
    ensures PaidIds(Cycle(m)) == FirstIds(m)
  {
    hide PaidIds, DoneAfter;
    if m == 0 {
      NothingPaid();
      NothingDone();
    } else {
      var earlier := Cycle(m - 1);
      CyclePays(m - 1);
      if m <= 3 {
        TwoBelow(DoneAfter(earlier), m - 1);
        FinishingPays(earlier, m - 1);
      } else {
        ReopeningPaysNothing(earlier, m - 4);
        TwoBelow(DoneAfter(earlier + [Reopened(m - 4)]), m - 1);
        FinishingPays(earlier + [Reopened(m - 4)], m - 1);
      }
    }
  }

  lemma NothingDone()
    ensures DoneAfter([]) == {}
  {
  }

  lemma ReopeningPaysNothing(moves: seq<Move>, i: nat)
    ensures DoneAfter(moves + [Reopened(i)]) == DoneAfter(moves) - {i}
    ensures PaidIds(moves + [Reopened(i)]) == PaidIds(moves)
  {
    hide PaidIds;
    assert (moves + [Reopened(i)])[..|moves|] == moves;
    PaidIdsNext(moves + [Reopened(i)]);
  }

  lemma FinishingPays(moves: seq<Move>, i: nat)
    ensures DoneAfter(moves + [Finished(i, true)]) == DoneAfter(moves) + {i}
    ensures |LowerThan(DoneAfter(moves), i)| < 3 ==>
            PaidIds(moves + [Finished(i, true)]) == PaidIds(moves) + {i}
  {
    hide PaidIds;
    assert (moves + [Finished(i, true)])[..|moves|] == moves;
    PaidIdsNext(moves + [Finished(i, true)]);
  }

  /**
   * Completing in id order does not help once refills come between: the run that completes `n`
   * orders from the oldest to the newest, with one refill before each from the fourth on, pays `n`
   * commissions.
   */
  lemma EveryRefillingRunBeatsTheCap(n: nat)
    ensures |CommissionedOrders(Run(EmptyDb(NOBODY), RefillingRun(n)), BUYER)| == n
  {
    hide Run, EmptyDb, Moves, AllAccepted, RefillingTo, CommissionedOrders, PaidIds;
    RefillingRuns(n, n);
    assert CycleRun(n, n);
    CyclePays(n);
    FirstIdsSize(n);
    CommissionedIff(NOBODY, RefillingRun(n), BUYER);
  }
}
