/** Concrete runs in which the code does not do what is said of it. */
module Incidents {
  import opened Results
  import opened Sums
  import opened Keys
  import opened Wallet
  import opened Pricing
  import opened Tables
  import opened Referrals
  import opened Orders
  import opened Payments
  import opened Engine
  import opened Books
  import opened PriceMath
  import opened EngineKept
  import opened Consequences
  import opened PlainOrders

  function OrderFor(token: string): OrderRequest {
    PlainRequest(ClientKey(BUYER, token), 0)
  }

  function Buyer(balance: int, reserved: int): User {
    User(balance, reserved, None, false, true)
  }

  /** The incident, call by call: the first order is captured, the second is still being submitted. */
  function IncidentRun(): seq<Event> {
    [Join(BUYER),
     Profile(BUYER, false, true),
     Adjust(BUYER, 3000, STAFF, 0),
     Place(OrderFor("first"), Accepted("P1")),
     Sync(0, Report(Pending, None, None)),
     Place(OrderFor("second"), Crashed),
     Cancel(0, BUYER, false, true)]
  }

  function Funded(): Db {
    EmptyDb(map[]).(bank := Bank(map[BUYER := Buyer(3000, 0)],
                                 [Entry(BUYER, 3000, CreditEntry, ForAdmin(STAFF), AdjustmentKey(0), 3000, 0)]))
  }

  function OrderRow(i: nat, token: string, provider: Option<string>, events: seq<OrderEvent>, status: Status): Order {
    Order(i, BUYER, status, provider, 1000, 1000, None, ClientKey(BUYER, token), true, true, None, Some(1000), 0,
      events)
  }

  function FirstTrail(): seq<OrderEvent> {
    [OrderEvent(Pending, AwaitingProvider), OrderEvent(AwaitingProvider, Processing)]
  }

  function FirstHeld(): Db {
    Funded().(
      bank := Bank(map[BUYER := Buyer(3000, 1000)],
                   Funded().bank.ledger + [Entry(BUYER, 0, ReserveEntry, ForOrder(0), ReserveKey(0), 3000, 1000)]),
      orders := [OrderRow(0, "first", None, [OrderEvent(Pending, AwaitingProvider)], AwaitingProvider)],
      placed := map[ClientKey(BUYER, "first") := 0])
  }

  function FirstCaptured(): Db {
    FirstHeld().(
      bank := Bank(map[BUYER := Buyer(2000, 0)],
                   FirstHeld().bank.ledger + [Entry(BUYER, -1000, CaptureEntry, ForOrder(0), CaptureKey(0), 2000, 0)]),
      orders := [OrderRow(0, "first", Some("P1"), FirstTrail(), Processing)])
  }

  function SyncedBack(): Db {
    FirstCaptured().(orders :=
      [OrderRow(0, "first", Some("P1"), FirstTrail() + [OrderEvent(Processing, Pending)], Pending)])
  }

  function SecondHeld(): Db {
    SyncedBack().(
      bank := Bank(map[BUYER := Buyer(2000, 1000)],
                   SyncedBack().bank.ledger + [Entry(BUYER, 0, ReserveEntry, ForOrder(1), ReserveKey(1), 2000, 1000)]),
      orders := SyncedBack().orders
        + [OrderRow(1, "second", None, [OrderEvent(Pending, AwaitingProvider)], AwaitingProvider)],
      placed := SyncedBack().placed[ClientKey(BUYER, "second") := 1])
  }

  function FirstCancelled(): Db {
    SecondHeld().(
      bank := Bank(map[BUYER := Buyer(2000, 0)],
                   SecondHeld().bank.ledger
                     + [Entry(BUYER, 0, ReleaseEntry, ForOrder(0), ReleaseKey(0, CancelTag), 2000, 0)]),
      orders := [Move(SecondHeld().orders[0], Canceled), SecondHeld().orders[1]])
  }

  lemma FundingSteps()
    ensures Run(EmptyDb(map[]), IncidentRun()[..3]) == Funded()
  {
    var run := IncidentRun();
    var s0 := EmptyDb(map[]);
    RunNext(s0, run, 0);
    RunNext(s0, run, 1);
    RunNext(s0, run, 2);
    var s1 := Step(s0, run[0]);
    assert s1 == s0.(bank := Bank(map[BUYER := User(0, 0, None, false, false)], []));
    var s2 := Step(s1, run[1]);
    assert s2.bank == Bank(map[BUYER := Buyer(0, 0)], []);
    assert Step(s2, run[2]).bank == Funded().bank;
  }

  /** Storing a plain order: one hold, one row, one remembered key. */
  lemma StoreFor(s: Db, token: string)
    requires BUYER in s.bank.users && Available(s.bank.users[BUYER]) >= 1000 && s.bank.users[BUYER].reserved >= 0
    requires !HasKey(s.bank.ledger, ReserveKey(|s.orders|)) && ExistingOrder(s, ClientKey(BUYER, token)) == None
    ensures var row := s.bank.users[BUYER];
            var i := |s.orders|;
            OpenOrder(s, OrderFor(token), PlainQuoteOf(), ClientKey(BUYER, token))
            == Success(s.(
                 bank := Bank(s.bank.users[BUYER := row.(reserved := row.reserved + 1000)],
                              s.bank.ledger + [Entry(BUYER, 0, ReserveEntry, ForOrder(i), ReserveKey(i), row.balance,
                                row.reserved + 1000)]),
                 orders := s.orders + [OrderRow(i, token, None, [OrderEvent(Pending, AwaitingProvider)],
                   AwaitingProvider)],
                 placed := s.placed[ClientKey(BUYER, token) := i]))
  {
    hide ExistingOrder;
    var key := ClientKey(BUYER, token);
    var row := s.bank.users[BUYER];
    assert row.(balance := row.balance, reserved := row.reserved + 1000) == row.(reserved := row.reserved + 1000);
    assert Move(NewOrder(s, OrderFor(token), PlainQuoteOf(), key), AwaitingProvider)
        == OrderRow(|s.orders|, token, None, [OrderEvent(Pending, AwaitingProvider)], AwaitingProvider);
  }

  lemma FirstStored()
    ensures OpenOrder(Funded(), OrderFor("first"), PlainQuoteOf(), ClientKey(BUYER, "first")) == Success(FirstHeld())
    ensures ExistingOrder(Funded(), ClientKey(BUYER, "first")) == None
  {
    var s := Funded();
    StoreFor(s, "first");
    hide OpenOrder;
    assert s.orders + [OrderRow(0, "first", None, [OrderEvent(Pending, AwaitingProvider)], AwaitingProvider)]
      == FirstHeld().orders;
    assert s.bank.users[BUYER := Buyer(3000, 1000)] == FirstHeld().bank.users;
  }

  lemma FirstSubmitted()
    ensures Submit(FirstHeld(), 0, Accepted("P1")) == Success(FirstCaptured())
  {
    assert FirstHeld().bank.users[BUYER := Buyer(2000, 0)] == FirstCaptured().bank.users;
    assert FirstHeld().orders[0].events + [OrderEvent(AwaitingProvider, Processing)] == FirstTrail();
    assert FirstHeld().orders[0 := OrderRow(0, "first", Some("P1"), FirstTrail(), Processing)]
      == FirstCaptured().orders;
  }

  lemma FirstOrderStep()
    ensures Step(Funded(), Place(OrderFor("first"), Accepted("P1"))) == FirstCaptured()
  {
    hide CheckRequest, OpenOrder, Submit, ExistingOrder, FirstHeld, FirstCaptured;
    PlainQuote(Funded(), ClientKey(BUYER, "first"), 0);
    FirstStored();
    FirstSubmitted();
    assert |Funded().orders| == 0;
  }

  lemma SyncStep()
    ensures Step(FirstCaptured(), Sync(0, Report(Pending, None, None))) == SyncedBack()
  {
    var s := FirstCaptured();
    assert s.orders[0 := Move(s.orders[0], Pending)] == SyncedBack().orders;
  }

  lemma SecondStored()
    ensures OpenOrder(SyncedBack(), OrderFor("second"), PlainQuoteOf(), ClientKey(BUYER, "second"))
            == Success(SecondHeld())
    ensures ExistingOrder(SyncedBack(), ClientKey(BUYER, "second")) == None
  {
    var s := SyncedBack();
    assert FindKey(s.orders, ClientKey(BUYER, "second")) == None by {
      assert s.orders[..0] == [] && "first"[0] != "second"[0];
    }
    assert "first"[0] != "second"[0];
    StoreFor(s, "second");
    hide OpenOrder;
    assert s.bank.users[BUYER := Buyer(2000, 1000)] == SecondHeld().bank.users;
  }

  lemma SecondOrderStep()
    ensures Step(SyncedBack(), Place(OrderFor("second"), Crashed)) == SecondHeld()
  {
    hide CheckRequest, OpenOrder, ExistingOrder, SecondHeld;
    PlainQuote(SyncedBack(), ClientKey(BUYER, "second"), 0);
    SecondStored();
    assert |SyncedBack().orders| == 1;
  }

  lemma CancelStep()
    ensures Step(SecondHeld(), Cancel(0, BUYER, false, true)) == FirstCancelled()
  {
    var s := SecondHeld();
    assert s.orders[0 := Move(s.orders[0], Canceled)] == FirstCancelled().orders;
    assert s.bank.users[BUYER := Buyer(2000, 0)] == FirstCancelled().bank.users;
  }

  lemma IncidentSteps()
    ensures Run(EmptyDb(map[]), IncidentRun()[..6]) == SecondHeld()
    ensures Run(EmptyDb(map[]), IncidentRun()) == FirstCancelled()
  {
    hide Step, Funded, FirstCaptured, SyncedBack, SecondHeld, FirstCancelled, Run, OrderFor, EmptyDb;
    var run := IncidentRun();
    FundingSteps();
    FirstOrderStep();
    SyncStep();
    SecondOrderStep();
    CancelStep();
    RunNext(EmptyDb(map[]), run, 3);
    RunNext(EmptyDb(map[]), run, 4);
    RunNext(EmptyDb(map[]), run, 5);
    RunNext(EmptyDb(map[]), run, 6);
    assert run[..7] == run;
  }

  /**
   * The incident: the last call of this run is a harmful cancel. The cancelled order was charged
   * and nothing is refunded; the hold of the other order is gone, so capturing it raises.
   */
  lemma SyncedPendingCancelBreaksTheBooks()
    ensures var run := IncidentRun();
            var before := Run(EmptyDb(map[]), run[..6]);
            var after := Run(EmptyDb(map[]), run);
            && Harmful(before, run[6])
            && |after.orders| == 2
            && after.orders[0].status == Canceled && IsCaptured(after.orders[0])
            && RefundedSoFar(after, 0) == 0 < after.orders[0].charge
            && IsHeld(after.orders[1]) && BUYER in after.bank.users
            && after.bank.users[BUYER].reserved == 0 < after.orders[1].charge
            && CaptureOrder(after, 1, "P2") == Failure(CaptureExceedsReserve)
  {
    IncidentSteps();
    hide Run;
    NothingRefunded(FirstCancelled());
    NoCaptureOfSecond(FirstCancelled().bank);
    HarmHere(SecondHeld());
  }

  lemma NothingRefunded(s: Db)
    requires |s.orders| == 2 && s.orders[0].user == BUYER && s.bank.ledger == FirstCancelled().bank.ledger
    ensures RefundedSoFar(s, 0) == 0
  {
    SumZero(s.bank.ledger, RefundEntry(0, BUYER));
  }

  lemma NoCaptureOfSecond(b: Bank)
    requires b == FirstCancelled().bank
    ensures !HasKey(b.ledger, CaptureKey(1))
  {
  }

  lemma HarmHere(s: Db)
    requires s == SecondHeld()
    ensures Harmful(s, Cancel(0, BUYER, false, true))
  {
  }

  // ---------------------------------------------------------------- the second deposit earns the commission

  function DepositNumber(bucket: int): DepositRequest {
    DepositRequest(BUYER, 10000, InvoiceBucketKey(BUYER, 10000, bucket), "manual", "INR", 1, 1000000, true)
  }

  /** The buyer tops up, only then follows a referral link, and tops up again. */
  function LateReferralRun(): seq<Event> {
    [Join(BUYER), Join(REFERRER), Profile(BUYER, false, true),
     OpenDeposit(DepositNumber(0), None), Confirm(0),
     StartLink(BUYER, REFERRER),
     OpenDeposit(DepositNumber(1), None), Confirm(1)]
  }

  function Invoice(bucket: int, status: PaymentStatus): Payment {
    Payment(BUYER, 10000, "INR", "manual", status, None, InvoiceBucketKey(BUYER, 10000, bucket))
  }

  function DepositorState(balance: int, referrer: Option<UserId>, ledger: seq<Entry>, payments: seq<Payment>): Db {
    EmptyDb(map[]).(
      bank := Bank(map[BUYER := User(balance, 0, referrer, false, true), REFERRER := User(0, 0, None, false, false)],
        ledger),
      payments := payments)
  }

  function FirstDepositEntry(): Entry {
    Entry(BUYER, 10000, CreditEntry, ForPayment(0), DepositKey(0), 10000, 0)
  }

  lemma Joined()
    ensures Run(EmptyDb(map[]), LateReferralRun()[..3]) == DepositorState(0, None, [], [])
  {
    var run, s := LateReferralRun(), EmptyDb(map[]);
    RunNext(s, run, 0);
    RunNext(s, run, 1);
    RunNext(s, run, 2);
    var third := Step(Step(Step(s, run[0]), run[1]), run[2]);
    assert third.bank.users == DepositorState(0, None, [], []).bank.users;
  }

  lemma OpenFirst()
    ensures Step(DepositorState(0, None, [], []), OpenDeposit(DepositNumber(0), None))
            == DepositorState(0, None, [], [Invoice(0, Unpaid)])
  {
  }

  lemma ConfirmFirst()
    ensures Step(DepositorState(0, None, [], [Invoice(0, Unpaid)]), Confirm(0))
         == DepositorState(10000, None, [FirstDepositEntry()], [Invoice(0, Paid)])
  {
    var s := DepositorState(0, None, [], [Invoice(0, Unpaid)]);
    var after := DepositorState(10000, None, [FirstDepositEntry()], [Invoice(0, Paid)]);
    assert s.bank.users[BUYER := User(10000, 0, None, false, true)] == after.bank.users;
    assert s.bank.ledger + [FirstDepositEntry()] == after.bank.ledger;
    assert s.payments[0 := Invoice(0, Paid)] == after.payments;
  }

  lemma FollowLink()
    ensures Step(DepositorState(10000, None, [FirstDepositEntry()], [Invoice(0, Paid)]), StartLink(BUYER, REFERRER))
         == DepositorState(10000, Some(REFERRER), [FirstDepositEntry()], [Invoice(0, Paid)])
  {
    var s := DepositorState(10000, None, [FirstDepositEntry()], [Invoice(0, Paid)]);
    assert s.bank.users[BUYER := User(10000, 0, Some(REFERRER), false, true)]
        == DepositorState(10000, Some(REFERRER), [], []).bank.users;
  }

  lemma OpenSecond()
    ensures Step(DepositorState(10000, Some(REFERRER), [FirstDepositEntry()], [Invoice(0, Paid)]),
            OpenDeposit(DepositNumber(1), None))
         == DepositorState(10000, Some(REFERRER), [FirstDepositEntry()], [Invoice(0, Paid), Invoice(1, Unpaid)])
  {
    var s := DepositorState(10000, Some(REFERRER), [FirstDepositEntry()], [Invoice(0, Paid)]);
    assert s.payments[..0] == [];
    assert FindInvoice(s.payments, InvoiceBucketKey(BUYER, 10000, 1)) == None;
  }

  lemma ConfirmSecond(s: Db)
    requires s == DepositorState(10000, Some(REFERRER), [FirstDepositEntry()], [Invoice(0, Paid), Invoice(1, Unpaid)])
    ensures HasKey(Step(s, Confirm(1)).bank.ledger, DepositCommissionKey(BUYER))
    ensures var ledger := Step(s, Confirm(1)).bank.ledger;
            |ledger| == 3 && ledger[2]
              == Entry(REFERRER, 500, CreditEntry, ForReferredDeposit(1), DepositCommissionKey(BUYER), 500, 0)
  {
    var bank := Credit(s.bank, BUYER, 10000, ForPayment(1), DepositKey(1)).value;
    assert bank.ledger == [FirstDepositEntry(),
      Entry(BUYER, 10000, CreditEntry, ForPayment(1), DepositKey(1), 20000, 0)];
    PaidOnce(s.payments);
    var rewarded := CreditDepositCommission(s.(bank := bank), 1).value;
    assert rewarded.bank.ledger[2].key == DepositCommissionKey(BUYER);
  }

  lemma PaidOnce(payments: seq<Payment>)
    requires payments == [Invoice(0, Paid), Invoice(1, Unpaid)]
    ensures Sum(payments, PaidPaymentOf(BUYER)) == 1
  {
    SumAppend([], Invoice(0, Paid), PaidPaymentOf(BUYER));
    SumAppend([Invoice(0, Paid)], Invoice(1, Unpaid), PaidPaymentOf(BUYER));
    assert [] + [Invoice(0, Paid)] == [Invoice(0, Paid)] && payments == [Invoice(0, Paid)] + [Invoice(1, Unpaid)];
  }

  /** The commission meant for a first deposit is paid on the second one. */
  lemma SecondDepositCanEarn()
    ensures var before := Run(EmptyDb(map[]), LateReferralRun()[..7]);
            var after := Run(EmptyDb(map[]), LateReferralRun());
            && |before.payments| == 2 && before.payments[0].status == Paid && before.payments[0].user == BUYER
            && |after.bank.ledger| == 3 && after.bank.ledger[2].ref == ForReferredDeposit(1)
            && after.bank.ledger[2].user == REFERRER
  {
    hide Step, Run, EmptyDb;
    var run, s := LateReferralRun(), EmptyDb(map[]);
    Joined();
    OpenFirst();
    ConfirmFirst();
    FollowLink();
    OpenSecond();
    RunNext(s, run, 3);
    RunNext(s, run, 4);
    RunNext(s, run, 5);
    RunNext(s, run, 6);
    RunNext(s, run, 7);
    assert run[..8] == run;
    ConfirmSecond(Run(s, run[..7]));
  }

  // ---------------------------------------------------------------- every replay stores one more order

  /** A request that the provider rejects, and two replays of its client key. */
  function ReplayRun(): seq<Event> {
    IncidentRun()[..3]
    + [Place(OrderFor("first"), Rejected),
       Place(PlainRequest(ClientKey(BUYER, "first"), 0), Accepted("P1")),
       Place(PlainRequest(ClientKey(BUYER, "first"), 1), Accepted("P2"))]
  }

  lemma FundedMoney()
    ensures MoneyOk(AccountsOf(Funded()))
  {
    hide MoneyOk, Run, Funded, EmptyDb;
    FundingSteps();
    ReachedMoney(map[], IncidentRun()[..3]);
  }

  /** After the rejection: one failed order, which the client key leads to. */
  lemma RejectedFirst(s: Db)
    requires s == Step(Funded(), Place(OrderFor("first"), Rejected))
    ensures MoneyOk(AccountsOf(s)) && CanOrder(s) && Available(s.bank.users[BUYER]) >= 2000
    ensures s.orders == [PlainRow(0, ClientKey(BUYER, "first"), Rejected)]
    ensures s.placed == map[ClientKey(BUYER, "first") := 0]
  {
    FundedMoney();
    hide MoneyOk, Step;
    UnknownKey(Funded(), ClientKey(BUYER, "first"));
    PlainPlace(Funded(), ClientKey(BUYER, "first"), 0, Rejected);
    StepKeepsMoney(Funded(), Place(OrderFor("first"), Rejected));
  }

  /** A replay of the failed key stores one more order under a fresh retry key. */
  lemma ReplayStep(s: Db, stamp: nat, answer: Answer)
    requires MoneyOk(AccountsOf(s)) && CanOrder(s) && answer.Accepted?
    requires ExistingOrder(s, ClientKey(BUYER, "first")) == Some(0) && |s.orders| > 0 && s.orders[0].status == Failed
    requires ExistingOrder(s, RetryKey(ClientKey(BUYER, "first"), stamp)) == None
    ensures var t := Step(s, Place(PlainRequest(ClientKey(BUYER, "first"), stamp), answer));
            var key := RetryKey(ClientKey(BUYER, "first"), stamp);
            && MoneyOk(AccountsOf(t))
            && t.orders == s.orders + [PlainRow(|s.orders|, key, answer)]
            && t.placed == s.placed[key := |s.orders|]
            && BUYER in t.bank.users && Available(t.bank.users[BUYER]) >= Available(s.bank.users[BUYER]) - 1000
            && !t.bank.users[BUYER].banned && t.bank.users[BUYER].termsAccepted
  {
    hide MoneyOk, Step, ExistingOrder;
    PlainPlace(s, ClientKey(BUYER, "first"), stamp, answer);
    StepKeepsMoney(s, Place(PlainRequest(ClientKey(BUYER, "first"), stamp), answer));
  }

  /** One client key, one rejected order, two replays: two more orders, both charged. */
  lemma EveryReplayStoresAnOrder()
    ensures var t := Run(EmptyDb(map[]), ReplayRun());
            && |t.orders| == 3
            && t.orders[0].status == Failed && t.orders[0].key == ClientKey(BUYER, "first")
            && IsCaptured(t.orders[1]) && t.orders[1].key == RetryKey(ClientKey(BUYER, "first"), 0)
            && IsCaptured(t.orders[2]) && t.orders[2].key == RetryKey(ClientKey(BUYER, "first"), 1)
  {
    hide MoneyOk, Step, Run, Funded, EmptyDb, ExistingOrder;
    var run := ReplayRun();
    var key := ClientKey(BUYER, "first");
    FundingSteps();
    assert run[..3] == IncidentRun()[..3];
    RunNext(EmptyDb(map[]), run, 3);
    RunNext(EmptyDb(map[]), run, 4);
    RunNext(EmptyDb(map[]), run, 5);
    assert run[..6] == run;
    var first := Run(EmptyDb(map[]), run[..4]);
    var second := Run(EmptyDb(map[]), run[..5]);
    RejectedFirst(first);
    KnownKey(first, key);
    UnknownKey(first, RetryKey(key, 0));
    ReplayStep(first, 0, Accepted("P1"));
    KnownKey(second, key);
    UnknownKey(second, RetryKey(key, 1));
    ReplayStep(second, 1, Accepted("P2"));
  }

  lemma KnownKey(s: Db, key: OrderKey)
    requires key in s.placed && s.placed[key] < |s.orders|
    ensures ExistingOrder(s, key) == Some(s.placed[key])
  {
  }

  // ---------------------------------------------------------------- a report of refunded

  /** The provider reports a captured order as refunded: it is closed for good, and nothing was credited. */
  lemma RefundedReportCreditsNothing()
    ensures var run := IncidentRun()[..4] + [Sync(0, Report(Refunded, None, None))];
            var t := Run(EmptyDb(map[]), run);
            && |t.orders| == 1 && t.orders[0].status == Refunded && IsCaptured(t.orders[0])
            && RefundedSoFar(t, 0) == 0 < t.orders[0].charge
            && BUYER in t.bank.users && t.bank.users[BUYER].balance == 2000
  {
    hide Run, EmptyDb;
    FundingSteps();
    FirstOrderStep();
    RunNext(EmptyDb(map[]), IncidentRun(), 3);
    RunSnoc(EmptyDb(map[]), IncidentRun()[..4], Sync(0, Report(Refunded, None, None)));
    RefundedStep(FirstCaptured());
  }

  lemma RefundedStep(s: Db)
    requires s == FirstCaptured()
    ensures var t := Step(s, Sync(0, Report(Refunded, None, None)));
            && |t.orders| == 1 && t.orders[0].status == Refunded && IsCaptured(t.orders[0])
            && t.orders[0].charge == 1000
            && RefundedSoFar(t, 0) == 0 && BUYER in t.bank.users && t.bank.users[BUYER].balance == 2000
  {
    RefundedReport(s, 0, Report(Refunded, None, None));
    hide SyncOrder;
    SumZero(s.bank.ledger, RefundEntry(0, BUYER));
  }

  // ---------------------------------------------------------------- a reseller who pays more

  /** A service that costs 1,000 per 1,000 and is sold at that, seen by a reseller or not. */
  function AtCost(resellerBp: Option<int>): Offer {
    PlainOffer().(cost := 1000, resellerBp := resellerBp)
  }

  /** The reseller, with 5% off the retail rate, is quoted more than anybody else. */
  lemma ResellerIsQuotedMore(coupons: map<Code, Coupon>, redemptions: set<Redemption>)
    ensures var retail := QuoteOrder(AtCost(None), 1000, None, BUYER, coupons, redemptions, 0);
            var reseller := QuoteOrder(AtCost(Some(500)), 1000, None, BUYER, coupons, redemptions, 0);
            && retail.Success? && retail.value.charge == 1000
            && reseller.Success? && reseller.value.charge == 1100
  {
    hide MarginFloor, ScaleToQty, ResolveSellRate, ApplyResellerRate;
    AtCostRates();
  }

  lemma AtCostRates()
    ensures ResolveSellRate(AtCost(None)) == ResolveSellRate(AtCost(Some(500))) == (1000, StarLayer)
    ensures ApplyResellerRate(1000, 1000, 500) == 1100
    ensures ScaleToQty(1000, 1000) == 1000 && ScaleToQty(1100, 1000) == 1100
  {
    assert 1000 as real * (1.0 + 0.0 / 100.0) == 1000.0;
    assert 1000 as real * (1.0 + 10.0 / 100.0) == 1100.0;
  }
}
