/**
 * The order engine, as functions of the database: reserve, submit, capture or release, and the
 * follow-up actions on a stored order. Provider answers are arguments.
 */
module Orders {
  import opened Results
  import opened Sums
  import opened Rounding
  import opened Keys
  import opened Wallet
  import opened Pricing
  import opened Tables
  import opened Referrals

  // ---------------------------------------------------------------- rows

  /** Records a status event and moves the order. */
  function Move(o: Order, to: Status): Order {
    o.(status := to, events := o.events + [OrderEvent(o.status, to)])
  }

  function SetOrder(s: Db, i: nat, o: Order): Db
    requires i < |s.orders|
  {
    s.(orders := s.orders[i := o])
  }

  // ---------------------------------------------------------------- coupons

  /** The redemption rows of one order. */
  function RedemptionsOf(redemptions: set<Redemption>, code: Code, order: nat): set<Redemption> {
    set r | r in redemptions && r.code == code && r.order == order
  }

  function UseCoupon(s: Db, code: Option<Code>, user: UserId, order: nat): Db {
    if code.None? then s
    else
      var c := code.value;
      var counted := if c in s.coupons then s.coupons[c := s.coupons[c].(usedCount := s.coupons[c].usedCount + 1)]
        else s.coupons;
      s.(coupons := counted, redemptions := s.redemptions + {Redemption(c, user, order)})
  }

  /** Gives a coupon use back: only an accepted order consumes it. */
  function ReleaseCouponUse(s: Db, i: nat): Db
    requires i < |s.orders|
  {
    if s.orders[i].coupon.None? then s
    else
      var c := s.orders[i].coupon.value;
      var mine := RedemptionsOf(s.redemptions, c, i);
      if mine == {} then s
      else
        var counted :=
          if c in s.coupons && s.coupons[c].usedCount > 0
          then s.coupons[c := s.coupons[c].(usedCount := s.coupons[c].usedCount - 1)]
          else s.coupons;
        s.(coupons := counted, redemptions := s.redemptions - mine)
  }

  // ---------------------------------------------------------------- money of one order

  function RefundEntry(order: nat, user: UserId): Entry -> int {
    (e: Entry) => if e.kind == CreditEntry && e.ref == ForOrder(order) && e.user == user then e.amount else 0
  }

  /** What the owner's credit entries for an order add up to. */
  function RefundedSoFar(s: Db, i: nat): int
    requires i < |s.orders|
  {
    Sum(s.bank.ledger, RefundEntry(i, s.orders[i].user))
  }

  function Owed(s: Db, i: nat): int
    requires i < |s.orders|
  {
    Max(0, s.orders[i].charge - RefundedSoFar(s, i))
  }

  function FailAndRelease(s: Db, i: nat, tag: ReleaseTag): Result<Db>
    requires i < |s.orders|
  {
    var o := s.orders[i];
    if o.user !in s.bank.users then Failure(UnknownUser)
    else
      var bank :- Release(s.bank, o.user, o.charge, ForOrder(i), ReleaseKey(i, tag));
      Success(SetOrder(ReleaseCouponUse(s.(bank := bank), i), i, Move(o, Failed)))
  }

  /** The provider has the order: attach its id and turn the hold into a debit. */
  function CaptureOrder(s: Db, i: nat, id: string): Result<Db>
    requires i < |s.orders|
  {
    var o := s.orders[i];
    if o.user !in s.bank.users then Failure(UnknownUser)
    else
      var bank :- Capture(s.bank, o.user, o.charge, ForOrder(i), CaptureKey(i));
      Success(SetOrder(s.(bank := bank), i, Move(o.(provider := Some(id)), Processing)))
  }

  // ---------------------------------------------------------------- placing

  datatype OrderRequest = OrderRequest(
    user: UserId,
    offer: Offer,
    quantity: int,
    code: Option<Code>,
    key: OrderKey,
    stamp: nat,
    now: int,
    open: bool
  )

  /** The outcome of submitting to the provider; a crash leaves the reserved order behind. */
  datatype Answer = Accepted(id: string) | Rejected | Ambiguous | Broken | Crashed

  function FindKey(orders: seq<Order>, key: OrderKey): Option<nat> {
    if orders == [] then None
    else if FindKey(orders[..|orders| - 1], key).Some? then FindKey(orders[..|orders| - 1], key)
    else if orders[|orders| - 1].key == key then Some(|orders| - 1)
    else None
  }

  /** The order a key is remembered for: by its record, else by the key stored on the order. */
  function ExistingOrder(s: Db, key: OrderKey): Option<nat> {
    if key in s.placed && s.placed[key] < |s.orders| then Some(s.placed[key]) else FindKey(s.orders, key)
  }

  function NewOrder(s: Db, r: OrderRequest, q: Quote, key: OrderKey): Order {
    Order(|s.orders|, r.user, Pending, None, r.quantity, q.charge, q.coupon, key,
          r.offer.refillable, r.offer.cancelable, None, Some(r.quantity), 0, [])
  }

  /** Stores the order with its funds reserved and its coupon used. */
  function OpenOrder(s: Db, r: OrderRequest, q: Quote, key: OrderKey): Result<Db>
    requires r.user in s.bank.users
  {
    var i := |s.orders|;
    if Available(s.bank.users[r.user]) < q.charge then Failure(InsufficientFunds)
    else if ExistingOrder(s, key).Some? then Failure(DuplicateKey)
    else
      var bank :- Reserve(s.bank, r.user, q.charge, ForOrder(i), ReserveKey(i));
      var order := Move(NewOrder(s, r, q, key), AwaitingProvider);
      Success(UseCoupon(s.(bank := bank, orders := s.orders + [order], placed := s.placed[key := i]), q.coupon, r.user,
        i))
  }

  function Submit(s: Db, i: nat, answer: Answer): Result<Db>
    requires i < |s.orders|
  {
    match answer
    case Accepted(id) => CaptureOrder(s, i, id)
    case Rejected => FailAndRelease(s, i, ProviderTag)
    case Broken => FailAndRelease(s, i, InternalTag)
    case Ambiguous => Success(SetOrder(s, i, Move(s.orders[i], Review)))
    case Crashed => Success(s)
  }

  function QuoteFor(s: Db, r: OrderRequest): Result<Quote> {
    QuoteOrder(r.offer, r.quantity, r.code, r.user, s.coupons, s.redemptions, r.now)
  }

  /** Everything checked before the idempotency lookup. */
  function CheckRequest(s: Db, r: OrderRequest): Result<Quote> {
    if r.user !in s.bank.users then Failure(UnknownUser)
    else if s.bank.users[r.user].banned then Failure(Suspended)
    else if !s.bank.users[r.user].termsAccepted then Failure(TermsNotAccepted)
    else if !r.open then Failure(Closed)
    else if !r.offer.active then Failure(ServiceUnavailable)
    else if !r.offer.providerActive then Failure(ProviderOffline)
    else
      var q :- QuoteFor(s, r);
      if q.charge <= 0 then Failure(ChargeInvalid) else Success(q)
  }

  /** A checked request has a known user and a positive charge. */
  lemma CheckedUser(s: Db, r: OrderRequest)
    requires CheckRequest(s, r).Success?
    ensures r.user in s.bank.users && CheckRequest(s, r).value.charge > 0
  {
  }

  /** A replayed key returns its order unless that order failed; then a retry key is used. */
  function KeyToStore(s: Db, r: OrderRequest): OrderKey {
    if ExistingOrder(s, r.key).Some? then RetryKey(r.key, r.stamp) else r.key
  }

  predicate ReplaysOrder(s: Db, key: OrderKey) {
    var known := ExistingOrder(s, key);
    known.Some? && known.value < |s.orders| && s.orders[known.value].status != Failed
  }

  function PlaceOrder(s: Db, r: OrderRequest, answer: Answer): Result<Db> {
    var q :- CheckRequest(s, r);
    if ReplaysOrder(s, r.key) then Success(s)
    else
      var stored :- OpenOrder(s, r, q, KeyToStore(s, r));
      Submit(stored, |s.orders|, answer)
  }

  // ---------------------------------------------------------------- status sync

  /** The statuses a panel adapter can report. */
  predicate PanelStatus(status: Status) {
    status in {Pending, InProgress, Processing, Completed, Partial, Canceled, Refunded, Failed}
  }

  type Reported = status: Status | PanelStatus(status) witness Pending

  datatype PanelReport =
    | Unreachable
    | Report(status: Reported, startCount: Option<int>, remains: Option<int>)

  function Observe(o: Order, startCount: Option<int>, remains: Option<int>): Order {
    o.(startCount := if startCount.Some? then startCount else o.startCount,
       remains := if remains.Some? then remains else o.remains)
  }

  /** The share of the charge that was not delivered, to the nearest paisa. */
  function PartialShare(o: Order, remains: int): int
    requires remains > 0 && o.quantity > 0
  {
    if remains >= o.quantity then o.charge
    else RoundHalfEven(o.charge as real * (remains as real / o.quantity as real))
  }

  function MaybePartialRefund(s: Db, i: nat, remains: int): Result<Db>
    requires i < |s.orders|
  {
    var o := s.orders[i];
    if remains <= 0 || o.quantity <= 0 || PartialKey(i) in s.records then Success(s)
    else
      var refund := Min(PartialShare(o, remains), Owed(s, i));
      if refund <= 0 || o.user !in s.bank.users then Success(s)
      else
        var bank :- Credit(s.bank, o.user, refund, ForOrder(i), PartialKey(i));
        Success(s.(bank := bank, records := s.records[PartialKey(i) := refund]))
  }

  function TagOf(status: Status): RefundTag {
    if status == Canceled then CanceledTag else FailedTag
  }

  /** After the provider closed a captured order: credit the rest of the charge. */
  function RefundIfNeeded(s: Db, i: nat, tag: RefundTag): Result<Db>
    requires i < |s.orders|
  {
    var o := s.orders[i];
    var key := RefundKey(i, tag);
    var owed := Owed(s, i);
    if key in s.records || o.user !in s.bank.users || o.charge <= 0 || owed <= 0 then Success(s)
    else
      var bank :- Credit(s.bank, o.user, owed, ForOrder(i), key);
      Success(SetOrder(s.(bank := bank, records := s.records[key := owed]), i, Move(o, Refunded)))
  }

  function SyncOrder(s: Db, i: nat, report: PanelReport): Result<Db>
    requires i < |s.orders|
  {
    var o := s.orders[i];
    if Terminal(o.status) || !HasProvider(o) || report.Unreachable? then Success(s)
    else
      var seen := Observe(o, report.startCount, report.remains);
      var to: Status := report.status;
      if to == o.status then Success(SetOrder(s, i, seen))
      else
        var moved := SetOrder(s, i, Move(seen, to));
        if to == Partial && report.remains.Some? then MaybePartialRefund(moved, i, report.remains.value)
        else if to in {Canceled, Failed} then RefundIfNeeded(moved, i, TagOf(to))
        else if to == Completed then CreditOrderCommission(moved, i)
        else Success(moved)
  }

  // ---------------------------------------------------------------- follow-up actions

  function RefillOrder(s: Db, i: nat, actor: UserId, staff: bool, open: bool, accepted: bool): Result<Db>
    requires i < |s.orders|
  {
    var o := s.orders[i];
    if !open then Failure(Closed)
    else if o.user != actor && !staff then Failure(NotYourOrder)
    else if !o.refillable then Failure(NotSupported)
    else if !Refillable(o.status) then Failure(WrongStatus)
    else if !HasProvider(o) then Failure(NoProviderOrder)
    else if !accepted then Failure(ProviderRefused)
    else Success(SetOrder(s, i, Move(o.(refills := o.refills + 1), Refilling)))
  }

  /** Gives the money of a cancelled order back: the hold if it looks unsubmitted, else a credit. */
  function ReturnFunds(s: Db, i: nat): Result<Db>
    requires i < |s.orders|
  {
    var o := s.orders[i];
    if o.user !in s.bank.users || o.charge <= 0 then Success(s)
    else if o.status in {Pending, AwaitingProvider} then
      var bank :- Release(s.bank, o.user, o.charge, ForOrder(i), ReleaseKey(i, CancelTag));
      Success(s.(bank := bank))
    else if Owed(s, i) <= 0 then Success(s)
    else
      var bank :- Credit(s.bank, o.user, Owed(s, i), ForOrder(i), RefundKey(i, UserCancelTag));
      Success(s.(bank := bank))
  }

  function CancelOrder(s: Db, i: nat, actor: UserId, staff: bool, confirmed: bool): Result<Db>
    requires i < |s.orders|
  {
    var o := s.orders[i];
    if o.user != actor && !staff then Failure(NotYourOrder)
    else if !o.cancelable then Failure(NotSupported)
    else if !Cancelable(o.status) then Failure(WrongStatus)
    else if HasProvider(o) && !confirmed then Failure(ProviderRefused)
    else
      var returned :- ReturnFunds(s, i);
      Success(SetOrder(returned, i, Move(o, Canceled)))
  }

  /** An operator closes a review: give the hold back, or attach the provider's order id. */
  function ResolveReview(s: Db, i: nat, release: bool, attach: Option<string>): Result<Db>
    requires i < |s.orders|
  {
    var o := s.orders[i];
    var attaches := attach.Some? && attach.value != "";
    if o.status != Review then Failure(WrongStatus)
    else if release == attaches then Failure(ChooseExactlyOne)
    else if o.user !in s.bank.users then Failure(UnknownUser)
    else if release then FailAndRelease(s, i, ReviewTag)
    else CaptureOrder(s, i, if |attach.value| > 64 then attach.value[..64] else attach.value)
  }

  /** Reserved, but no provider outcome was ever recorded. */
  predicate Stuck(o: Order) {
    o.status in {Pending, AwaitingProvider} && o.provider.None?
  }

  /** The first `limit` stuck orders, among the stale ones, are moved to review. */
  function FlagStuck(orders: seq<Order>, stale: set<nat>, limit: nat): seq<Order> {
    if orders == [] then []
    else
      var n := |orders| - 1;
      var o := orders[n];
      FlagStuck(orders[..n], stale, limit)
      + [if Stuck(o) && n in stale && Flagged(orders[..n], stale) < limit then Move(o, Review) else o]
  }

  /** How many of these orders the stuck-order query selects. */
  function Flagged(orders: seq<Order>, stale: set<nat>): nat {
    if orders == [] then 0
    else
      var n := |orders| - 1;
      Flagged(orders[..n], stale) + if Stuck(orders[n]) && n in stale then 1 else 0
  }
}
