/**
 * The database of the storefront: `Db` is its value, `Store` the session the services write
 * through. Orders, payments and payouts are numbered by their position.
 */
module Tables {
  import opened Results
  import opened Keys
  import opened Wallet
  import opened Pricing

  /** The order statuses; both spellings of canceled are one status. */
  datatype Status =
    | Pending | AwaitingProvider | Processing | InProgress | Completed | Partial
    | Canceled | Failed | Refunded | Refilling | Review

  predicate Terminal(status: Status) {
    status in {Completed, Canceled, Failed, Refunded}
  }

  predicate Active(status: Status) {
    status in {Pending, AwaitingProvider, Processing, InProgress, Partial, Refilling}
  }

  predicate Refillable(status: Status) {
    status in {Completed, Partial}
  }

  predicate Cancelable(status: Status) {
    status in {Pending, AwaitingProvider, Processing, InProgress}
  }

  datatype OrderEvent = OrderEvent(from: Status, to: Status)

  datatype Order = Order(
    id: nat,
    user: UserId,
    status: Status,
    provider: Option<string>,
    quantity: int,
    charge: int,
    coupon: Option<Code>,
    key: OrderKey,
    refillable: bool,
    cancelable: bool,
    startCount: Option<int>,
    remains: Option<int>,
    refills: nat,
    events: seq<OrderEvent>
  )

  /** A provider order id that is set and not empty. */
  predicate HasProvider(o: Order) {
    o.provider.Some? && o.provider.value != ""
  }

  /** A deposit is pending, paid, expired, or held for review. */
  datatype PaymentStatus = Unpaid | Paid | Expired | Held

  datatype Payment = Payment(
    user: UserId,
    amount: int,
    currency: string,
    gateway: string,
    status: PaymentStatus,
    ref: Option<string>,
    key: InvoiceKey
  )

  /** The kind of a verified gateway notification. */
  datatype NoticeKind = PaidNotice | ExpiredNotice | AttentionNotice | OtherNotice

  datatype Notice = Notice(
    id: string,
    kind: NoticeKind,
    payment: Option<nat>,
    ref: Option<string>,
    amount: Option<int>,
    currency: Option<string>
  )

  datatype Payout = Payout(user: UserId, amount: int)

  datatype Db = Db(
    bank: Bank,
    orders: seq<Order>,
    placed: map<OrderKey, nat>,
    records: map<Key, int>,
    coupons: map<Code, Coupon>,
    redemptions: set<Redemption>,
    payments: seq<Payment>,
    seen: set<(string, string)>,
    payouts: seq<Payout>
  )

  /** The session: one mutable field per table. */
  class Store {
    var users: map<UserId, User>
    var ledger: seq<Entry>
    var orders: seq<Order>
    var placed: map<OrderKey, nat>
    var records: map<Key, int>
    var coupons: map<Code, Coupon>
    var redemptions: set<Redemption>
    var payments: seq<Payment>
    var seen: set<(string, string)>
    var payouts: seq<Payout>

    function Bank(): Bank
      reads this`users, this`ledger
    {
      Wallet.Bank(users, ledger)
    }

    function View(): Db
      reads this
    {
      Db(Bank(), orders, placed, records, coupons, redemptions, payments, seen, payouts)
    }

    constructor (coupons: map<Code, Coupon>)
      ensures View() == EmptyDb(coupons)
    {
      this.users := map[];
      this.ledger := [];
      this.orders := [];
      this.placed := map[];
      this.records := map[];
      this.coupons := coupons;
      this.redemptions := {};
      this.payments := [];
      this.seen := {};
      this.payouts := [];
    }

    /** Ends a transaction that raised: every table returns to what it was. */
    method Rollback(saved: Db)
      modifies this
      ensures View() == saved
    {
      users, ledger := saved.bank.users, saved.bank.ledger;
      orders, placed, records := saved.orders, saved.placed, saved.records;
      coupons, redemptions := saved.coupons, saved.redemptions;
      payments, seen, payouts := saved.payments, saved.seen, saved.payouts;
    }
  }

  function EmptyDb(coupons: map<Code, Coupon>): Db {
    Db(Wallet.Bank(map[], []), [], map[], map[], coupons, {}, [], {}, [])
  }

  /** A request that raised leaves the database as it found it. */
  function Commit(s: Db, r: Result<Db>): Db {
    if r.Success? then r.value else s
  }

  /** A call ended as its specification says: with the new database, or with the error and nothing changed. */
  ghost predicate Ended(before: Db, spec: Result<Db>, raised: Option<Error>, after: Db) {
    match spec
    case Success(db) => raised == None && after == db
    case Failure(error) => raised == Some(error) && after == before
  }
}
