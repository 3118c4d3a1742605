/** Every engine call as one atomic step of the database, and runs of such steps. */
module Engine {
  import opened Results
  import opened Keys
  import opened Wallet
  import opened Tables
  import opened Referrals
  import opened Orders
  import opened Payments

  datatype Event =
    | Join(user: UserId)
    | Profile(user: UserId, banned: bool, termsAccepted: bool)
    | StartLink(visitor: UserId, referrer: UserId)
    | Adjust(user: UserId, amount: int, actor: UserId, nonce: nat)
    | Welcome(user: UserId, bonus: int)
    | Place(request: OrderRequest, answer: Answer)
    | Sync(order: nat, report: PanelReport)
    | Refill(order: nat, actor: UserId, staff: bool, open: bool, accepted: bool)
    | Cancel(order: nat, actor: UserId, staff: bool, confirmed: bool)
    | Resolve(order: nat, release: bool, attach: Option<string>)
    | FlagStuckOrders(stale: set<nat>, limit: nat)
    | OpenDeposit(deposit: DepositRequest, checkout: Option<string>)
    | Webhook(gateway: string, notice: Notice)
    | Check(payment: nat, user: UserId, said: GatewayAnswer)
    | Confirm(payment: nat)
    | ReconcilePending(gateway: string, aged: set<nat>, limit: nat, answers: map<nat, GatewayAnswer>)
    | RequestPayoutOf(user: UserId, amount: int)

  /** A first visit stores the user with an empty wallet. */
  function JoinUser(s: Db, user: UserId): Db {
    if user in s.bank.users then s
    else s.(bank := s.bank.(users := s.bank.users[user := User(0, 0, None, false, false)]))
  }

  function SetProfile(s: Db, user: UserId, banned: bool, termsAccepted: bool): Result<Db> {
    if user !in s.bank.users then Failure(UnknownUser)
    else
      var row := s.bank.users[user].(banned := banned, termsAccepted := termsAccepted);
      Success(s.(bank := s.bank.(users := s.bank.users[user := row])))
  }

  /** A staff member credits or debits a wallet under a fresh adjustment key. */
  function AdjustBy(s: Db, user: UserId, amount: int, actor: UserId, nonce: nat): Result<Db> {
    if user !in s.bank.users then Failure(UnknownUser)
    else
      var bank :- if amount > 0 then Credit(s.bank, user, amount, ForAdmin(actor), AdjustmentKey(nonce))
                  else Debit(s.bank, user, -amount, ForAdmin(actor), AdjustmentKey(nonce));
      Success(s.(bank := bank))
  }

  function WelcomeBonus(s: Db, user: UserId, bonus: int): Result<Db> {
    if user !in s.bank.users then Failure(UnknownUser)
    else
      var bank :- Credit(s.bank, user, bonus, ForBonus, WelcomeKey(user));
      Success(s.(bank := bank))
  }

  /** The outcome of a call: a new database, or the exception it raised. */
  function Handle(s: Db, e: Event): Result<Db> {
    match e
    case Join(user) => Success(JoinUser(s, user))
    case Profile(user, banned, termsAccepted) => SetProfile(s, user, banned, termsAccepted)
    case StartLink(visitor, referrer) => RecordStart(s, visitor, referrer)
    case Adjust(user, amount, actor, nonce) => AdjustBy(s, user, amount, actor, nonce)
    case Welcome(user, bonus) => WelcomeBonus(s, user, bonus)
    case Place(request, answer) => PlaceOrder(s, request, answer)
    case Sync(i, report) => if i >= |s.orders| then Failure(UnknownOrder) else SyncOrder(s, i, report)
    case Refill(i, actor, staff, open, accepted) =>
      if i >= |s.orders| then Failure(UnknownOrder) else RefillOrder(s, i, actor, staff, open, accepted)
    case Cancel(i, actor, staff, confirmed) =>
      if i >= |s.orders| then Failure(UnknownOrder) else CancelOrder(s, i, actor, staff, confirmed)
    case Resolve(i, release, attach) =>
      if i >= |s.orders| then Failure(UnknownOrder) else ResolveReview(s, i, release, attach)
    case FlagStuckOrders(stale, limit) => Success(s.(orders := FlagStuck(s.orders, stale, limit)))
    case OpenDeposit(request, checkout) => CreateDeposit(s, request, checkout)
    case Webhook(gateway, notice) => HandleWebhook(s, gateway, notice)
    case Check(p, user, said) => if p >= |s.payments| then Success(s) else CheckPayment(s, p, user, said)
    case Confirm(p) => if p >= |s.payments| then Success(s) else ManualConfirm(s, p)
    case ReconcilePending(gateway, aged, limit, answers) => Reconcile(s, gateway, aged, limit, answers)
    case RequestPayoutOf(user, amount) => RequestPayout(s, user, amount)
  }

  function Step(s: Db, e: Event): Db {
    Commit(s, Handle(s, e))
  }

  function Run(s: Db, events: seq<Event>): Db {
    if events == [] then s else Step(Run(s, events[..|events| - 1]), events[|events| - 1])
  }
}
