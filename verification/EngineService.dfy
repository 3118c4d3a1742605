/**
 * Every engine call served on one session. A run of served calls ends in exactly the state that
 * `Engine.Run` gives, so what is proved about runs holds for the services.
 */
module EngineService {
  import opened Results
  import opened Keys
  import opened Wallet
  import opened Tables
  import opened Orders
  import opened Payments
  import opened Referrals
  import opened Engine
  import WalletService
  import OrderService
  import PaymentService
  import ReferralService

  method Register(session: Store, user: UserId)
    modifies session`users
    ensures session.View() == JoinUser(old(session.View()), user)
  {
    if user !in session.users {
      session.users := session.users[user := User(0, 0, None, false, false)];
    }
  }

  method UpdateProfile(session: Store, user: UserId, banned: bool, termsAccepted: bool) returns (raised: Option<Error>)
    modifies session`users
    ensures Ended(old(session.View()), SetProfile(old(session.View()), user, banned, termsAccepted), raised,
            session.View())
  {
    if user !in session.users {
      return Some(UnknownUser);
    }
    session.users := session.users[user := session.users[user].(banned := banned, termsAccepted := termsAccepted)];
    return None;
  }

  method Attribute(session: Store, visitor: UserId, referrer: UserId) returns (raised: Option<Error>)
    modifies session`users
    ensures Ended(old(session.View()), RecordStart(old(session.View()), visitor, referrer), raised, session.View())
  {
    if visitor !in session.users {
      return Some(UnknownUser);
    }
    if referrer in session.users && referrer != visitor && session.users[visitor].referredBy.None? {
      session.users := session.users[visitor := session.users[visitor].(referredBy := Some(referrer))];
    }
    return None;
  }

  method AdjustWallet(session: Store, user: UserId, amount: int, actor: UserId, nonce: nat)
      returns (raised: Option<Error>)
    modifies session
    ensures Ended(old(session.View()), AdjustBy(old(session.View()), user, amount, actor, nonce), raised,
            session.View())
  {
    if user !in session.users {
      return Some(UnknownUser);
    }
    if amount > 0 {
      raised := WalletService.Credit(session, user, amount, ForAdmin(actor), AdjustmentKey(nonce));
    } else {
      raised := WalletService.Debit(session, user, -amount, ForAdmin(actor), AdjustmentKey(nonce));
    }
  }

  method GiveWelcomeBonus(session: Store, user: UserId, bonus: int) returns (raised: Option<Error>)
    modifies session
    ensures Ended(old(session.View()), WelcomeBonus(old(session.View()), user, bonus), raised, session.View())
  {
    if user !in session.users {
      return Some(UnknownUser);
    }
    raised := WalletService.Credit(session, user, bonus, ForBonus, WelcomeKey(user));
  }

  /** The calls that move an order. */
  predicate ForOrders(e: Event) {
    e.Place? || e.Sync? || e.Refill? || e.Cancel? || e.Resolve? || e.FlagStuckOrders?
  }

  method ServeOrder(session: Store, e: Event) returns (raised: Option<Error>)
    requires ForOrders(e)
    modifies session
    ensures Ended(old(session.View()), Handle(old(session.View()), e), raised, session.View())
  {
    hide PlaceOrder, SyncOrder, RefillOrder, CancelOrder, ResolveReview, FlagStuck;
    raised := None;
    if !e.Place? && !e.FlagStuckOrders? && e.order >= |session.orders| { return Some(UnknownOrder); }
    match e
    case Place(request, answer) => raised := OrderService.Place(session, request, answer);
    case Sync(i, report) => raised := OrderService.SyncStatus(session, i, report);
    case Refill(i, actor, staff, open, accepted) =>
      raised := OrderService.RequestRefill(session, i, actor, staff, open, accepted);
    case Cancel(i, actor, staff, confirmed) =>
      raised := OrderService.RequestCancel(session, i, actor, staff, confirmed);
    case Resolve(i, release, attach) => raised := OrderService.ResolveReviewOrder(session, i, release, attach);
    case FlagStuckOrders(stale, limit) => OrderService.FlagStuckOrders(session, stale, limit);
  }

  method Serve(session: Store, e: Event) returns (raised: Option<Error>)
    modifies session
    ensures Ended(old(session.View()), Handle(old(session.View()), e), raised, session.View())
    ensures session.View() == Step(old(session.View()), e)
  {
    if ForOrders(e) {
      hide Handle;
      raised := ServeOrder(session, e);
      return;
    }
    hide JoinUser, SetProfile, RecordStart, AdjustBy, WelcomeBonus, CreateDeposit, HandleWebhook, CheckPayment,
      ManualConfirm, Reconcile, RequestPayout;
    raised := None;
    match e
    case Join(user) => Register(session, user);
    case Profile(user, banned, termsAccepted) => raised := UpdateProfile(session, user, banned, termsAccepted);
    case StartLink(visitor, referrer) => raised := Attribute(session, visitor, referrer);
    case Adjust(user, amount, actor, nonce) => raised := AdjustWallet(session, user, amount, actor, nonce);
    case Welcome(user, bonus) => raised := GiveWelcomeBonus(session, user, bonus);
    case OpenDeposit(request, checkout) => raised := PaymentService.OpenInvoice(session, request, checkout);
    case Webhook(gateway, notice) => raised := PaymentService.ReceiveNotice(session, gateway, notice);
    case Check(p, user, said) =>
      if p < |session.payments| { raised := PaymentService.CheckInvoice(session, p, user, said); }
    case Confirm(p) => if p < |session.payments| { raised := PaymentService.ConfirmByHand(session, p); }
    case ReconcilePending(gateway, aged, limit, answers) =>
      raised := PaymentService.ReconcilePending(session, gateway, aged, limit, answers);
    case RequestPayoutOf(user, amount) => raised := ReferralService.PayOut(session, user, amount);
  }

  /** Serves a run of calls; each is its own transaction. */
  method ServeAll(session: Store, events: seq<Event>)
    modifies session
    ensures session.View() == Run(old(session.View()), events)
  {
    hide Step;
    ghost var before := session.View();
    var i := 0;
    while i < |events|
      invariant 0 <= i <= |events|
      invariant session.View() == Run(before, events[..i])
    {
      assert events[..i + 1][..i] == events[..i];
      var _ := Serve(session, events[i]);
      i := i + 1;
    }
    assert events[..|events|] == events;
  }
}
