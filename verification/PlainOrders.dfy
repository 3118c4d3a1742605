/** Orders of one plain service, for concrete runs of the engine. */
module PlainOrders {
  import opened Results
  import opened PriceMath
  import opened Keys
  import opened Wallet
  import opened Pricing
  import opened Tables
  import opened Orders
  import opened Engine
  import opened Books
  import opened EngineBooks
  import opened EngineKept

  const BUYER: UserId := 1
  const REFERRER: UserId := 2
  const STAFF: UserId := 9

  /** A service sold at 1,000 paise per 1,000, without markup rows, reseller or coupon. */
  function PlainOffer(): Offer {
    Offer(true, true, 0, 1, 1000000, true, true, Some(1000), None,
          Markup(None, None), Markup(None, None), Markup(None, None), 0.0, 0.0, None)
  }

  function PlainRequest(key: OrderKey, stamp: nat): OrderRequest {
    OrderRequest(BUYER, PlainOffer(), 1000, None, key, stamp, 0, true)
  }

  function PlainQuoteOf(): Quote {
    Quote(0, 1000, 0, 1000, StarLayer, false, None, 1000, 1000, 0)
  }

  lemma PlainRate()
    ensures ResolveSellRate(PlainOffer()) == (1000, StarLayer)
  {
    assert 0 as real * (1.0 + 0.0 / 100.0) == 0.0;
  }

  lemma PlainScale()
    ensures ScaleToQty(1000, 1000) == 1000 && ScaleToQty(0, 1000) == 0
  {
  }

  lemma PlainQuote(s: Db, key: OrderKey, stamp: nat)
    requires BUYER in s.bank.users && !s.bank.users[BUYER].banned && s.bank.users[BUYER].termsAccepted
    ensures CheckRequest(s, PlainRequest(key, stamp)) == Success(PlainQuoteOf())
  {
    hide ResolveSellRate, MarginFloor, ScaleToQty;
    PlainRate();
    PlainScale();
  }

  lemma RunNext(s: Db, events: seq<Event>, n: nat)
    requires n < |events|
    ensures Run(s, events[..n + 1]) == Step(Run(s, events[..n]), events[n])
    ensures Run(s, events[..0]) == s
  {
    hide Step;
    assert events[..n + 1][..n] == events[..n];
  }

  lemma RunSnoc(s: Db, events: seq<Event>, e: Event)
    ensures Run(s, events + [e]) == Step(Run(s, events), e)
  {
    hide Step;
    assert (events + [e])[..|events|] == events;
  }

  // ---------------------------------------------------------------- placing

  /** The buyer may order, and can pay for one more plain order. */
  predicate CanOrder(s: Db) {
    && BUYER in s.bank.users
    && !s.bank.users[BUYER].banned && s.bank.users[BUYER].termsAccepted
    && Available(s.bank.users[BUYER]) >= 1000
  }

  predicate SameProfile(user: User, user': User) {
    user'.banned == user.banned && user'.termsAccepted == user.termsAccepted && user'.referredBy == user.referredBy
  }

  /** The bank after a wallet call of the buyer that took at most an amount off what is available. */
  ghost predicate Spends(b: Bank, after: Bank, amount: int) {
    && BUYER in b.users && BUYER in after.users
    && SameProfile(b.users[BUYER], after.users[BUYER])
    && Available(after.users[BUYER]) >= Available(b.users[BUYER]) - amount
  }

  lemma AppendSpends(
    b: Bank, amount: int, kind: Kind, ref: Ref, key: Key, balance: int, reserved: int, spent: int
  )
    requires BUYER in b.users && balance - reserved >= Available(b.users[BUYER]) - spent
    requires Append(b, BUYER, amount, kind, ref, key, balance, reserved).Success?
    ensures Spends(b, Append(b, BUYER, amount, kind, ref, key, balance, reserved).value, spent)
  {
  }

  lemma NothingSpent(b: Bank, spent: nat)
    requires BUYER in b.users
    ensures Spends(b, b, spent)
  {
  }

  lemma ReserveSpends(b: Bank, amount: nat, ref: Ref, key: Key)
    requires BUYER in b.users && Reserve(b, BUYER, amount, ref, key).Success?
    ensures Spends(b, Reserve(b, BUYER, amount, ref, key).value, amount)
  {
    hide Append, Spends;
    var row := b.users[BUYER];
    NothingSpent(b, amount);
    if !HasKey(b.ledger, key) {
      AppendSpends(b, 0, ReserveEntry, ref, key, row.balance, row.reserved + amount, amount);
    }
  }

  lemma CaptureSpends(b: Bank, amount: int, ref: Ref, key: Key)
    requires BUYER in b.users && Capture(b, BUYER, amount, ref, key).Success?
    ensures Spends(b, Capture(b, BUYER, amount, ref, key).value, 0)
  {
    hide Append, Spends;
    var row := b.users[BUYER];
    NothingSpent(b, 0);
    if !HasKey(b.ledger, key) {
      AppendSpends(b, -amount, CaptureEntry, ref, key, row.balance - amount, row.reserved - amount, 0);
    }
  }

  lemma ReleaseSpends(b: Bank, amount: int, ref: Ref, key: Key)
    requires BUYER in b.users && b.users[BUYER].reserved >= 0 && Release(b, BUYER, amount, ref, key).Success?
    ensures Spends(b, Release(b, BUYER, amount, ref, key).value, 0)
  {
    hide Append, Spends;
    var row := b.users[BUYER];
    NothingSpent(b, 0);
    if !HasKey(b.ledger, key) {
      var freed := if row.reserved < amount then row.reserved else amount;
      var left := if freed <= 0 then 0 else row.reserved - freed;
      AppendSpends(b, 0, ReleaseEntry, ref, key, row.balance, left, 0);
    }
  }

  /** The row a plain order leaves behind when the provider accepts or rejects it. */
  function PlainRow(i: nat, key: OrderKey, answer: Answer): Order
    requires answer.Accepted? || answer.Rejected?
  {
    var stored := Move(NewPlain(i, key), AwaitingProvider);
    if answer.Accepted? then Move(stored.(provider := Some(answer.id)), Processing) else Move(stored, Failed)
  }

  function NewPlain(i: nat, key: OrderKey): Order {
    Order(i, BUYER, Pending, None, 1000, 1000, None, key, true, true, None, Some(1000), 0, [])
  }

  /** Storing a plain order goes through, under a key that is not known yet. */
  lemma PlainStore(s: Db, request: OrderKey, stamp: nat, key: OrderKey)
    requires MoneyOk(AccountsOf(s)) && CanOrder(s) && ExistingOrder(s, key) == None
    ensures var r := PlainRequest(request, stamp);
            var n := |s.orders|;
            && OpenOrder(s, r, PlainQuoteOf(), key).Success?
            && var after := OpenOrder(s, r, PlainQuoteOf(), key).value;
               && after.orders == s.orders + [Move(NewPlain(n, key), AwaitingProvider)]
               && after.placed == s.placed[key := n]
               && Spends(s.bank, after.bank, 1000)
  {
    hide MoneyOk, LedgerOk, EntriesOk, ExistingOrder;
    var n := |s.orders|;
    LedgerOf(AccountsOf(s));
    KeyIsFresh(AccountsOf(s), ReserveKey(n));
    var e := ReservePosts(s.bank, BUYER, 1000, ForOrder(n), ReserveKey(n));
    ReserveSpends(s.bank, 1000, ForOrder(n), ReserveKey(n));
    hide Reserve;
    assert NewOrder(s, PlainRequest(request, stamp), PlainQuoteOf(), key) == NewPlain(n, key);
  }

  lemma PlainSubmit(s: Db, i: nat, answer: Answer)
    requires MoneyOk(AccountsOf(s)) && i < |s.orders| && s.orders[i].user == BUYER && BUYER in s.bank.users
    requires (answer.Accepted? || answer.Rejected?) && Submit(s, i, answer).Success?
    ensures var after := Submit(s, i, answer).value;
            && after.placed == s.placed && Spends(s.bank, after.bank, 0)
            && after.orders == s.orders[i := if answer.Accepted?
                 then Move(s.orders[i].(provider := Some(answer.id)), Processing)
                                             else Move(s.orders[i], Failed)]
  {
    hide MoneyOk, Capture, Release, Spends;
    UsersCover(s, BUYER);
    var o := s.orders[i];
    if answer.Accepted? {
      CaptureSpends(s.bank, o.charge, ForOrder(i), CaptureKey(i));
    } else {
      ReleaseSpends(s.bank, o.charge, ForOrder(i), ReleaseKey(i, ProviderTag));
    }
  }

  /** Placing a plain order: it is stored and submitted, whatever became of earlier requests. */
  lemma PlainPlace(s: Db, key: OrderKey, stamp: nat, answer: Answer)
    requires MoneyOk(AccountsOf(s)) && CanOrder(s) && (answer.Accepted? || answer.Rejected?)
    requires !ReplaysOrder(s, key) && ExistingOrder(s, KeyToStore(s, PlainRequest(key, stamp))) == None
    ensures var t := Step(s, Place(PlainRequest(key, stamp), answer));
            var n := |s.orders|;
            var stored := KeyToStore(s, PlainRequest(key, stamp));
            && t.orders == s.orders + [PlainRow(n, stored, answer)]
            && t.placed == s.placed[stored := n]
            && Spends(s.bank, t.bank, 1000)
  {
    hide MoneyOk, Keeps, CheckRequest, OpenOrder, Submit, ExistingOrder, KeyToStore, Spends;
    var r := PlainRequest(key, stamp);
    var n, stored := |s.orders|, KeyToStore(s, r);
    PlainQuote(s, key, stamp);
    PlainStore(s, key, stamp, stored);
    PlaceKeeps(s, r, answer);
    var mid := OpenOrder(s, r, PlainQuoteOf(), stored).value;
    OpenOrderKeeps(s, r, PlainQuoteOf(), stored);
    assert PlaceOrder(s, r, answer) == Submit(mid, n, answer);
    PlainSubmit(mid, n, answer);
    SpendsTwice(s.bank, mid.bank, Submit(mid, n, answer).value.bank);
  }

  lemma SpendsTwice(b: Bank, mid: Bank, after: Bank)
    requires Spends(b, mid, 1000) && Spends(mid, after, 0)
    ensures Spends(b, after, 1000)
  {
  }

  /** A key that no record and no order carries is not known. */
  lemma {:induction false} UnknownKey(s: Db, key: OrderKey)
    requires key !in s.placed && forall i | 0 <= i < |s.orders| :: s.orders[i].key != key
    ensures ExistingOrder(s, key) == None
  {
    NoOrderWith(s.orders, key);
  }

  lemma {:induction false} NoOrderWith(orders: seq<Order>, key: OrderKey)
    requires forall i | 0 <= i < |orders| :: orders[i].key != key
    ensures FindKey(orders, key) == None
  {
    if orders != [] { NoOrderWith(orders[..|orders| - 1], key); }
  }
}
