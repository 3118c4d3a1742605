/** What a request for an order answers, the row it stores, and the money it moves. */
module PlaceRules {
  import opened Results
  import opened Keys
  import opened Wallet
  import opened Pricing
  import opened Tables
  import opened Orders
  import opened Engine
  import opened Books
  import opened EngineBooks
  import opened EngineKept
  import opened WalletRules
  import opened OrderRules

  // ---------------------------------------------------------------- known keys

  /** The order a key is remembered for, or the first one that carries it. */
  predicate LeadsTo(s: Db, key: OrderKey, i: nat) {
    if key in s.placed && s.placed[key] < |s.orders| then i == s.placed[key]
    else i < |s.orders| && s.orders[i].key == key && forall j | 0 <= j < i :: s.orders[j].key != key
  }

  lemma {:induction false} FindsFirstOrder(orders: seq<Order>, key: OrderKey)
    ensures match FindKey(orders, key)
            case Some(i) => i < |orders| && orders[i].key == key && forall j | 0 <= j < i :: orders[j].key != key
            case None => forall j | 0 <= j < |orders| :: orders[j].key != key
  {
    if orders != [] { FindsFirstOrder(orders[..|orders| - 1], key); }
  }

  lemma KnownIff(s: Db, key: OrderKey, i: nat)
    ensures LeadsTo(s, key, i) <==> ExistingOrder(s, key) == Some(i)
    ensures ExistingOrder(s, key).Some? ==> LeadsTo(s, key, ExistingOrder(s, key).value)
  {
    FindsFirstOrder(s.orders, key);
  }

  ghost predicate IsKnown(s: Db, key: OrderKey) {
    exists i: nat :: LeadsTo(s, key, i)
  }

  /** The key leads to an order that has not failed. */
  ghost predicate IsReplay(s: Db, key: OrderKey) {
    exists i: nat :: LeadsTo(s, key, i) && i < |s.orders| && s.orders[i].status != Failed
  }

  lemma KnownKeys(s: Db, key: OrderKey)
    ensures IsKnown(s, key) <==> ExistingOrder(s, key).Some?
    ensures IsReplay(s, key) <==> ReplaysOrder(s, key)
  {
    hide ExistingOrder, LeadsTo;
    forall i: nat ensures LeadsTo(s, key, i) <==> ExistingOrder(s, key) == Some(i) { KnownIff(s, key, i); }
    if ExistingOrder(s, key).Some? { assert LeadsTo(s, key, ExistingOrder(s, key).value); }
  }

  // ---------------------------------------------------------------- the answer

  /** The user may order, and the service is on sale at a provider that is. */
  predicate MayOrder(s: Db, r: OrderRequest) {
    && r.user in s.bank.users && !s.bank.users[r.user].banned && s.bank.users[r.user].termsAccepted
    && r.open && r.offer.active && r.offer.providerActive
  }

  function QuoteOf(s: Db, r: OrderRequest): Result<Quote> {
    QuoteOrder(r.offer, r.quantity, r.code, r.user, s.coupons, s.redemptions, r.now)
  }

  lemma CheckAnswers(s: Db, r: OrderRequest)
    ensures CheckRequest(s, r).Success? <==> MayOrder(s, r) && QuoteOf(s, r).Success? && QuoteOf(s, r).value.charge > 0
    ensures CheckRequest(s, r).Success? ==> CheckRequest(s, r) == QuoteOf(s, r)
  {
    hide QuoteOrder;
  }

  /** The row of an accepted request, by what the provider answered. */
  function StoredAs(s: Db, r: OrderRequest, q: Quote, key: OrderKey, answer: Answer): Order {
    var waiting := Order(|s.orders|, r.user, AwaitingProvider, None, r.quantity, q.charge, q.coupon, key,
                         r.offer.refillable, r.offer.cancelable, None, Some(r.quantity), 0,
                         [OrderEvent(Pending, AwaitingProvider)]);
    match answer
    case Accepted(id) =>
      waiting.(status := Processing, provider := Some(id),
               events := waiting.events + [OrderEvent(AwaitingProvider, Processing)])
    case Rejected => waiting.(status := Failed, events := waiting.events + [OrderEvent(AwaitingProvider, Failed)])
    case Broken => waiting.(status := Failed, events := waiting.events + [OrderEvent(AwaitingProvider, Failed)])
    case Ambiguous => waiting.(status := Review, events := waiting.events + [OrderEvent(AwaitingProvider, Review)])
    case Crashed => waiting
  }

  /** What an order costs its buyer at once: the charge when accepted, nothing when rejected, a hold otherwise. */
  ghost predicate PaysFor(s: Db, after: Db, u: UserId, charge: int, answer: Answer)
    requires u in s.bank.users
  {
    match answer
    case Accepted(_) => Shifts(s.bank, after.bank, u, -charge, 0)
    case Rejected => Shifts(s.bank, after.bank, u, 0, 0)
    case Broken => Shifts(s.bank, after.bank, u, 0, 0)
    case _ => Shifts(s.bank, after.bank, u, 0, charge)
  }

  /**
   * Placing an order, exactly. A checked request whose key leads to an order that has not failed
   * changes nothing. Any other goes through if and only if the charge is available and its key, or
   * the retry key of a failed order, is not taken; it then stores one row, remembers the key, and
   * debits, holds or leaves the money by the provider's answer. A request that raises changes nothing.
   */
  lemma PlaceAnswers(s: Db, r: OrderRequest, answer: Answer)
    requires MoneyOk(AccountsOf(s))
    ensures var e := Place(r, answer);
            var checked := MayOrder(s, r) && QuoteOf(s, r).Success? && QuoteOf(s, r).value.charge > 0;
            var key := if IsKnown(s, r.key) then RetryKey(r.key, r.stamp) else r.key;
            && (Handle(s, e).Success? <==>
                 && checked
                 && (IsReplay(s, r.key)
                     || (!IsKnown(s, key)
                         && s.bank.users[r.user].reserved + QuoteOf(s, r).value.charge
                              <= s.bank.users[r.user].balance)))
            && (Handle(s, e).Failure? || IsReplay(s, r.key) ==> Step(s, e) == s)
            && (Handle(s, e).Success? && !IsReplay(s, r.key) ==>
                  var q, after := QuoteOf(s, r).value, Step(s, e);
                  && after.orders == s.orders + [StoredAs(s, r, q, key, answer)]
                  && after.placed == s.placed[key := |s.orders|]
                  && PaysFor(s, after, r.user, q.charge, answer)
                  && after == s.(orders := after.orders, placed := after.placed, bank := after.bank,
                       coupons := after.coupons, redemptions := after.redemptions))
  {
    hide MoneyOk, CheckRequest, OpenOrder, Submit, QuoteOrder, IsKnown, IsReplay, ExistingOrder, ReplaysOrder, PaysFor,
      StoredAs;
    var key := if IsKnown(s, r.key) then RetryKey(r.key, r.stamp) else r.key;
    CheckAnswers(s, r);
    KnownKeys(s, r.key);
    KnownKeys(s, key);
    if CheckRequest(s, r).Success? && !ReplaysOrder(s, r.key) {
      var q := CheckRequest(s, r).value;
      OpenAnswers(s, r, q, key);
      if OpenOrder(s, r, q, key).Success? { SubmitOutcome(s, r, q, key, answer); }
    }
  }

  /** Storing the order: a hold of the charge, when it is available and the key is free. */
  lemma OpenAnswers(s: Db, r: OrderRequest, q: Quote, key: OrderKey)
    requires MoneyOk(AccountsOf(s)) && r.user in s.bank.users && q.charge > 0
    ensures OpenOrder(s, r, q, key).Success? <==>
              ExistingOrder(s, key).None? && s.bank.users[r.user].reserved + q.charge <= s.bank.users[r.user].balance
    ensures OpenOrder(s, r, q, key).Success? ==>
              var after := OpenOrder(s, r, q, key).value;
              && after.orders == s.orders + [StoredAs(s, r, q, key, Crashed)]
              && after.placed == s.placed[key := |s.orders|]
              && Shifts(s.bank, after.bank, r.user, 0, q.charge)
              && after == s.(orders := after.orders, placed := after.placed, bank := after.bank,
                   coupons := after.coupons, redemptions := after.redemptions)
  {
    hide MoneyOk, LedgerOk, EntriesOk, HasKey, Reserve, ExistingOrder, Shifts;
    LedgerOf(AccountsOf(s));
    StoredRowIs(s, r, q, key);
    KeyIsFresh(AccountsOf(s), ReserveKey(|s.orders|));
    WalletAnswers(s.bank, ReserveCall(r.user, q.charge, ForOrder(|s.orders|), ReserveKey(|s.orders|)));
  }

  lemma StoredRowIs(s: Db, r: OrderRequest, q: Quote, key: OrderKey)
    ensures Move(NewOrder(s, r, q, key), AwaitingProvider) == StoredAs(s, r, q, key, Crashed)
  {
  }

  /** Submitting the order just stored. */
  lemma SubmitOutcome(s: Db, r: OrderRequest, q: Quote, key: OrderKey, answer: Answer)
    requires MoneyOk(AccountsOf(s)) && r.user in s.bank.users && q.charge > 0 && OpenOrder(s, r, q, key).Success?
    ensures var n, stored := |s.orders|, OpenOrder(s, r, q, key).value;
            && n < |stored.orders| && Submit(stored, n, answer).Success?
            && var after := Submit(stored, n, answer).value;
               && after.orders == s.orders + [StoredAs(s, r, q, key, answer)]
               && after.placed == s.placed[key := |s.orders|]
               && PaysFor(s, after, r.user, q.charge, answer)
               && after == s.(orders := after.orders, placed := after.placed, bank := after.bank,
                    coupons := after.coupons, redemptions := after.redemptions)
  {
    hide MoneyOk, Keeps, OpenOrder, FailAndRelease, CaptureOrder;
    var n, stored := |s.orders|, OpenOrder(s, r, q, key).value;
    OpenAnswers(s, r, q, key);
    OpenOrderKeeps(s, r, q, key);
    UsersCover(s, r.user);
    match answer
    case Accepted(id) => Capturing(stored, n, id);
    case Rejected => Failing(stored, n, ProviderTag);
    case Broken => Failing(stored, n, InternalTag);
    case _ =>
  }
}
