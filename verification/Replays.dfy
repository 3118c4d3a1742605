/** Replayed order requests over whole runs: one key, one order, until that order fails. */
module Replays {
  import opened Results
  import opened Keys
  import opened Pricing
  import opened Tables
  import opened Orders
  import opened Engine
  import opened Lifecycle
  import opened Coupons

  /** Remembered keys point at stored orders. */
  predicate PlacedOk(s: Db) {
    forall key | key in s.placed :: s.placed[key] < |s.orders|
  }

  /** A call remembers at most one more key, one that was not known, for the order it stores. */
  ghost predicate Remembers(s: Db, after: Db) {
    && (forall key | key in s.placed :: key in after.placed && after.placed[key] == s.placed[key])
    && (forall key | key in after.placed && key !in s.placed ::
          ExistingOrder(s, key).None? && after.placed[key] == |s.orders| < |after.orders|)
  }

  lemma PlaceRemembers(s: Db, r: OrderRequest, answer: Answer)
    requires PlacedOk(s) && PlaceOrder(s, r, answer).Success?
    ensures Remembers(s, PlaceOrder(s, r, answer).value)
  {
    hide CheckRequest, OpenOrder, Submit, FindKey;
    var q := CheckRequest(s, r);
    CheckedUser(s, r);
    if !ReplaysOrder(s, r.key) {
      StoreRemembers(s, r, q.value, KeyToStore(s, r));
      SubmitRemembers(OpenOrder(s, r, q.value, KeyToStore(s, r)).value, |s.orders|, answer);
    }
  }

  lemma StoreRemembers(s: Db, r: OrderRequest, q: Quote, key: OrderKey)
    requires r.user in s.bank.users && OpenOrder(s, r, q, key).Success?
    ensures var after := OpenOrder(s, r, q, key).value;
            && ExistingOrder(s, key).None? && after.placed == s.placed[key := |s.orders|]
            && |after.orders| == |s.orders| + 1
  {
    hide ExistingOrder;
  }

  lemma SubmitRemembers(s: Db, i: nat, answer: Answer)
    requires i < |s.orders| && Submit(s, i, answer).Success?
    ensures Submit(s, i, answer).value.placed == s.placed && |Submit(s, i, answer).value.orders| == |s.orders|
  {
  }

  lemma ReleaseRemembers(s: Db, i: nat)
    requires i < |s.orders| && FailAndRelease(s, i, ReviewTag).Success?
    ensures FailAndRelease(s, i, ReviewTag).value.placed == s.placed
  {
  }

  lemma StepRemembers(s: Db, e: Event)
    requires PlacedOk(s)
    ensures Remembers(s, Step(s, e))
  {
    hide PlaceOrder, ExistingOrder, FailAndRelease;
    if Handle(s, e).Success? {
      if e.Place? {
        PlaceRemembers(s, e.request, e.answer);
      } else if e.Resolve? && e.release {
        ReleaseRemembers(s, e.order);
      } else {
        MoneyCallsLeaveCoupons(s, e);
      }
    }
  }

  /** The order a key was first stored on does not change while rows keep their keys. */
  lemma {:induction false} FindKeyStays(orders: seq<Order>, after: seq<Order>, key: OrderKey)
    requires |orders| <= |after| && forall i | 0 <= i < |orders| :: after[i].key == orders[i].key
    requires FindKey(orders, key).Some?
    ensures FindKey(after, key) == FindKey(orders, key)
  {
    var n := |after| - 1;
    if |orders| <= n {
      FindKeyStays(orders, after[..n], key);
    } else if FindKey(orders[..n], key).Some? {
      FindKeyStays(orders[..n], after[..n], key);
    } else {
      NoKeyBefore(orders[..n], after[..n], key);
    }
  }

  lemma {:induction false} NoKeyBefore(orders: seq<Order>, after: seq<Order>, key: OrderKey)
    requires |orders| == |after| && forall i | 0 <= i < |orders| :: after[i].key == orders[i].key
    ensures FindKey(after, key).Some? <==> FindKey(orders, key).Some?
  {
    if orders != [] { NoKeyBefore(orders[..|orders| - 1], after[..|orders| - 1], key); }
  }

  lemma KeysStay(s: Db, e: Event)
    requires OrdersOk(s)
    ensures |s.orders| <= |Step(s, e).orders| && forall i | 0 <= i < |s.orders| ::
            Step(s, e).orders[i].key == s.orders[i].key
  {
    hide Step, OrdersOk, OrderOk;
    forall i | 0 <= i < |s.orders|
      ensures |s.orders| <= |Step(s, e).orders| && Step(s, e).orders[i].key == s.orders[i].key
    {
      OrderEvolves(s, e, i);
    }
    if |s.orders| > 0 { OrderEvolves(s, e, 0); }
  }

  lemma KnownStays(s: Db, e: Event, key: OrderKey)
    requires OrdersOk(s) && PlacedOk(s)
    ensures PlacedOk(Step(s, e))
    ensures ExistingOrder(s, key).Some? ==> ExistingOrder(Step(s, e), key) == ExistingOrder(s, key)
  {
    StepRemembers(s, e);
    KeysStay(s, e);
    hide Step, OrdersOk;
    if FindKey(s.orders, key).Some? { FindKeyStays(s.orders, Step(s, e).orders, key); }
  }

  /** A key once known leads to the same order in every later state. */
  lemma {:induction false} KeysAreRemembered(s: Db, events: seq<Event>, key: OrderKey)
    requires OrdersOk(s) && PlacedOk(s)
    ensures OrdersOk(Run(s, events)) && PlacedOk(Run(s, events))
    ensures ExistingOrder(s, key).Some? ==> ExistingOrder(Run(s, events), key) == ExistingOrder(s, key)
  {
    hide Step, OrdersOk, PlacedOk, ExistingOrder;
    if events != [] {
      var before := Run(s, events[..|events| - 1]);
      KeysAreRemembered(s, events[..|events| - 1], key);
      StepKeepsOrders(before, events[|events| - 1]);
      KnownStays(before, events[|events| - 1], key);
    }
  }

  /**
   * Replaying a request that was already stored, after any calls in between: it changes nothing
   * if and only if its order has not failed. After a failure each replay that goes through stores
   * one more order, and the key still leads to the failed one, so the next replay does it again.
   */
  lemma ReplayIsHarmlessIff(s: Db, events: seq<Event>, r: OrderRequest, answer: Answer)
    requires OrdersOk(s) && PlacedOk(s) && ExistingOrder(s, r.key).Some?
    requires PlaceOrder(Run(s, events), r, answer).Success?
    ensures var t := Run(s, events);
            var known := ExistingOrder(s, r.key).value;
            var after := PlaceOrder(t, r, answer).value;
            && known < |t.orders|
            && (after == t <==> t.orders[known].status != Failed)
            && (t.orders[known].status == Failed ==>
                  && |after.orders| == |t.orders| + 1
                  && ExistingOrder(after, r.key) == Some(known))
  {
    KeysAreRemembered(s, events, r.key);
    hide Run, OrdersOk, PlacedOk;
    ReplayHere(Run(s, events), r, answer);
  }

  lemma ReplayHere(t: Db, r: OrderRequest, answer: Answer)
    requires OrdersOk(t) && PlacedOk(t) && ExistingOrder(t, r.key).Some? && PlaceOrder(t, r, answer).Success?
    ensures var known := ExistingOrder(t, r.key).value;
            var after := PlaceOrder(t, r, answer).value;
            && known < |t.orders|
            && (after == t <==> t.orders[known].status != Failed)
            && (t.orders[known].status == Failed ==>
                 |after.orders| == |t.orders| + 1 && ExistingOrder(after, r.key) == Some(known))
  {
    hide CheckRequest, OpenOrder, Submit, ExistingOrder, OrdersOk, PlacedOk;
    KnownIsStored(t, r.key);
    if t.orders[ExistingOrder(t, r.key).value].status == Failed {
      var q := CheckRequest(t, r).value;
      CheckedUser(t, r);
      StoreRemembers(t, r, q, KeyToStore(t, r));
      SubmitRemembers(OpenOrder(t, r, q, KeyToStore(t, r)).value, |t.orders|, answer);
      KnownStays(t, Place(r, answer), r.key);
    }
  }

  lemma KnownIsStored(s: Db, key: OrderKey)
    requires ExistingOrder(s, key).Some?
    ensures ExistingOrder(s, key).value < |s.orders|
  {
    FindKeyInTable(s.orders, key);
  }

  lemma {:induction false} FindKeyInTable(orders: seq<Order>, key: OrderKey)
    ensures FindKey(orders, key).Some? ==>
            FindKey(orders, key).value < |orders| && orders[FindKey(orders, key).value].key == key
  {
    if orders != [] { FindKeyInTable(orders[..|orders| - 1], key); }
  }
}
