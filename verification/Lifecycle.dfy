/** The life of an order over every run: its events form a path, and closed orders stay closed. */
module Lifecycle {
  import opened Results
  import opened Keys
  import opened Pricing
  import opened Tables
  import opened Orders
  import opened Payments
  import opened Engine
  import opened Books

  /** The status changes an order can go through. */
  predicate Edge(from: Status, to: Status) {
    match from
    case Refunded => false
    case Failed => to == Refunded
    case Canceled => to == Refunded
    case Completed => to == Refilling
    case Review => to in {Processing, Failed}
    case AwaitingProvider => to in {Processing, Failed, Review, Canceled}
    case Pending => to == AwaitingProvider || (PanelStatus(to) && to != Pending)
    case Partial => to == Refilling || (PanelStatus(to) && to != Partial)
    case _ => PanelStatus(to) && to != from
  }

  /** The events are a connected path of edges from pending to the current status. */
  ghost predicate Trail(o: Order) {
    && |o.events| > 0
    && o.events[0] == OrderEvent(Pending, AwaitingProvider)
    && (forall k | 0 <= k < |o.events| :: Edge(o.events[k].from, o.events[k].to))
    && (forall k | 0 < k < |o.events| :: o.events[k].from == o.events[k - 1].to)
    && o.events[|o.events| - 1].to == o.status
  }

  ghost predicate OrderOk(o: Order) {
    PhaseOk(o) && Trail(o)
  }

  ghost predicate OrdersOk(s: Db) {
    forall i | 0 <= i < |s.orders| :: OrderOk(s.orders[i])
  }

  /** What one call may do to a stored order. */
  ghost predicate Evolves(o: Order, o': Order, e: Event, i: nat) {
    && OrderOk(o')
    && o.events <= o'.events
    && o'.user == o.user && o'.charge == o.charge && o'.key == o.key && o'.coupon == o.coupon
    && o'.quantity == o.quantity
    && (o.provider.Some? ==> o'.provider == o.provider)
    && (o.status in {Failed, Canceled, Refunded} ==> o' == o)
    && (o.status == Completed && o' != o ==> e.Refill? && e.order == i && o'.status == Refilling)
    && (o.status == Review && o' != o ==> e.Resolve? && e.order == i)
  }

  lemma MoveExtends(base: Order, o: Order, to: Status)
    requires Trail(base) && o.status == base.status && o.events == base.events
    ensures Trail(o)
    ensures Edge(o.status, to) ==> Trail(Move(o, to)) && o.events <= Move(o, to).events
  {
  }

  lemma {:induction false} FlaggedRow(orders: seq<Order>, stale: set<nat>, limit: nat, i: nat)
    requires i < |orders|
    ensures |FlagStuck(orders, stale, limit)| == |orders|
    ensures var o' := FlagStuck(orders, stale, limit)[i];
            o' == orders[i] || (Stuck(orders[i]) && o' == Move(orders[i], Review))
  {
    var n := |orders| - 1;
    if n > 0 { FlaggedRow(orders[..n], stale, limit, if i < n then i else 0); }
  }

  /** The stuck-order check moves exactly the oldest `limit` of the stale stuck orders. */
  lemma {:induction false} FlagsOldestFirst(orders: seq<Order>, stale: set<nat>, limit: nat, i: nat)
    requires i < |orders|
    ensures |FlagStuck(orders, stale, limit)| == |orders|
    ensures FlagStuck(orders, stale, limit)[i]
         == if Stuck(orders[i]) && i in stale && Flagged(orders[..i], stale) < limit then Move(orders[i], Review)
           else orders[i]
  {
    hide Stuck;
    var n := |orders| - 1;
    if n > 0 {
      FlagsOldestFirst(orders[..n], stale, limit, if i < n then i else 0);
      assert i < n ==> orders[..n][..i] == orders[..i];
    }
  }

  lemma FlagLength(orders: seq<Order>, stale: set<nat>, limit: nat)
    ensures |FlagStuck(orders, stale, limit)| == |orders|
  {
  }

  lemma ReconcileLeavesOrders(s: Db, rows: seq<nat>, gateway: string, answers: map<nat, GatewayAnswer>)
    requires ReconcileAll(s, rows, gateway, answers).Success?
    ensures ReconcileAll(s, rows, gateway, answers).value.orders == s.orders
  {
  }

  /** The rows a provider report can leave behind. */
  lemma SyncRow(s: Db, i: nat, report: PanelReport)
    requires i < |s.orders| && SyncOrder(s, i, report).Success?
    ensures var after := SyncOrder(s, i, report).value;
            |after.orders| == |s.orders| && after.orders == s.orders[i := after.orders[i]]
    ensures var o, o' := s.orders[i], SyncOrder(s, i, report).value.orders[i];
            || o' == o
            || (report.Report? && !Terminal(o.status) && HasProvider(o)
                && var seen := Observe(o, report.startCount, report.remains);
                   || (report.status == o.status && o' == seen)
                   || (report.status != o.status && o' == Move(seen, report.status))
                   || (report.status != o.status && report.status in {Canceled, Failed}
                        && o' == Move(Move(seen, report.status), Refunded)))
  {
    var o := s.orders[i];
    if !Terminal(o.status) && HasProvider(o) && report.Report? && report.status != o.status {
      var seen := Observe(o, report.startCount, report.remains);
      var moved := SetOrder(s, i, Move(seen, report.status));
      if report.status in {Canceled, Failed} {
        CloseRow(moved, i, TagOf(report.status));
      }
    }
  }

  lemma CloseRow(s: Db, i: nat, tag: RefundTag)
    requires i < |s.orders| && RefundIfNeeded(s, i, tag).Success?
    ensures var orders := RefundIfNeeded(s, i, tag).value.orders;
            orders == s.orders || orders == s.orders[i := Move(s.orders[i], Refunded)]
  {
  }

  /** A provider report moves an open order along one edge, or two when it is closed and refunded. */
  lemma SyncEvolves(s: Db, i: nat, report: PanelReport, e: Event)
    requires i < |s.orders| && OrderOk(s.orders[i]) && SyncOrder(s, i, report).Success?
    ensures var after := SyncOrder(s, i, report).value;
            && |after.orders| == |s.orders| && Evolves(s.orders[i], after.orders[i], e, i)
  {
    SyncRow(s, i, report);
    hide SyncOrder;
    var o := s.orders[i];
    Unmoved(o, e, i);
    if !Terminal(o.status) && HasProvider(o) && report.Report? {
      ReportEvolves(o, report, e, i);
    }
  }

  lemma ReportEvolves(o: Order, report: PanelReport, e: Event, i: nat)
    requires OrderOk(o) && !Terminal(o.status) && HasProvider(o) && report.Report?
    ensures var seen := Observe(o, report.startCount, report.remains);
            && (report.status == o.status ==> Evolves(o, seen, e, i))
            && (report.status != o.status ==> Evolves(o, Move(seen, report.status), e, i))
            && (report.status != o.status && report.status in {Canceled, Failed} ==>
                  Evolves(o, Move(Move(seen, report.status), Refunded), e, i))
  {
    hide Trail;
    var seen := Observe(o, report.startCount, report.remains);
    MoveExtends(o, seen, report.status);
    if report.status != o.status && report.status in {Canceled, Failed} {
      MoveExtends(Move(seen, report.status), Move(seen, report.status), Refunded);
    }
  }

  /** Placing appends at most one row, which is already well formed. */
  lemma PlaceRow(s: Db, r: OrderRequest, answer: Answer)
    requires PlaceOrder(s, r, answer).Success?
    ensures var orders := PlaceOrder(s, r, answer).value.orders;
            orders == s.orders || (|orders| == |s.orders| + 1 && orders[..|s.orders|] == s.orders
              && OrderOk(orders[|s.orders|]))
  {
    var q := CheckRequest(s, r).value;
    if !ReplaysOrder(s, r.key) {
      var stored := OpenOrder(s, r, q, KeyToStore(s, r)).value;
      var n := |s.orders|;
      StoredRow(s, r, q, KeyToStore(s, r));
      hide OpenOrder, CheckRequest;
      var o := stored.orders[n];
      SubmitRow(stored, n, answer);
      hide Submit;
      match answer
      case Accepted(id) => MoveExtends(o, o.(provider := Some(id)), Processing);
      case Rejected => MoveExtends(o, o, Failed);
      case Broken => MoveExtends(o, o, Failed);
      case Ambiguous => MoveExtends(o, o, Review);
      case Crashed =>
    }
  }

  lemma StoredRow(s: Db, r: OrderRequest, q: Quote, key: OrderKey)
    requires r.user in s.bank.users && OpenOrder(s, r, q, key).Success?
    ensures OpenOrder(s, r, q, key).value.orders == s.orders + [Move(NewOrder(s, r, q, key), AwaitingProvider)]
    ensures OrderOk(Move(NewOrder(s, r, q, key), AwaitingProvider))
  {
  }

  lemma SubmitRow(s: Db, i: nat, answer: Answer)
    requires i < |s.orders| && Submit(s, i, answer).Success?
    ensures var o := s.orders[i];
            Submit(s, i, answer).value.orders == s.orders[i :=
              match answer
              case Accepted(id) => Move(o.(provider := Some(id)), Processing)
              case Rejected => Move(o, Failed)
              case Broken => Move(o, Failed)
              case Ambiguous => Move(o, Review)
              case Crashed => o]
  {
  }

  lemma RefillRow(s: Db, i: nat, actor: UserId, staff: bool, open: bool, accepted: bool)
    requires i < |s.orders| && RefillOrder(s, i, actor, staff, open, accepted).Success?
    ensures var o := s.orders[i];
            && Refillable(o.status)
            && RefillOrder(s, i, actor, staff, open, accepted).value.orders
                 == s.orders[i := Move(o.(refills := o.refills + 1), Refilling)]
  {
  }

  lemma CancelRow(s: Db, i: nat, actor: UserId, staff: bool, confirmed: bool)
    requires i < |s.orders| && CancelOrder(s, i, actor, staff, confirmed).Success?
    ensures Cancelable(s.orders[i].status)
    ensures CancelOrder(s, i, actor, staff, confirmed).value.orders == s.orders[i := Move(s.orders[i], Canceled)]
  {
  }

  lemma ResolveRow(s: Db, i: nat, release: bool, attach: Option<string>)
    requires i < |s.orders| && ResolveReview(s, i, release, attach).Success?
    ensures var o, o' := s.orders[i], ResolveReview(s, i, release, attach).value.orders;
            && o.status == Review
            && |o'| == |s.orders| && o' == s.orders[i := o'[i]]
            && (release ==> o'[i] == Move(o, Failed))
            && (!release ==> o'[i].provider.Some? && o'[i] == Move(o.(provider := o'[i].provider), Processing))
  {
  }

  lemma OtherCallsLeaveOrders(s: Db, e: Event)
    requires Handle(s, e).Success?
    requires !(e.Place? || e.Sync? || e.Refill? || e.Cancel? || e.Resolve? || e.FlagStuckOrders?)
    ensures Handle(s, e).value.orders == s.orders
  {
    hide PlaceOrder, SyncOrder, RefillOrder, CancelOrder, ResolveReview, FlagStuck, Verdict;
    if e.ReconcilePending? {
      ReconcileLeavesOrders(s, ToReconcile(s.payments, e.gateway, e.aged, e.limit), e.gateway, e.answers);
    }
  }

  lemma Unmoved(o: Order, e: Event, i: nat)
    requires OrderOk(o)
    ensures Evolves(o, o, e, i)
  {
  }

  lemma RefillEvolves(s: Db, j: nat, actor: UserId, staff: bool, open: bool, accepted: bool, i: nat)
    requires i < |s.orders| && j < |s.orders| && OrderOk(s.orders[i])
             && RefillOrder(s, j, actor, staff, open, accepted).Success?
    ensures var after := RefillOrder(s, j, actor, staff, open, accepted).value;
            |after.orders| == |s.orders|
              && Evolves(s.orders[i], after.orders[i], Refill(j, actor, staff, open, accepted), i)
  {
    RefillRow(s, j, actor, staff, open, accepted);
    hide RefillOrder, Trail;
    var o := s.orders[i];
    if j == i { MoveExtends(o, o.(refills := o.refills + 1), Refilling); }
  }

  lemma CancelEvolves(s: Db, j: nat, actor: UserId, staff: bool, confirmed: bool, i: nat)
    requires i < |s.orders| && j < |s.orders| && OrderOk(s.orders[i])
             && CancelOrder(s, j, actor, staff, confirmed).Success?
    ensures var after := CancelOrder(s, j, actor, staff, confirmed).value;
            |after.orders| == |s.orders| && Evolves(s.orders[i], after.orders[i], Cancel(j, actor, staff, confirmed), i)
  {
    CancelRow(s, j, actor, staff, confirmed);
    hide CancelOrder, Trail;
    if j == i { MoveExtends(s.orders[i], s.orders[i], Canceled); }
  }

  lemma ResolveEvolves(s: Db, j: nat, release: bool, attach: Option<string>, i: nat)
    requires i < |s.orders| && j < |s.orders| && OrderOk(s.orders[i]) && ResolveReview(s, j, release, attach).Success?
    ensures var after := ResolveReview(s, j, release, attach).value;
            |after.orders| == |s.orders| && Evolves(s.orders[i], after.orders[i], Resolve(j, release, attach), i)
  {
    ResolveRow(s, j, release, attach);
    hide ResolveReview, Trail;
    var o := s.orders[i];
    var o' := ResolveReview(s, j, release, attach).value.orders[i];
    if j == i { MoveExtends(o, o.(provider := o'.provider), if release then Failed else Processing); }
  }

  lemma FlagEvolves(s: Db, stale: set<nat>, limit: nat, i: nat)
    requires i < |s.orders| && OrderOk(s.orders[i])
    ensures var orders := FlagStuck(s.orders, stale, limit);
            |orders| == |s.orders| && Evolves(s.orders[i], orders[i], FlagStuckOrders(stale, limit), i)
  {
    FlaggedRow(s.orders, stale, limit, i);
    hide FlagStuck, Trail;
    var o := s.orders[i];
    if o.status == AwaitingProvider { MoveExtends(o, o, Review); }
  }

  /** The rows after an order call, with everything about its money left out. */
  lemma OrderCallEvolves(s: Db, e: Event, i: nat)
    requires OrdersOk(s) && i < |s.orders| && Handle(s, e).Success?
    requires e.Place? || e.Sync? || e.Refill? || e.Cancel? || e.Resolve? || e.FlagStuckOrders?
    ensures |Handle(s, e).value.orders| >= |s.orders| && Evolves(s.orders[i], Handle(s, e).value.orders[i], e, i)
  {
    hide SyncOrder, PlaceOrder, RefillOrder, CancelOrder, ResolveReview, FlagStuck, Trail, OrderOk, Evolves;
    assert OrderOk(s.orders[i]);
    Unmoved(s.orders[i], e, i);
    match e
    case Sync(j, report) => if j == i { SyncEvolves(s, j, report, e); } else { SyncRow(s, j, report); }
    case Place(request, answer) => PlaceRow(s, request, answer);
    case Refill(j, actor, staff, open, accepted) => RefillEvolves(s, j, actor, staff, open, accepted, i);
    case Cancel(j, actor, staff, confirmed) => CancelEvolves(s, j, actor, staff, confirmed, i);
    case Resolve(j, release, attach) => ResolveEvolves(s, j, release, attach, i);
    case FlagStuckOrders(stale, limit) => FlagEvolves(s, stale, limit, i);
  }

  /** One call, seen from one stored order. */
  lemma OrderEvolves(s: Db, e: Event, i: nat)
    requires OrdersOk(s) && i < |s.orders|
    ensures |Step(s, e).orders| >= |s.orders| && Evolves(s.orders[i], Step(s, e).orders[i], e, i)
  {
    assert OrderOk(s.orders[i]);
    hide Handle, OrderOk, Trail;
    if Handle(s, e).Success? {
      if e.Place? || e.Sync? || e.Refill? || e.Cancel? || e.Resolve? || e.FlagStuckOrders? {
        OrderCallEvolves(s, e, i);
      } else {
        OtherCallsLeaveOrders(s, e);
      }
    }
  }

  /** A call stores at most one new order, and that one is well formed. */
  lemma StepKeepsOrders(s: Db, e: Event)
    requires OrdersOk(s)
    ensures OrdersOk(Step(s, e))
  {
    hide Step, PlaceOrder, OrderOk, Trail;
    forall i | 0 <= i < |Step(s, e).orders| ensures OrderOk(Step(s, e).orders[i]) {
      if i < |s.orders| {
        OrderEvolves(s, e, i);
      } else {
        NewOrdersOnlyFromPlace(s, e);
        PlaceRow(s, e.request, e.answer);
      }
    }
  }

  lemma NewOrdersOnlyFromPlace(s: Db, e: Event)
    requires |Step(s, e).orders| > |s.orders|
    ensures e.Place? && PlaceOrder(s, e.request, e.answer).Success?
            && Step(s, e) == PlaceOrder(s, e.request, e.answer).value
  {
    if Handle(s, e).Success? {
      match e
      case Sync(j, report) => SyncRow(s, j, report);
      case Refill(j, actor, staff, open, accepted) => RefillRow(s, j, actor, staff, open, accepted);
      case Cancel(j, actor, staff, confirmed) => CancelRow(s, j, actor, staff, confirmed);
      case Resolve(j, release, attach) => ResolveRow(s, j, release, attach);
      case FlagStuckOrders(stale, limit) => FlagLength(s.orders, stale, limit);
      case Place(_, _) =>
      case _ => OtherCallsLeaveOrders(s, e);
    }
  }

  /** In every run from the empty database, each order's events lead from pending to its status. */
  lemma {:induction false} RunsKeepTrails(coupons: map<Code, Coupon>, events: seq<Event>)
    ensures OrdersOk(Run(EmptyDb(coupons), events))
  {
    if events != [] {
      RunsKeepTrails(coupons, events[..|events| - 1]);
      StepKeepsOrders(Run(EmptyDb(coupons), events[..|events| - 1]), events[|events| - 1]);
    }
  }

  /**
   * Whatever calls follow: a failed, cancelled or refunded order never changes again, and owner,
   * charge and an attached provider id are never rewritten.
   */
  lemma {:induction false} ClosedOrdersStayClosed(s: Db, events: seq<Event>, i: nat)
    requires OrdersOk(s) && i < |s.orders|
    ensures OrdersOk(Run(s, events)) && |Run(s, events).orders| >= |s.orders|
    ensures var o, o' := s.orders[i], Run(s, events).orders[i];
            && (o.status in {Failed, Canceled, Refunded} ==> o' == o)
            && o.events <= o'.events
            && o'.user == o.user && o'.charge == o.charge
            && (o.provider.Some? ==> o'.provider == o.provider)
  {
    hide Step;
    if events != [] {
      var before := Run(s, events[..|events| - 1]);
      ClosedOrdersStayClosed(s, events[..|events| - 1], i);
      StepKeepsOrders(before, events[|events| - 1]);
      OrderEvolves(before, events[|events| - 1], i);
    }
  }

  /** An order under review stays as it is, through any calls but its own resolution. */
  lemma {:induction false} ReviewStays(s: Db, events: seq<Event>, i: nat)
    requires OrdersOk(s) && i < |s.orders| && s.orders[i].status == Review
    requires forall k | 0 <= k < |events| :: !(events[k].Resolve? && events[k].order == i)
    ensures OrdersOk(Run(s, events)) && |Run(s, events).orders| >= |s.orders|
    ensures Run(s, events).orders[i] == s.orders[i] && IsHeld(Run(s, events).orders[i])
  {
    assert OrderOk(s.orders[i]);
    hide Step;
    if events != [] {
      var before := Run(s, events[..|events| - 1]);
      ReviewStays(s, events[..|events| - 1], i);
      StepKeepsOrders(before, events[|events| - 1]);
      OrderEvolves(before, events[|events| - 1], i);
    }
  }
}
