/**
 * The cap of three order commissions per buyer, over every run: which orders are paid for, by the
 * history of the buyer's completions and refills, and exactly when they are more than three.
 */
module CommissionCap {
  import opened Sums
  import opened Keys
  import opened Wallet
  import opened Pricing
  import opened Tables
  import opened Referrals
  import opened Engine
  import opened Lifecycle
  import opened Commissions
  import opened CommissionRuns

  // ---------------------------------------------------------------- histories of completions and refills

  /** An order of the buyer completes, with or without something to earn, or goes back for a refill. */
  datatype Move = Finished(id: nat, earns: bool) | Reopened(id: nat)

  /** The orders that stand completed after these moves. */
  function DoneAfter(moves: seq<Move>): set<nat> {
    if moves == [] then {}
    else
      var earlier, m := DoneAfter(moves[..|moves| - 1]), moves[|moves| - 1];
      if m.Finished? then earlier + {m.id} else earlier - {m.id}
  }

  function LowerThan(ids: set<nat>, x: nat): set<nat> {
    set i | i in ids && i < x
  }

  /** Fewer than three orders with lower ids stand completed before the k-th move. */
  predicate HasRoom(moves: seq<Move>, k: nat)
    requires k < |moves|
  {
    |LowerThan(DoneAfter(moves[..k]), moves[k].id)| < 3
  }

  /** The k-th move completes an order that earns, while there is room. */
  predicate Pays(moves: seq<Move>, k: nat)
    requires k < |moves|
  {
    moves[k].Finished? && moves[k].earns && HasRoom(moves, k)
  }

  /** The orders paid for. */
  function PaidIds(moves: seq<Move>): set<nat> {
    set k | 0 <= k < |moves| && Pays(moves, k) :: moves[k].id
  }

  /** Some move pays for a further order when three are paid for already. */
  predicate BreaksCap(moves: seq<Move>) {
    exists k | 0 <= k < |moves| :: PaysBeyondCap(moves, k)
  }

  predicate PaysBeyondCap(moves: seq<Move>, k: nat)
    requires k < |moves|
  {
    Pays(moves, k) && moves[k].id !in PaidIds(moves[..k]) && |PaidIds(moves[..k])| >= 3
  }

  lemma PrefixPays(moves: seq<Move>, n: nat, k: nat)
    requires k < n <= |moves|
    ensures Pays(moves[..n], k) == Pays(moves, k)
    ensures PaysBeyondCap(moves[..n], k) == PaysBeyondCap(moves, k)
  {
    assert moves[..n][..k] == moves[..k];
  }

  lemma PaidIdsNext(moves: seq<Move>)
    requires moves != []
    ensures var n := |moves| - 1; PaidIds(moves) == PaidIds(moves[..n]) + if Pays(moves, n) then {moves[n].id} else {}
  {
    hide Pays, PaysBeyondCap;
    var n := |moves| - 1;
    var last := if Pays(moves, n) then {moves[n].id} else {};
    forall k | 0 <= k < n ensures Pays(moves[..n], k) == Pays(moves, k) && moves[..n][k] == moves[k] {
      PrefixPays(moves, n, k);
    }
    forall x | x in PaidIds(moves) ensures x in PaidIds(moves[..n]) + last {
      var k :| 0 <= k < |moves| && Pays(moves, k) && moves[k].id == x;
      if k < n { assert Pays(moves[..n], k) && moves[..n][k].id == x; }
    }
    forall x | x in PaidIds(moves[..n]) + last ensures x in PaidIds(moves) {
      if x in PaidIds(moves[..n]) {
        var k :| 0 <= k < n && Pays(moves[..n], k) && moves[..n][k].id == x;
        assert Pays(moves, k) && moves[k].id == x;
      }
    }
  }

  lemma BreaksCapNext(moves: seq<Move>)
    requires moves != []
    ensures var n := |moves| - 1; BreaksCap(moves) <==> BreaksCap(moves[..n]) || PaysBeyondCap(moves, n)
  {
    hide Pays, PaysBeyondCap;
    var n := |moves| - 1;
    forall k | 0 <= k < n ensures PaysBeyondCap(moves[..n], k) == PaysBeyondCap(moves, k) { PrefixPays(moves, n, k); }
  }

  /** At most three orders are paid for if and only if no move pays for a fourth one. */
  lemma {:induction false} CapHoldsIff(moves: seq<Move>)
    ensures |PaidIds(moves)| <= 3 <==> !BreaksCap(moves)
  {
    hide Pays, PaidIds, BreaksCap;
    if moves == [] {
      NothingPaid();
    } else {
      var n := |moves| - 1;
      CapHoldsIff(moves[..n]);
      PaidIdsNext(moves);
      assert moves[n].id in PaidIds(moves[..n]) ==> PaidIds(moves[..n]) + {moves[n].id} == PaidIds(moves[..n]);
      BreaksCapNext(moves);
    }
  }

  lemma NothingPaid()
    ensures PaidIds([]) == {} && !BreaksCap([])
  {
  }

  /**
   * Why an order beyond the cap is paid for: one that was paid for before has a higher id, or no
   * longer stands completed.
   */
  lemma WhyTheCapBreaks(moves: seq<Move>, k: nat)
    requires k < |moves| && PaysBeyondCap(moves, k)
    ensures exists i | i in PaidIds(moves[..k]) :: i > moves[k].id || i !in DoneAfter(moves[..k])
  {
    hide PaidIds, DoneAfter;
    var paid, x := PaidIds(moves[..k]), moves[k].id;
    if forall i | i in paid :: i <= x && i in DoneAfter(moves[..k]) {
      assert paid <= LowerThan(DoneAfter(moves[..k]), x);
      SubsetSize(paid, LowerThan(DoneAfter(moves[..k]), x));
    }
  }

  lemma SubsetSize(small: set<nat>, large: set<nat>)
    requires small <= large
    ensures |small| <= |large|
  {
    assert large == small + (large - small);
  }

  // ---------------------------------------------------------------- histories without a refill

  predicate Straight(moves: seq<Move>) {
    && (forall k | 0 <= k < |moves| :: moves[k].Finished?)
    && (forall j, k | 0 <= j < k < |moves| :: moves[j].id != moves[k].id)
  }

  function IdsOf(moves: seq<Move>): set<nat> {
    set k | 0 <= k < |moves| :: moves[k].id
  }

  /** The orders of the history that had something to earn when they completed. */
  function Earners(moves: seq<Move>): set<nat> {
    set k | 0 <= k < |moves| && moves[k].Finished? && moves[k].earns :: moves[k].id
  }

  predicate AllEarn(moves: seq<Move>) {
    forall k | 0 <= k < |moves| :: moves[k].Finished? && moves[k].earns
  }

  predicate Ascending(moves: seq<Move>) {
    forall j, k | 0 <= j < k < |moves| :: moves[j].id < moves[k].id
  }

  predicate Descending(moves: seq<Move>) {
    forall j, k | 0 <= j < k < |moves| :: moves[j].id > moves[k].id
  }

  /** An order that completes after three others has fewer than three lower ids among those before it. */
  predicate Overtakes(moves: seq<Move>) {
    exists k | 3 <= k < |moves| :: HasRoom(moves, k)
  }

  /** The first three moves. */
  function FirstThree(moves: seq<Move>): seq<Move> {
    if |moves| <= 3 then moves else moves[..3]
  }

  lemma StraightNext(moves: seq<Move>)
    requires Straight(moves) && moves != []
    ensures var n := |moves| - 1;
            && Straight(moves[..n]) && moves[n].Finished? && moves[n].id !in IdsOf(moves[..n])
            && IdsOf(moves) == IdsOf(moves[..n]) + {moves[n].id}
  {
    var n := |moves| - 1;
    forall x | x in IdsOf(moves) ensures x in IdsOf(moves[..n]) + {moves[n].id} {
      var k :| 0 <= k < |moves| && moves[k].id == x;
      if k < n { assert moves[..n][k].id == x; }
    }
    forall x | x in IdsOf(moves[..n]) ensures x in IdsOf(moves) && x != moves[n].id {
      var k :| 0 <= k < n && moves[..n][k].id == x;
      assert moves[k].id == x;
    }
  }

  lemma {:induction false} StraightDone(moves: seq<Move>)
    requires Straight(moves)
    ensures DoneAfter(moves) == IdsOf(moves) && |IdsOf(moves)| == |moves|
  {
    if moves == [] {
      assert IdsOf(moves) == {};
    } else {
      StraightNext(moves);
      hide IdsOf, Straight;
      StraightDone(moves[..|moves| - 1]);
    }
  }

  lemma EarlyOnesHaveRoom(moves: seq<Move>, k: nat)
    requires Straight(moves) && k < |moves| && k < 3
    ensures HasRoom(moves, k)
  {
    StraightDone(moves[..k]);
    SubsetSize(LowerThan(DoneAfter(moves[..k]), moves[k].id), DoneAfter(moves[..k]));
  }

  /** Orders that complete in id order overtake nobody. */
  lemma AscendingNeverOvertakes(moves: seq<Move>)
    requires Straight(moves) && Ascending(moves)
    ensures !Overtakes(moves)
  {
    forall k | 3 <= k < |moves| ensures !HasRoom(moves, k) {
      StraightDone(moves[..k]);
      hide DoneAfter;
      assert LowerThan(DoneAfter(moves[..k]), moves[k].id) == DoneAfter(moves[..k]);
    }
  }

  /** When none overtakes, the orders paid for are those of the first three that had something to earn. */
  lemma FirstThreePay(moves: seq<Move>)
    requires Straight(moves) && !Overtakes(moves)
    ensures PaidIds(moves) == Earners(FirstThree(moves))
  {
    hide HasRoom;
    var three := FirstThree(moves);
    forall x | x in PaidIds(moves) ensures x in Earners(three) {
      var k :| 0 <= k < |moves| && Pays(moves, k) && moves[k].id == x;
      assert three[k] == moves[k];
    }
    forall x | x in Earners(three) ensures x in PaidIds(moves) {
      var k :| 0 <= k < |three| && three[k].Finished? && three[k].earns && three[k].id == x;
      EarlyOnesHaveRoom(moves, k);
      assert Pays(moves, k) && moves[k].id == x;
    }
  }

  lemma PaidWithin(moves: seq<Move>)
    requires Straight(moves)
    ensures PaidIds(moves) <= IdsOf(moves)
    ensures |moves| <= 3 && AllEarn(moves) ==> PaidIds(moves) == IdsOf(moves)
  {
    hide HasRoom;
    forall x | x in PaidIds(moves) ensures x in IdsOf(moves) {
      var k :| 0 <= k < |moves| && Pays(moves, k) && moves[k].id == x;
    }
    if |moves| <= 3 && AllEarn(moves) {
      forall x | x in IdsOf(moves) ensures x in PaidIds(moves) {
        var k :| 0 <= k < |moves| && moves[k].id == x;
        EarlyOnesHaveRoom(moves, k);
        assert Pays(moves, k);
      }
    }
  }

  /** When all had something to earn, the first three pay, and a later one does if it overtakes. */
  lemma {:induction false} OvertakingPays(moves: seq<Move>)
    requires Straight(moves) && AllEarn(moves)
    ensures |moves| >= 3 ==> |PaidIds(moves)| >= 3
    ensures Overtakes(moves) ==> |PaidIds(moves)| > 3
  {
    hide HasRoom, PaidIds;
    if |moves| <= 3 {
      PaidWithin(moves);
      StraightDone(moves);
    } else {
      var n := |moves| - 1;
      OvertakingPays(moves[..n]);
      PaidIdsNext(moves);
      PaidWithin(moves[..n]);
      assert moves[n].id !in IdsOf(moves[..n]);
      if Overtakes(moves) && !HasRoom(moves, n) {
        var k :| 3 <= k < |moves| && HasRoom(moves, k);
        assert HasRoom(moves[..n], k) by { PrefixHasRoom(moves, n, k); }
      }
    }
  }

  lemma PrefixHasRoom(moves: seq<Move>, n: nat, k: nat)
    requires k < n <= |moves|
    ensures HasRoom(moves[..n], k) == HasRoom(moves, k)
  {
    assert moves[..n][..k] == moves[..k];
  }

  /**
   * Without a refill the order of completion decides: unless one overtakes three others at most
   * three are paid for, exactly the earners among the first three to complete; and when all had
   * something to earn, more than three are paid for exactly if one overtakes.
   */
  lemma StraightCap(moves: seq<Move>)
    requires Straight(moves)
    ensures !Overtakes(moves) ==> |PaidIds(moves)| <= 3 && PaidIds(moves) == Earners(FirstThree(moves))
    ensures AllEarn(moves) ==> (|PaidIds(moves)| <= 3 <==> !Overtakes(moves))
    ensures Ascending(moves) ==> !Overtakes(moves)
  {
    hide PaidIds, Overtakes;
    if !Overtakes(moves) {
      FirstThreePay(moves);
      StraightDone(FirstThree(moves));
      EarnersWithin(FirstThree(moves));
      SubsetSize(Earners(FirstThree(moves)), IdsOf(FirstThree(moves)));
    }
    if AllEarn(moves) { OvertakingPays(moves); }
    if Ascending(moves) { AscendingNeverOvertakes(moves); }
  }

  lemma EarnersWithin(moves: seq<Move>)
    ensures Earners(moves) <= IdsOf(moves)
  {
  }

  lemma DescendingHasRoom(moves: seq<Move>, k: nat)
    requires Straight(moves) && Descending(moves) && k < |moves|
    ensures HasRoom(moves, k)
  {
    StraightDone(moves[..k]);
    hide DoneAfter, Straight;
    assert LowerThan(DoneAfter(moves[..k]), moves[k].id) == {};
  }

  /** Orders that complete from the newest to the oldest all pay, however many they are. */
  lemma DescendingOrdersBeatTheCap(moves: seq<Move>)
    requires Straight(moves) && AllEarn(moves) && Descending(moves)
    ensures PaidIds(moves) == IdsOf(moves) && |PaidIds(moves)| == |moves|
  {
    PaidWithin(moves);
    StraightDone(moves);
    hide HasRoom, DoneAfter;
    forall x | x in IdsOf(moves) ensures x in PaidIds(moves) {
      var k :| 0 <= k < |moves| && moves[k].id == x;
      DescendingHasRoom(moves, k);
      assert Pays(moves, k);
    }
  }

  // ---------------------------------------------------------------- the history of a run

  predicate WorthCommission(o: Order) {
    Commission(o.charge, REFERRAL_ORDER_COMMISSION_PERCENT) > 0
  }

  /** What a call adds: a completion earns when the buyer has a referrer and 8% of the order is a paisa. */
  function MovesOf(s: Db, e: Event, buyer: UserId): seq<Move> {
    if CompletesFor(s, e, buyer) then
      [Finished(e.order, ReferrerOf(s.bank, buyer).Some? && WorthCommission(s.orders[e.order]))]
    else if Reopens(s, e, buyer) then [Reopened(e.order)]
    else []
  }

  /** The history of a buyer's completions and refills over a run. */
  function Moves(s: Db, events: seq<Event>, buyer: UserId): seq<Move> {
    if events == [] then []
    else
      var earlier, e := events[..|events| - 1], events[|events| - 1];
      Moves(s, earlier, buyer) + MovesOf(Run(s, earlier), e, buyer)
  }

  predicate NeverReopened(s: Db, events: seq<Event>, buyer: UserId) {
    events != [] ==>
      var earlier, e := events[..|events| - 1], events[|events| - 1];
      NeverReopened(s, earlier, buyer) && !Reopens(Run(s, earlier), e, buyer)
  }

  function CompletedOrders(s: Db, buyer: UserId): set<nat> {
    set i: nat | i < |s.orders| && s.orders[i].user == buyer && s.orders[i].status == Completed
  }

  /** The orders of a buyer that a commission was paid for. */
  function CommissionedOrders(s: Db, buyer: UserId): set<nat> {
    set i: nat | i < |s.orders| && s.orders[i].user == buyer && Commissioned(s, i)
  }

  /** The orders that stand completed after a call. */
  function DoneNext(s: Db, e: Event, buyer: UserId, done: set<nat>): set<nat> {
    if CompletesFor(s, e, buyer) then done + {e.order}
    else if Reopens(s, e, buyer) then done - {e.order}
    else done
  }

  /** The order that a call completes when a commission is due for it. */
  function PaidNow(s: Db, e: Event, buyer: UserId): set<nat> {
    if CompletesFor(s, e, buyer) && OrderCommissionDue(CompletedState(s, e), e.order) > 0 then {e.order} else {}
  }

  /** The history says which orders of the buyer stand completed, and which were paid for. */
  ghost predicate Tracks(s: Db, moves: seq<Move>, buyer: UserId) {
    DoneAfter(moves) == CompletedOrders(s, buyer) && PaidIds(moves) == CommissionedOrders(s, buyer)
  }

  lemma ReopeningMoves(s: Db, e: Event, buyer: UserId)
    requires Reopens(s, e, buyer)
    ensures Step(s, e).orders == s.orders[e.order := Step(s, e).orders[e.order]]
    ensures Step(s, e).orders[e.order].status == Refilling
  {
    RefillRow(s, e.order, e.actor, e.staff, e.open, e.accepted);
  }

  lemma DoneRow(s: Db, e: Event, buyer: UserId, i: nat)
    requires OrdersOk(s) && LedgerOk(s.bank)
    ensures i in CompletedOrders(Step(s, e), buyer) <==> i in DoneNext(s, e, buyer, CompletedOrders(s, buyer))
  {
    hide LedgerOk, OrdersOk, Handle, Step;
    StepKeepsRows(s, e);
    FailureChangesNothing(s, e);
    if Reopens(s, e, buyer) { ReopeningMoves(s, e, buyer); }
    if i < |Step(s, e).orders| { CompletionStep(s, e, i); }
  }

  lemma FailureChangesNothing(s: Db, e: Event)
    ensures Handle(s, e).Failure? ==> Step(s, e) == s
  {
    hide Handle;
  }

  lemma DoneRows(s: Db, e: Event, buyer: UserId)
    requires OrdersOk(s) && LedgerOk(s.bank)
    ensures CompletedOrders(Step(s, e), buyer) == DoneNext(s, e, buyer, CompletedOrders(s, buyer))
  {
    hide OrdersOk, LedgerOk, Step, CompletedOrders, DoneNext;
    var before, after := DoneNext(s, e, buyer, CompletedOrders(s, buyer)), CompletedOrders(Step(s, e), buyer);
    forall i | i in after ensures i in before { DoneRow(s, e, buyer, i); }
    forall i | i in before ensures i in after { DoneRow(s, e, buyer, i); }
  }

  lemma DoneStep(s: Db, e: Event, moves: seq<Move>, buyer: UserId)
    ensures DoneAfter(moves + MovesOf(s, e, buyer)) == DoneNext(s, e, buyer, DoneAfter(moves))
  {
    DoneAfterNext(moves, MovesOf(s, e, buyer));
    hide DoneAfter, WorthCommission, ReferrerOf;
  }

  lemma DoneAfterNext(moves: seq<Move>, more: seq<Move>)
    requires |more| <= 1
    ensures DoneAfter(moves + more)
         == if more == [] then DoneAfter(moves)
           else if more[0].Finished? then DoneAfter(moves) + {more[0].id} else DoneAfter(moves) - {more[0].id}
  {
    if more == [] { assert moves + more == moves; } else { assert (moves + more)[..|moves|] == moves; }
  }

  /** The query behind the cap counts the lower ids that stand completed. */
  lemma {:induction false} CompletedBelowIsSize(s: Db, buyer: UserId, n: nat)
    requires n <= |s.orders|
    ensures Sum(s.orders[..n], CompletedBy(buyer)) == |LowerThan(CompletedOrders(s, buyer), n)|
  {
    var done := CompletedOrders(s, buyer);
    if n == 0 {
      assert LowerThan(done, 0) == {};
    } else {
      assert n - 1 in done <==> CompletedBy(buyer)(s.orders[n - 1]) == 1;
      hide CompletedOrders, LowerThan;
      CompletedBelowIsSize(s, buyer, n - 1);
      LowerThanNext(done, n - 1);
      assert s.orders[..n][..n - 1] == s.orders[..n - 1];
    }
  }

  lemma LowerThanNext(ids: set<nat>, x: nat)
    ensures |LowerThan(ids, x + 1)| == |LowerThan(ids, x)| + if x in ids then 1 else 0
  {
    assert LowerThan(ids, x + 1) == LowerThan(ids, x) + if x in ids then {x} else {};
  }

  lemma DueAtCompletion(s: Db, e: Event, buyer: UserId)
    requires CompletesFor(s, e, buyer)
    ensures OrderCommissionDue(CompletedState(s, e), e.order) > 0 <==>
              && ReferrerOf(s.bank, buyer).Some? && WorthCommission(s.orders[e.order])
              && |LowerThan(CompletedOrders(s, buyer), e.order)| < 3
  {
    hide Commission, CompletedOrders;
    CompletedBelowIsSize(s, buyer, e.order);
    assert CompletedState(s, e).orders[..e.order] == s.orders[..e.order];
  }

  /** What a call pays for is what its move pays for. */
  lemma MovePays(s: Db, e: Event, moves: seq<Move>, buyer: UserId)
    requires DoneAfter(moves) == CompletedOrders(s, buyer)
    ensures PaidIds(moves + MovesOf(s, e, buyer)) == PaidIds(moves) + PaidNow(s, e, buyer)
  {
    if CompletesFor(s, e, buyer) { DueAtCompletion(s, e, buyer); }
    PaidIdsAfter(moves, MovesOf(s, e, buyer));
    hide PaidIds, DoneAfter, LowerThan, CompletedOrders, OrderCommissionDue, WorthCommission, ReferrerOf, CompletesFor,
      Reopens;
  }

  /** At most one more move: what it adds to the orders paid for. */
  lemma PaidIdsAfter(moves: seq<Move>, more: seq<Move>)
    requires |more| <= 1
    ensures PaidIds(moves + more)
         == PaidIds(moves)
           + if more != [] && more[0].Finished? && more[0].earns
                && |LowerThan(DoneAfter(moves), more[0].id)| < 3
             then {more[0].id} else {}
  {
    hide PaidIds, DoneAfter, LowerThan;
    if more == [] {
      assert moves + more == moves;
    } else {
      assert (moves + more)[..|moves|] == moves;
      PaidIdsNext(moves + more);
    }
  }

  lemma PaidRow(s: Db, e: Event, buyer: UserId, i: nat)
    requires OrdersOk(s) && CommissionsOk(s)
    ensures i in CommissionedOrders(Step(s, e), buyer) <==> i in CommissionedOrders(s, buyer) + PaidNow(s, e, buyer)
  {
    hide OrdersOk, LedgerOk, Step, OrderCommissionDue, CompletedState, Commissioned;
    KeyStep(s, e, i);
    StepKeepsRows(s, e);
    if i >= |s.orders| { NoKeyBeyond(s, i); }
  }

  lemma PaidRows(s: Db, e: Event, buyer: UserId)
    requires OrdersOk(s) && CommissionsOk(s)
    ensures CommissionedOrders(Step(s, e), buyer) == CommissionedOrders(s, buyer) + PaidNow(s, e, buyer)
  {
    hide OrdersOk, LedgerOk, CommissionsOk, Step, CommissionedOrders, PaidNow;
    var before, after := CommissionedOrders(s, buyer) + PaidNow(s, e, buyer), CommissionedOrders(Step(s, e), buyer);
    forall i | i in after ensures i in before { PaidRow(s, e, buyer, i); }
    forall i | i in before ensures i in after { PaidRow(s, e, buyer, i); }
  }

  lemma TracksStep(s: Db, e: Event, moves: seq<Move>, buyer: UserId)
    requires OrdersOk(s) && CommissionsOk(s) && Tracks(s, moves, buyer)
    ensures Tracks(Step(s, e), moves + MovesOf(s, e, buyer), buyer)
  {
    hide OrdersOk, LedgerOk, Step, DoneAfter, PaidIds, CompletedOrders, CommissionedOrders, MovesOf, DoneNext, PaidNow;
    DoneRows(s, e, buyer);
    DoneStep(s, e, moves, buyer);
    PaidRows(s, e, buyer);
    MovePays(s, e, moves, buyer);
  }

  lemma {:induction false} TracksRun(s: Db, events: seq<Event>, buyer: UserId)
    requires OrdersOk(s) && CommissionsOk(s) && Tracks(s, [], buyer)
    ensures Tracks(Run(s, events), Moves(s, events, buyer), buyer)
  {
    hide OrdersOk, CommissionsOk, Tracks, Step, MovesOf;
    if events != [] {
      var earlier, e := events[..|events| - 1], events[|events| - 1];
      TracksRun(s, earlier, buyer);
      RunKeepsCommissions(s, earlier);
      TracksStep(Run(s, earlier), e, Moves(s, earlier, buyer), buyer);
    }
  }

  // ---------------------------------------------------------------- the theorems over runs

  /**
   * Which orders of a buyer are paid for, over every run from the empty database: those that at
   * some point completed while the buyer had a referrer, fewer than three of the buyer's orders
   * with lower ids stood completed, and 8% of the charge was at least a paisa.
   */
  lemma CommissionedIff(coupons: map<Code, Coupon>, events: seq<Event>, buyer: UserId)
    ensures var s := EmptyDb(coupons);
            && CommissionedOrders(Run(s, events), buyer) == PaidIds(Moves(s, events, buyer))
            && CompletedOrders(Run(s, events), buyer) == DoneAfter(Moves(s, events, buyer))
  {
    EmptyCommissions(coupons);
    NothingPaid();
    assert Tracks(EmptyDb(coupons), [], buyer);
    hide OrdersOk, CommissionsOk, Run, EmptyDb;
    TracksRun(EmptyDb(coupons), events, buyer);
  }

  /**
   * The cap over every run from the empty database: at most three orders of a buyer are paid for
   * if and only if no call ever completes a further order that earns and has room while three are
   * paid for already.
   */
  lemma CapOverRuns(coupons: map<Code, Coupon>, events: seq<Event>, buyer: UserId)
    ensures var s := EmptyDb(coupons);
            |CommissionedOrders(Run(s, events), buyer)| <= 3 <==> !BreaksCap(Moves(s, events, buyer))
  {
    hide Run, EmptyDb, Moves, BreaksCap, PaidIds, CommissionedOrders;
    CommissionedIff(coupons, events, buyer);
    CapHoldsIff(Moves(EmptyDb(coupons), events, buyer));
  }

  // ---------------------------------------------------------------- runs without a refill

  lemma {:induction false} StraightRun(coupons: map<Code, Coupon>, events: seq<Event>, buyer: UserId)
    requires NeverReopened(EmptyDb(coupons), events, buyer)
    ensures Straight(Moves(EmptyDb(coupons), events, buyer))
  {
    hide Run, EmptyDb, CompletesFor, Reopens, Straight;
    var s := EmptyDb(coupons);
    if events == [] {
      assert Straight([]) by { NothingIsStraight(); }
    } else {
      var earlier, e := events[..|events| - 1], events[|events| - 1];
      StraightRun(coupons, earlier, buyer);
      CommissionedIff(coupons, earlier, buyer);
      StraightStep(Run(s, earlier), e, Moves(s, earlier, buyer), buyer);
    }
  }

  lemma NothingIsStraight()
    ensures Straight([])
  {
  }

  lemma StraightStep(s: Db, e: Event, moves: seq<Move>, buyer: UserId)
    requires Straight(moves) && DoneAfter(moves) == CompletedOrders(s, buyer) && !Reopens(s, e, buyer)
    ensures Straight(moves + MovesOf(s, e, buyer))
  {
    StraightDone(moves);
    if CompletesFor(s, e, buyer) { CompletingIsOpen(s, e, buyer); }
    hide Straight, DoneAfter, WorthCommission, ReferrerOf, CompletedOrders, CompletesFor, Reopens;
    if CompletesFor(s, e, buyer) {
      StraightSnoc(moves, MovesOf(s, e, buyer)[0]);
    } else {
      assert moves + MovesOf(s, e, buyer) == moves;
    }
  }

  lemma CompletingIsOpen(s: Db, e: Event, buyer: UserId)
    requires CompletesFor(s, e, buyer)
    ensures (e.Sync? || e.Refill?) && e.order !in CompletedOrders(s, buyer)
  {
  }

  lemma StraightSnoc(moves: seq<Move>, m: Move)
    requires Straight(moves) && m.Finished? && m.id !in IdsOf(moves)
    ensures Straight(moves + [m])
  {
    forall k | 0 <= k < |moves| ensures moves[k].id != m.id {}
  }

  /**
   * The cap over the runs that send none of the buyer's completed orders back for a refill: unless
   * one overtakes three others, exactly the earners among the first three to complete are paid
   * for; when all had something to earn, more than three are exactly if one overtakes.
   */
  lemma CapWithoutRefills(coupons: map<Code, Coupon>, events: seq<Event>, buyer: UserId)
    requires NeverReopened(EmptyDb(coupons), events, buyer)
    ensures var moves := Moves(EmptyDb(coupons), events, buyer);
            var paid := CommissionedOrders(Run(EmptyDb(coupons), events), buyer);
            && (!Overtakes(moves) ==> |paid| <= 3 && paid == Earners(FirstThree(moves)))
            && (AllEarn(moves) ==> (|paid| <= 3 <==> !Overtakes(moves)))
            && (Ascending(moves) ==> |paid| <= 3)
  {
    hide Run, EmptyDb, Moves, NeverReopened, Straight, Overtakes, AllEarn, Ascending, PaidIds, CommissionedOrders;
    StraightRun(coupons, events, buyer);
    CommissionedIff(coupons, events, buyer);
    StraightCap(Moves(EmptyDb(coupons), events, buyer));
  }
}
