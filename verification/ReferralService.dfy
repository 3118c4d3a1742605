/** Commissions, payouts and the pending forecast, performed on the session. */
module ReferralService {
  import opened Results
  import opened Sums
  import opened Rounding
  import opened Keys
  import opened Wallet
  import opened Tables
  import opened Referrals
  import opened Forecast
  import WalletService

  method CreditCompletedOrder(session: Store, i: nat) returns (raised: Option<Error>)
    requires i < |session.orders|
    modifies session
    ensures Ended(old(session.View()), CreditOrderCommission(old(session.View()), i), raised, session.View())
  {
    raised := None;
    var o := session.orders[i];
    if o.status != Completed || o.charge <= 0 || o.user !in session.users || session.users[o.user].referredBy.None? {
      return;
    }
    if CompletedBelow(session.orders, i) >= REFERRAL_ORDER_CAP {
      return;
    }
    var referrer := session.users[o.user].referredBy.value;
    if referrer !in session.users || referrer == o.user {
      return;
    }
    var amount := Commission(o.charge, REFERRAL_ORDER_COMMISSION_PERCENT);
    if amount > 0 {
      raised := WalletService.Credit(session, referrer, amount, ForReferredOrder(i), OrderCommissionKey(i));
    }
  }

  method CreditFirstDeposit(session: Store, p: nat) returns (raised: Option<Error>)
    requires p < |session.payments|
    modifies session
    ensures Ended(old(session.View()), CreditDepositCommission(old(session.View()), p), raised, session.View())
  {
    raised := None;
    var payment := session.payments[p];
    var buyer := payment.user;
    if buyer !in session.users || session.users[buyer].referredBy.None? || payment.amount <= 0 {
      return;
    }
    if Sum(session.payments, PaidPaymentOf(buyer)) > 1 {
      return;
    }
    var referrer := session.users[buyer].referredBy.value;
    if referrer !in session.users || referrer == buyer {
      return;
    }
    var amount := Commission(payment.amount, REFERRAL_DEPOSIT_COMMISSION_PERCENT);
    if amount > 0 {
      raised := WalletService.Credit(session, referrer, amount, ForReferredDeposit(p), DepositCommissionKey(buyer));
    }
  }

  method PayOut(session: Store, user: UserId, amount: int) returns (raised: Option<Error>)
    modifies session
    ensures Ended(old(session.View()), RequestPayout(old(session.View()), user, amount), raised, session.View())
  {
    if user !in session.users {
      return Some(UnknownUser);
    }
    if amount < MIN_PAYOUT_PAISE {
      return Some(BelowMinimumPayout);
    }
    if Available(session.users[user]) < amount {
      return Some(InsufficientFunds);
    }
    var n := |session.payouts|;
    raised := WalletService.Debit(session, user, amount, ForPayout(n), PayoutKey(n));
    if raised.None? {
      session.payouts := session.payouts + [Payout(user, amount)];
    }
  }

  /** After `n` orders, every buyer of the downline used up one slot per open order, as far as there are slots. */
  ghost predicate SlotsUsed(s: Db, referrer: UserId, n: nat, used: map<UserId, int>)
    requires n <= |s.orders|
  {
    && (forall u :: u in used <==> InDownline(s.bank, u, referrer))
    && (forall u | u in used :: used[u] == Min(Sum(s.orders[..n], OpenBy(u)), Slots(s, u)))
  }

  lemma SlotsUnused(s: Db, referrer: UserId, used: map<UserId, int>)
    requires forall u :: u in used <==> InDownline(s.bank, u, referrer)
    requires forall u | u in used :: used[u] == 0
    ensures SlotsUsed(s, referrer, 0, used)
  {
    hide InDownline;
  }

  /** An open order counts exactly while its buyer has a slot left, and then uses it. */
  lemma SlotsUsedNext(s: Db, referrer: UserId, n: nat, used: map<UserId, int>)
    requires n < |s.orders| && SlotsUsed(s, referrer, n, used)
    ensures var o := s.orders[n];
            && (OpenFor(s, o, referrer) ==>
                 o.user in used && (Counts(s, n, referrer) <==> used[o.user] < Slots(s, o.user)))
            && SlotsUsed(s, referrer, n + 1, if Counts(s, n, referrer) then used[o.user := used[o.user] + 1] else used)
  {
    hide InDownline, Slots;
    var o := s.orders[n];
    var used' := if Counts(s, n, referrer) then used[o.user := used[o.user] + 1] else used;
    forall u | u in used' ensures used'[u] == Min(Sum(s.orders[..n + 1], OpenBy(u)), Slots(s, u)) {
      assert s.orders[..n + 1] == s.orders[..n] + [o];
      SumAppend(s.orders[..n], o, OpenBy(u));
    }
  }

  /** The pending commission shown to a referrer: one pass over the open orders, oldest first. */
  method PendingCommission(session: Store, referrer: UserId) returns (pending: int)
    ensures pending == PendingTo(session.View(), referrer, |session.orders|)
  {
    hide SlotsUsed, Counts, Slots, Commission;
    var s := session.View();
    pending := 0;
    var remaining := map u | u in session.users && InDownline(s.bank, u, referrer) :: Slots(s, u);
    var used := map u | u in remaining :: 0;
    SlotsUnused(s, referrer, used);
    var i := 0;
    while i < |session.orders|
      invariant 0 <= i <= |session.orders|
      invariant pending == PendingTo(s, referrer, i)
      invariant used.Keys == remaining.Keys && SlotsUsed(s, referrer, i, used)
    {
      var o := session.orders[i];
      SlotsUsedNext(s, referrer, i, used);
      if OpenFor(s, o, referrer) {
        if used[o.user] < remaining[o.user] {
          pending := pending + Commission(o.charge, REFERRAL_ORDER_COMMISSION_PERCENT);
          used := used[o.user := used[o.user] + 1];
        }
      } else {
        NotOpenCountsNot(s, i, referrer);
      }
      i := i + 1;
    }
  }
}
