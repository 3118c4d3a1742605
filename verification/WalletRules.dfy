/** What each wallet call answers and moves, in a replayable ledger. */
module WalletRules {
  import opened Results
  import opened Keys
  import opened Wallet

  /** What must be there: available funds to debit or reserve, a large enough hold to capture. */
  predicate IsCovered(c: Call, row: User) {
    match c
    case DebitCall(_, amount, _, _) => row.reserved + amount <= row.balance
    case ReserveCall(_, amount, _, _) => row.reserved + amount <= row.balance
    case CaptureCall(_, amount, _, _) => amount <= row.reserved
    case _ => true
  }

  function BalanceBy(c: Call): int {
    match c
    case CreditCall(_, amount, _, _) => amount
    case DebitCall(_, amount, _, _) => -amount
    case CaptureCall(_, amount, _, _) => -amount
    case _ => 0
  }

  function ReservedBy(c: Call, row: User): int {
    match c
    case ReserveCall(_, amount, _, _) => amount
    case ReleaseCall(_, amount, _, _) => if amount <= row.reserved then -amount else -row.reserved
    case CaptureCall(_, amount, _, _) => -amount
    case _ => 0
  }

  function KindOf(c: Call): Kind {
    match c
    case CreditCall(_, _, _, _) => CreditEntry
    case DebitCall(_, _, _, _) => DebitEntry
    case ReserveCall(_, _, _, _) => ReserveEntry
    case ReleaseCall(_, _, _, _) => ReleaseEntry
    case CaptureCall(_, _, _, _) => CaptureEntry
  }

  /** The two columns of one user move by these amounts, and nothing else about anybody changes. */
  ghost predicate Shifts(b: Bank, after: Bank, u: UserId, balanceBy: int, reservedBy: int)
    requires u in b.users
  {
    var row := b.users[u];
    after.users == b.users[u := row.(balance := row.balance + balanceBy, reserved := row.reserved + reservedBy)]
  }

  /**
   * A wallet call of a known user goes through exactly when its amount is positive and it repeats
   * an earlier one or is covered; a repeat changes nothing, and any other call moves the user's two
   * columns by what it is for and writes one entry that says so.
   */
  lemma WalletAnswers(b: Bank, c: Call)
    requires LedgerOk(b) && c.user in b.users
    ensures Attempt(b, c).Success? <==> c.amount > 0 && (HasKey(b.ledger, c.key) || IsCovered(c, b.users[c.user]))
    ensures Attempt(b, c).Success? ==> LedgerOk(Attempt(b, c).value)
    ensures Attempt(b, c).Success? && HasKey(b.ledger, c.key) ==> Attempt(b, c).value == b
    ensures Attempt(b, c).Success? && !HasKey(b.ledger, c.key) ==>
              var row, after := b.users[c.user], Attempt(b, c).value;
              && Shifts(b, after, c.user, BalanceBy(c), ReservedBy(c, row))
              && after.ledger == b.ledger + [Entry(c.user, BalanceBy(c), KindOf(c), c.ref, c.key,
                   row.balance + BalanceBy(c), row.reserved + ReservedBy(c, row))]
  {
    assert CachedFromLedger(b, c.user);
    hide LedgerOk, CachedFromLedger, HasKey, Attempt, IsCovered, BalanceBy, ReservedBy, KindOf, Shifts;
    AttemptKeepsLedger(b, c);
    AcceptedCall(b, c);
    if c.amount > 0 && IsCovered(c, b.users[c.user]) { PostedCall(b, c); }
  }

  lemma AcceptedCall(b: Bank, c: Call)
    requires c.user in b.users && 0 <= b.users[c.user].reserved <= b.users[c.user].balance
    ensures Attempt(b, c).Success? <==> c.amount > 0 && (HasKey(b.ledger, c.key) || IsCovered(c, b.users[c.user]))
    ensures c.amount > 0 && HasKey(b.ledger, c.key) ==> Attempt(b, c) == Success(b)
  {
    hide HasKey;
  }

  lemma PostedCall(b: Bank, c: Call)
    requires c.user in b.users && 0 <= b.users[c.user].reserved <= b.users[c.user].balance
    requires c.amount > 0 && IsCovered(c, b.users[c.user])
    ensures Attempt(b, c).Success?
    ensures !HasKey(b.ledger, c.key) ==>
              var row, after := b.users[c.user], Attempt(b, c).value;
              && Shifts(b, after, c.user, BalanceBy(c), ReservedBy(c, row))
              && after.ledger == b.ledger + [Entry(c.user, BalanceBy(c), KindOf(c), c.ref, c.key,
                   row.balance + BalanceBy(c), row.reserved + ReservedBy(c, row))]
  {
    hide HasKey;
  }
}
