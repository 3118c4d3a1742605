/**
 * The wallet ledger: five operations that each append one entry and move the cached columns
 * of one user. An operation whose key is already in the ledger replays: it changes nothing.
 */
module Wallet {
  import opened Results
  import opened Sums
  import opened Keys

  datatype Kind = CreditEntry | DebitEntry | ReserveEntry | ReleaseEntry | CaptureEntry

  datatype Entry = Entry(
    user: UserId,
    amount: int,
    kind: Kind,
    ref: Ref,
    key: Key,
    balanceAfter: int,
    reservedAfter: int
  )

  datatype User = User(
    balance: int,
    reserved: int,
    referredBy: Option<UserId>,
    banned: bool,
    termsAccepted: bool
  )

  /** The two tables the wallet writes. */
  datatype Bank = Bank(users: map<UserId, User>, ledger: seq<Entry>)

  function Available(user: User): int {
    user.balance - user.reserved
  }

  predicate HasKey(ledger: seq<Entry>, key: Key) {
    exists i | 0 <= i < |ledger| :: ledger[i].key == key
  }

  // ---------------------------------------------------------------- operations

  /** Appends an entry and rewrites the cached columns, unless the wallet would become invalid. */
  function Append(
    b: Bank, user: UserId, amount: int, kind: Kind, ref: Ref, key: Key, balance: int, reserved: int
  ): Result<Bank>
    requires user in b.users
  {
    if balance < 0 || reserved < 0 then Failure(WalletInvariantViolated)
    else if reserved > balance then Failure(InsufficientFunds)
    else
      var entry := Entry(user, amount, kind, ref, key, balance, reserved);
      var row := b.users[user].(balance := balance, reserved := reserved);
      Success(Bank(b.users[user := row], b.ledger + [entry]))
  }

  function Credit(b: Bank, user: UserId, amount: int, ref: Ref, key: Key): Result<Bank>
    requires user in b.users
  {
    if amount <= 0 then Failure(AmountNotPositive)
    else if HasKey(b.ledger, key) then Success(b)
    else
      var row := b.users[user];
      Append(b, user, amount, CreditEntry, ref, key, row.balance + amount, row.reserved)
  }

  function Debit(b: Bank, user: UserId, amount: int, ref: Ref, key: Key): Result<Bank>
    requires user in b.users
  {
    if amount <= 0 then Failure(AmountNotPositive)
    else if HasKey(b.ledger, key) then Success(b)
    else if Available(b.users[user]) < amount then Failure(InsufficientFunds)
    else
      var row := b.users[user];
      Append(b, user, -amount, DebitEntry, ref, key, row.balance - amount, row.reserved)
  }

  function Reserve(b: Bank, user: UserId, amount: int, ref: Ref, key: Key): Result<Bank>
    requires user in b.users
  {
    if amount <= 0 then Failure(AmountNotPositive)
    else if HasKey(b.ledger, key) then Success(b)
    else if Available(b.users[user]) < amount then Failure(InsufficientFunds)
    else
      var row := b.users[user];
      Append(b, user, 0, ReserveEntry, ref, key, row.balance, row.reserved + amount)
  }

  /** Gives a hold back; a hold larger than what is reserved is clamped to it. */
  function Release(b: Bank, user: UserId, amount: int, ref: Ref, key: Key): Result<Bank>
    requires user in b.users
  {
    if amount <= 0 then Failure(AmountNotPositive)
    else if HasKey(b.ledger, key) then Success(b)
    else
      var row := b.users[user];
      var freed := if row.reserved < amount then row.reserved else amount;
      var left := if freed <= 0 then 0 else row.reserved - freed;
      Append(b, user, 0, ReleaseEntry, ref, key, row.balance, left)
  }

  /** Turns a hold into a real debit. */
  function Capture(b: Bank, user: UserId, amount: int, ref: Ref, key: Key): Result<Bank>
    requires user in b.users
  {
    if amount <= 0 then Failure(AmountNotPositive)
    else if HasKey(b.ledger, key) then Success(b)
    else if b.users[user].reserved < amount then Failure(CaptureExceedsReserve)
    else
      var row := b.users[user];
      Append(b, user, -amount, CaptureEntry, ref, key, row.balance - amount, row.reserved - amount)
  }

  lemma NothingToCredit(b: Bank, u: UserId, amount: int, ref: Ref, key: Key)
    requires u in b.users && amount <= 0
    ensures Credit(b, u, amount, ref, key).Failure?
  {
  }

  // ---------------------------------------------------------------- what the ledger keeps

  function AmountOf(user: UserId): Entry -> int {
    (e: Entry) => if e.user == user then e.amount else 0
  }

  /** The newest entry of a user. */
  function LastOf(ledger: seq<Entry>, user: UserId): Option<Entry> {
    if ledger == [] then None
    else if ledger[|ledger| - 1].user == user then Some(ledger[|ledger| - 1])
    else LastOf(ledger[..|ledger| - 1], user)
  }

  ghost predicate UniqueKeys(ledger: seq<Entry>) {
    forall i, j | 0 <= i < j < |ledger| :: ledger[i].key != ledger[j].key
  }

  /** Entry `i` records the running balance of its user, and a hold that the balance covers. */
  ghost predicate Replays(ledger: seq<Entry>, i: nat)
    requires i < |ledger|
  {
    && ledger[i].balanceAfter == Sum(ledger[..i + 1], AmountOf(ledger[i].user))
    && 0 <= ledger[i].reservedAfter <= ledger[i].balanceAfter
  }

  ghost predicate CachedFromLedger(b: Bank, user: UserId)
    requires user in b.users
  {
    var row := b.users[user];
    && row.balance == Sum(b.ledger, AmountOf(user))
    && 0 <= row.reserved <= row.balance
    && match LastOf(b.ledger, user)
       case None => row.balance == 0 && row.reserved == 0
       case Some(e) => row.balance == e.balanceAfter && row.reserved == e.reservedAfter
  }

  ghost predicate LedgerOk(b: Bank) {
    && UniqueKeys(b.ledger)
    && (forall i | 0 <= i < |b.ledger| :: b.ledger[i].user in b.users)
    && (forall i | 0 <= i < |b.ledger| :: Replays(b.ledger, i))
    && (forall u | u in b.users :: CachedFromLedger(b, u))
  }

  /** The one place where entries are written keeps the ledger replayable. */
  lemma AppendKeepsLedger(
    b: Bank, user: UserId, amount: int, kind: Kind, ref: Ref, key: Key, balance: int, reserved: int
  )
    requires user in b.users && LedgerOk(b) && !HasKey(b.ledger, key)
    requires balance == b.users[user].balance + amount
    requires Append(b, user, amount, kind, ref, key, balance, reserved).Success?
    ensures LedgerOk(Append(b, user, amount, kind, ref, key, balance, reserved).value)
  {
    var after := Append(b, user, amount, kind, ref, key, balance, reserved).value;
    var entry := Entry(user, amount, kind, ref, key, balance, reserved);
    assert after == Bank(b.users[user := b.users[user].(balance := balance, reserved := reserved)], b.ledger + [entry]);
    hide Append;
    forall i | 0 <= i < |after.ledger| ensures Replays(after.ledger, i) { ReplaysNext(b, entry, i); }
    forall u | u in after.users ensures CachedFromLedger(after, u) { CachedNext(b, after, entry, u); }
    hide Replays, CachedFromLedger;
  }

  /** Every entry still replays when one is added that continues the balance of its user. */
  lemma ReplaysNext(b: Bank, entry: Entry, i: nat)
    requires LedgerOk(b) && entry.user in b.users && i <= |b.ledger|
    requires entry.balanceAfter == b.users[entry.user].balance + entry.amount
    requires 0 <= entry.reservedAfter <= entry.balanceAfter
    ensures Replays(b.ledger + [entry], i)
  {
    if i < |b.ledger| {
      assert (b.ledger + [entry])[..i + 1] == b.ledger[..i + 1];
      assert Replays(b.ledger, i);
    } else {
      assert (b.ledger + [entry])[..i + 1] == b.ledger + [entry];
      SumAppend(b.ledger, entry, AmountOf(entry.user));
      assert CachedFromLedger(b, entry.user);
    }
  }

  lemma CachedNext(b: Bank, after: Bank, entry: Entry, u: UserId)
    requires LedgerOk(b) && entry.user in b.users && u in b.users
    requires entry.balanceAfter == b.users[entry.user].balance + entry.amount
    requires 0 <= entry.reservedAfter <= entry.balanceAfter
    requires after.ledger == b.ledger + [entry]
    requires after.users == b.users[entry.user :=
               b.users[entry.user].(balance := entry.balanceAfter, reserved := entry.reservedAfter)]
    ensures CachedFromLedger(after, u)
  {
    assert CachedFromLedger(b, u);
    hide LedgerOk;
    assert (b.ledger + [entry])[..|b.ledger|] == b.ledger;
    SumAppend(b.ledger, entry, AmountOf(u));
  }

  // ---------------------------------------------------------------- runs of wallet calls

  datatype Call =
    | CreditCall(user: UserId, amount: int, ref: Ref, key: Key)
    | DebitCall(user: UserId, amount: int, ref: Ref, key: Key)
    | ReserveCall(user: UserId, amount: int, ref: Ref, key: Key)
    | ReleaseCall(user: UserId, amount: int, ref: Ref, key: Key)
    | CaptureCall(user: UserId, amount: int, ref: Ref, key: Key)

  function Attempt(b: Bank, c: Call): Result<Bank> {
    if c.user !in b.users then Failure(UnknownUser)
    else
      match c
      case CreditCall(u, amount, ref, key) => Credit(b, u, amount, ref, key)
      case DebitCall(u, amount, ref, key) => Debit(b, u, amount, ref, key)
      case ReserveCall(u, amount, ref, key) => Reserve(b, u, amount, ref, key)
      case ReleaseCall(u, amount, ref, key) => Release(b, u, amount, ref, key)
      case CaptureCall(u, amount, ref, key) => Capture(b, u, amount, ref, key)
  }

  /** A call that raises is rolled back. */
  function Perform(b: Bank, c: Call): Bank {
    match Attempt(b, c)
    case Success(after) => after
    case Failure(_) => b
  }

  function PerformAll(b: Bank, calls: seq<Call>): Bank {
    if calls == [] then b else Perform(PerformAll(b, calls[..|calls| - 1]), calls[|calls| - 1])
  }

  /** Every call that is neither refused nor a replay is one append, moving the balance by its amount. */
  lemma AttemptIsAppend(b: Bank, c: Call) returns (amount: int, kind: Kind, balance: int, reserved: int)
    requires c.user in b.users && !HasKey(b.ledger, c.key) && Attempt(b, c).Success?
    ensures balance == b.users[c.user].balance + amount
    ensures Attempt(b, c) == Append(b, c.user, amount, kind, c.ref, c.key, balance, reserved)
  {
    var row := b.users[c.user];
    match c
    case CreditCall(_, a, _, _) =>
      amount, kind, balance, reserved := a, CreditEntry, row.balance + a, row.reserved;
    case DebitCall(_, a, _, _) =>
      amount, kind, balance, reserved := -a, DebitEntry, row.balance - a, row.reserved;
    case ReserveCall(_, a, _, _) =>
      amount, kind, balance, reserved := 0, ReserveEntry, row.balance, row.reserved + a;
    case ReleaseCall(_, a, _, _) =>
      var freed := if row.reserved < a then row.reserved else a;
      amount, kind, balance, reserved := 0, ReleaseEntry, row.balance, if freed <= 0 then 0 else row.reserved - freed;
    case CaptureCall(_, a, _, _) =>
      amount, kind, balance, reserved := -a, CaptureEntry, row.balance - a, row.reserved - a;
  }

  lemma AttemptKeepsLedger(b: Bank, c: Call)
    requires LedgerOk(b)
    ensures LedgerOk(Perform(b, c))
  {
    if c.user in b.users && !HasKey(b.ledger, c.key) && Attempt(b, c).Success? {
      var amount, kind, balance, reserved := AttemptIsAppend(b, c);
      AppendKeepsLedger(b, c.user, amount, kind, c.ref, c.key, balance, reserved);
    }
  }

  /** Ledger replay: every interleaving of the five operations keeps the ledger and the cache in step. */
  lemma {:induction false} RunsKeepLedger(b: Bank, calls: seq<Call>)
    requires LedgerOk(b)
    ensures LedgerOk(PerformAll(b, calls))
  {
    if calls != [] {
      RunsKeepLedger(b, calls[..|calls| - 1]);
      AttemptKeepsLedger(PerformAll(b, calls[..|calls| - 1]), calls[|calls| - 1]);
    }
  }

  lemma PerformGrows(b: Bank, c: Call)
    ensures b.ledger <= Perform(b, c).ledger && b.users.Keys == Perform(b, c).users.Keys
  {
    if c.user in b.users && Attempt(b, c).Success? && !HasKey(b.ledger, c.key) {
      var amount, kind, balance, reserved := AttemptIsAppend(b, c);
      hide Attempt;
    }
  }

  /** The ledger is append-only: no call ever removes or rewrites an entry, or forgets a user. */
  lemma {:induction false} LedgerOnlyGrows(b: Bank, calls: seq<Call>)
    ensures b.ledger <= PerformAll(b, calls).ledger
    ensures b.users.Keys == PerformAll(b, calls).users.Keys
  {
    hide Perform;
    if calls != [] {
      LedgerOnlyGrows(b, calls[..|calls| - 1]);
      PerformGrows(PerformAll(b, calls[..|calls| - 1]), calls[|calls| - 1]);
    }
  }

  lemma {:induction false} PerformConcat(b: Bank, first: seq<Call>, second: seq<Call>)
    ensures PerformAll(b, first + second) == PerformAll(PerformAll(b, first), second)
  {
    if second == [] {
      assert first + second == first;
    } else {
      PerformConcat(b, first, second[..|second| - 1]);
      assert (first + second)[..|first + second| - 1] == first + second[..|second| - 1];
    }
  }

  /** Repeating a call that already succeeded changes nothing, wherever the repeat is inserted. */
  lemma RepeatsAreInvisible(b: Bank, before: seq<Call>, c: Call, between: seq<Call>, after: seq<Call>)
    requires Attempt(PerformAll(b, before), c).Success?
    ensures PerformAll(b, before + [c] + between + [c] + after) == PerformAll(b, before + [c] + between + after)
  {
    var b1 := PerformAll(b, before);
    var b2 := Perform(b1, c);
    PerformConcat(b, before, [c]);
    assert PerformAll(b1, [c]) == b2 by {
      assert PerformAll(b1, [c][..0]) == b1;
    }
    var b3 := PerformAll(b2, between);
    PerformConcat(b, before + [c], between);
    LedgerOnlyGrows(b2, between);
    assert HasKey(b3.ledger, c.key) by {
      var i :| 0 <= i < |b2.ledger| && b2.ledger[i].key == c.key;
      assert b3.ledger[i].key == c.key;
    }
    assert PerformAll(b3, [c]) == b3 by {
      assert PerformAll(b3, [c][..0]) == b3;
    }
    PerformConcat(b, before + [c] + between, [c]);
    PerformConcat(b, before + [c] + between + [c], after);
    PerformConcat(b, before + [c] + between, after);
  }
}
