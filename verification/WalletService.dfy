/** The wallet operations as the services perform them: on the session, in place. */
module WalletService {
  import opened Results
  import opened Keys
  import opened Wallet
  import opened Tables

  /** A call ended as its specification says: with the new bank, or with the error and nothing changed. */
  ghost predicate Posted(before: Db, spec: Result<Bank>, raised: Option<Error>, after: Db) {
    match spec
    case Success(bank) => raised == None && after == before.(bank := bank)
    case Failure(error) => raised == Some(error) && after == before
  }

  method Append(
    session: Store, user: UserId, amount: int, kind: Kind, ref: Ref, key: Key, balance: int, reserved: int
  ) returns (raised: Option<Error>)
    requires user in session.users
    modifies session`users, session`ledger
    ensures Posted(old(session.View()),
            Wallet.Append(old(session.Bank()), user, amount, kind, ref, key, balance, reserved),
                   raised, session.View())
  {
    if balance < 0 || reserved < 0 {
      return Some(WalletInvariantViolated);
    }
    if reserved > balance {
      return Some(InsufficientFunds);
    }
    session.users := session.users[user := session.users[user].(balance := balance, reserved := reserved)];
    session.ledger := session.ledger + [Entry(user, amount, kind, ref, key, balance, reserved)];
    return None;
  }

  method Credit(session: Store, user: UserId, amount: int, ref: Ref, key: Key) returns (raised: Option<Error>)
    requires user in session.users
    modifies session`users, session`ledger
    ensures Posted(old(session.View()), Wallet.Credit(old(session.Bank()), user, amount, ref, key), raised,
            session.View())
  {
    if amount <= 0 {
      return Some(AmountNotPositive);
    }
    if HasKey(session.ledger, key) {
      return None;
    }
    var row := session.users[user];
    raised := Append(session, user, amount, CreditEntry, ref, key, row.balance + amount, row.reserved);
  }

  method Debit(session: Store, user: UserId, amount: int, ref: Ref, key: Key) returns (raised: Option<Error>)
    requires user in session.users
    modifies session`users, session`ledger
    ensures Posted(old(session.View()), Wallet.Debit(old(session.Bank()), user, amount, ref, key), raised,
            session.View())
  {
    if amount <= 0 {
      return Some(AmountNotPositive);
    }
    if HasKey(session.ledger, key) {
      return None;
    }
    var row := session.users[user];
    if Available(row) < amount {
      return Some(InsufficientFunds);
    }
    raised := Append(session, user, -amount, DebitEntry, ref, key, row.balance - amount, row.reserved);
  }

  method Reserve(session: Store, user: UserId, amount: int, ref: Ref, key: Key) returns (raised: Option<Error>)
    requires user in session.users
    modifies session`users, session`ledger
    ensures Posted(old(session.View()), Wallet.Reserve(old(session.Bank()), user, amount, ref, key), raised,
            session.View())
  {
    if amount <= 0 {
      return Some(AmountNotPositive);
    }
    if HasKey(session.ledger, key) {
      return None;
    }
    var row := session.users[user];
    if Available(row) < amount {
      return Some(InsufficientFunds);
    }
    raised := Append(session, user, 0, ReserveEntry, ref, key, row.balance, row.reserved + amount);
  }

  method Release(session: Store, user: UserId, amount: int, ref: Ref, key: Key) returns (raised: Option<Error>)
    requires user in session.users
    modifies session`users, session`ledger
    ensures Posted(old(session.View()), Wallet.Release(old(session.Bank()), user, amount, ref, key), raised,
            session.View())
  {
    if amount <= 0 {
      return Some(AmountNotPositive);
    }
    if HasKey(session.ledger, key) {
      return None;
    }
    var row := session.users[user];
    var freed := amount;
    if row.reserved < amount {
      freed := row.reserved;
    }
    var left := 0;
    if freed > 0 {
      left := row.reserved - freed;
    }
    raised := Append(session, user, 0, ReleaseEntry, ref, key, row.balance, left);
  }

  method Capture(session: Store, user: UserId, amount: int, ref: Ref, key: Key) returns (raised: Option<Error>)
    requires user in session.users
    modifies session`users, session`ledger
    ensures Posted(old(session.View()), Wallet.Capture(old(session.Bank()), user, amount, ref, key), raised,
            session.View())
  {
    if amount <= 0 {
      return Some(AmountNotPositive);
    }
    if HasKey(session.ledger, key) {
      return None;
    }
    var row := session.users[user];
    if row.reserved < amount {
      return Some(CaptureExceedsReserve);
    }
    raised := Append(session, user, -amount, CaptureEntry, ref, key, row.balance - amount, row.reserved - amount);
  }
}
