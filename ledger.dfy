/** The balance rule of one ledger entry and the sums over the transaction log
    that a user's balances can be compared against. */
module Ledger {
  import opened Types

  function Max(a: int, b: int): int {
    if a >= b then a else b
  }

  /** A user record after one EARN or SPEND of `amount`. */
  function Credited(u: User, kind: TransactionType, amount: int): User {
    match kind
    case Earn => u.(currentGold := u.currentGold + amount, totalEarnedGold := u.totalEarnedGold + amount)
    case Spend => u.(currentGold := Max(0, u.currentGold - amount))
  }

  /** Sum of the EARN amounts logged for `userId`. */
  function Earned(log: seq<Transaction>, userId: string): int {
    if log == [] then 0
    else (if log[0].userId == userId && log[0].kind == Earn then log[0].amount else 0) + Earned(log[1..], userId)
  }

  /** Sum of the SPEND amounts logged for `userId`. */
  function Spent(log: seq<Transaction>, userId: string): int {
    if log == [] then 0
    else (if log[0].userId == userId && log[0].kind == Spend then log[0].amount else 0) + Spent(log[1..], userId)
  }

  /** A new entry at the head of the log adds its amount to its own user's
      sum of its own kind and leaves every other sum alone. */
  lemma LogPrepend(tx: Transaction, log: seq<Transaction>, userId: string)
    ensures Earned([tx] + log, userId) ==
      Earned(log, userId) + (if tx.userId == userId && tx.kind == Earn then tx.amount else 0)
    ensures Spent([tx] + log, userId) ==
      Spent(log, userId) + (if tx.userId == userId && tx.kind == Spend then tx.amount else 0)
  {
    assert ([tx] + log)[1..] == log;
  }

  /** One entry applied to a user whose lifetime total equals `base` plus the
      logged earnings keeps that equation once the entry is logged; the
      current balance never drops below `base` plus earnings minus spendings,
      because a SPEND is clamped at zero rather than going negative. */
  lemma CreditedMatchesLog(u: User, tx: Transaction, log: seq<Transaction>)
    requires tx.userId == u.id
    ensures Credited(u, tx.kind, tx.amount).totalEarnedGold - Earned([tx] + log, u.id) ==
      u.totalEarnedGold - Earned(log, u.id)
    ensures Credited(u, tx.kind, tx.amount).currentGold - Earned([tx] + log, u.id) + Spent([tx] + log, u.id) >=
      u.currentGold - Earned(log, u.id) + Spent(log, u.id)
  {
    LogPrepend(tx, log, u.id);
  }
}
