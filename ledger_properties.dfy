/** What one ledger entry does to the store, and the invariants it keeps. */
module LedgerProperties {
  import opened Types
  import opened Search
  import opened Ledger
  import opened Db

  /** For an unknown user neither the users nor the log change. */
  lemma UpdateUserGoldUnknown(s: Store, userId: string, amount: int, kind: TransactionType, reason: string,
                              txId: string, date: string)
    requires forall j :: 0 <= j < |s.users| ==> s.users[j].id != userId
    ensures UpdateUserGold(s, userId, amount, kind, reason, txId, date) == s
  {
  }

  /** For a known user: EARN adds `amount` to both balances, SPEND lowers the
      current balance by `amount` but not below zero and leaves the lifetime
      total alone; nothing else about the user and no other user changes; the
      one new transaction sits at index 0 above the older entries in their
      order. */
  lemma UpdateUserGoldKnown(s: Store, i: int, userId: string, amount: int, kind: TransactionType, reason: string,
                            txId: string, date: string)
    requires 0 <= i < |s.users| && s.users[i].id == userId
    requires forall j :: 0 <= j < i ==> s.users[j].id != userId
    ensures var t := UpdateUserGold(s, userId, amount, kind, reason, txId, date);
      |t.users| == |s.users| &&
      (forall j :: 0 <= j < |s.users| && j != i ==> t.users[j] == s.users[j]) &&
      t.users[i].(currentGold := s.users[i].currentGold, totalEarnedGold := s.users[i].totalEarnedGold) == s.users[i] &&
      (kind == Earn ==> t.users[i].currentGold == s.users[i].currentGold + amount &&
                        t.users[i].totalEarnedGold == s.users[i].totalEarnedGold + amount) &&
      (kind == Spend ==> t.users[i].currentGold == Max(0, s.users[i].currentGold - amount) &&
                         t.users[i].currentGold >= 0 &&
                         t.users[i].totalEarnedGold == s.users[i].totalEarnedGold) &&
      |t.transactions| == |s.transactions| + 1 &&
      t.transactions[0] == Transaction(txId, userId, kind, amount, reason, date) &&
      t.transactions[1..] == s.transactions &&
      t.products == s.products && t.quests == s.quests && t.submissions == s.submissions
  {
    assert FirstIndex(s.users, UserWithId(userId)) == i by {
      assert UserWithId(userId)(s.users[i]);
    }
  }

  lemma LedgerStepReflexive(s: Store, t: Store)
    requires t.users == s.users && t.transactions == s.transactions
    ensures LedgerStep(s, t)
  {
    assert t.transactions[|t.transactions| - |s.transactions|..] == s.transactions;
  }

  lemma LedgerStepTransitive(a: Store, b: Store, c: Store)
    requires LedgerStep(a, b) && LedgerStep(b, c)
    ensures LedgerStep(a, c)
  {
    var na, nb, nc := |a.transactions|, |b.transactions|, |c.transactions|;
    assert c.transactions[nc - na..] == c.transactions[nc - nb..][nb - na..];
  }

  /** A ledger entry keeps every invariant of the store (for an EARN, when
      its amount is not negative) and moves each user's balances exactly as
      the log accounts for. */
  lemma UpdateUserGoldKeepsValid(s: Store, userId: string, amount: int, kind: TransactionType, reason: string,
                                 txId: string, date: string)
    requires Valid(s)
    requires kind == Spend || amount >= 0
    ensures var t := UpdateUserGold(s, userId, amount, kind, reason, txId, date);
      Valid(t) && LedgerStep(s, t)
  {
    var t := UpdateUserGold(s, userId, amount, kind, reason, txId, date);
    var i := FirstIndex(s.users, UserWithId(userId));
    if i == -1 {
      LedgerStepReflexive(s, t);
    } else {
      var tx := Transaction(txId, userId, kind, amount, reason, date);
      assert t.transactions == [tx] + s.transactions;
      assert t.transactions[|t.transactions| - |s.transactions|..] == s.transactions;
      forall j | 0 <= j < |s.users|
        ensures t.users[j].totalEarnedGold - Earned(t.transactions, s.users[j].id) ==
                s.users[j].totalEarnedGold - Earned(s.transactions, s.users[j].id)
        ensures t.users[j].currentGold - Earned(t.transactions, s.users[j].id) + Spent(t.transactions, s.users[j].id) >=
                s.users[j].currentGold - Earned(s.transactions, s.users[j].id) + Spent(s.transactions, s.users[j].id)
      {
        if j == i {
          CreditedMatchesLog(s.users[i], tx, s.transactions);
        } else {
          LogPrepend(tx, s.transactions, s.users[j].id);
        }
      }
      assert UserValid(t.users[i]);
    }
  }
}
