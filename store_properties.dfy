/** Invariants of every state the store can reach from its seed data. */
module StoreProperties {
  import opened Types
  import opened Ledger
  import opened Db
  import opened LedgerProperties
  import opened CatalogProperties
  import opened QuestProperties

  lemma SeedValid()
    ensures Valid(Seed())
  {
  }

  lemma StepKeepsValid(s: Store, op: Op)
    requires Valid(s) && Permitted(op)
    ensures Valid(Step(s, op)) && LedgerStep(s, Step(s, op))
  {
    match op
    case GiveGold(userId, amount, kind, reason, txId, date) =>
      UpdateUserGoldKeepsValid(s, userId, amount, kind, reason, txId, date);
    case Buy(userId, productId, txId, date) =>
      BuyProductKeepsValid(s, userId, productId, txId, date);
    case Create(quest) =>
      CreateQuestKeepsValid(s, quest);
    case Delete(questId) =>
      DeleteQuestKeepsValid(s, questId);
    case Accept(questId, userId) =>
      AcceptQuestKeepsValid(s, questId, userId);
    case Submit(submission) =>
      SubmitQuestKeepsValid(s, submission);
    case Review(id, approved, feedback, txId, date) =>
      ReviewSubmissionKeepsValid(s, id, approved, feedback, txId, date);
  }

  /** Any sequence of permitted calls keeps every invariant of the store:
      unique user ids, balances that are never negative, stock that is never
      negative, quests within capacity and without duplicate assignees, and
      at most one submission per quest and student; and over the whole run
      the balances move only as the log accounts for. */
  lemma {:induction false} RunKeepsValid(s: Store, ops: seq<Op>)
    requires Valid(s)
    requires forall k :: 0 <= k < |ops| ==> Permitted(ops[k])
    ensures Valid(Run(s, ops)) && LedgerStep(s, Run(s, ops))
    decreases |ops|
  {
    if ops == [] {
      LedgerStepReflexive(s, s);
    } else {
      var next := Step(s, ops[0]);
      StepKeepsValid(s, ops[0]);
      RunKeepsValid(next, ops[1..]);
      LedgerStepTransitive(s, next, Run(s, ops));
    }
  }

  /** From the seed data, every user's lifetime total is their seed total
      plus the EARN amounts logged for them, and their current balance is
      never negative and never below their seed balance plus the logged
      EARN amounts minus the logged SPEND amounts. */
  lemma SeedLedger(ops: seq<Op>)
    requires forall k :: 0 <= k < |ops| ==> Permitted(ops[k])
    ensures var t := Run(Seed(), ops);
      |t.users| == |Seed().users| &&
      forall i :: 0 <= i < |t.users| ==>
        t.users[i].id == Seed().users[i].id &&
        t.users[i].totalEarnedGold == Seed().users[i].totalEarnedGold + Earned(t.transactions, t.users[i].id) &&
        t.users[i].currentGold >= 0 &&
        t.users[i].currentGold >=
          Seed().users[i].currentGold + Earned(t.transactions, t.users[i].id) - Spent(t.transactions, t.users[i].id)
  {
    SeedValid();
    RunKeepsValid(Seed(), ops);
  }
}
