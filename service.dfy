/** The store object: five collections held in fields, and one method per
    operation that looks records up with a first-match scan and updates the
    collections in place. Each method is proved to take the store from its
    old state to the state the matching function of `Db` describes. */
module Service {
  import opened Types
  import opened Search
  import opened Ledger
  import Db
  import opened LedgerProperties
  import opened CatalogProperties
  import opened QuestProperties
  import opened StoreProperties

  class DB {
    var users: seq<User>
    var products: seq<Product>
    var quests: seq<Quest>
    var submissions: seq<QuestSubmission>
    var transactions: seq<Transaction>

    /** The five collections as one value. */
    ghost function State(): Db.Store
      reads this
    {
      Db.Store(users, products, quests, submissions, transactions)
    }

    ghost predicate Valid()
      reads this
    {
      Db.Valid(State())
    }

    /** A store holding the seed data. */
    constructor ()
      ensures State() == Db.Seed() && Valid()
    {
      var seed := Db.Seed();
      users := seed.users;
      products := seed.products;
      quests := seed.quests;
      submissions := seed.submissions;
      transactions := seed.transactions;
      SeedValid();
    }

    method UpdateUserGold(userId: string, amount: int, kind: TransactionType, reason: string,
                          txId: string, date: string)
      modifies this
      ensures State() == Db.UpdateUserGold(old(State()), userId, amount, kind, reason, txId, date)
      ensures old(Valid()) && (kind == Spend || amount >= 0) ==> Valid() && Db.LedgerStep(old(State()), State())
    {
      if Valid() && (kind == Spend || amount >= 0) {
        UpdateUserGoldKeepsValid(State(), userId, amount, kind, reason, txId, date);
      }
      var userIndex := FindIndex(users, Db.UserWithId(userId));
      if userIndex == -1 {
        return;
      }
      var user := users[userIndex];
      if kind == Earn {
        user := user.(currentGold := user.currentGold + amount, totalEarnedGold := user.totalEarnedGold + amount);
      } else {
        user := user.(currentGold := Max(0, user.currentGold - amount));
      }
      users := users[userIndex := user];
      transactions := [Transaction(txId, userId, kind, amount, reason, date)] + transactions;
    }

    method BuyProduct(userId: string, productId: string, txId: string, date: string) returns (ok: bool)
      modifies this
      ensures ok == Db.BuyProduct(old(State()), userId, productId, txId, date).ok
      ensures State() == Db.BuyProduct(old(State()), userId, productId, txId, date).store
      ensures old(Valid()) ==> Valid() && Db.LedgerStep(old(State()), State())
    {
      if Valid() {
        BuyProductKeepsValid(State(), userId, productId, txId, date);
      }
      var userIndex := FindIndex(users, Db.UserWithId(userId));
      var productIndex := FindIndex(products, Db.ProductWithId(productId));
      if userIndex == -1 || productIndex == -1 {
        return false;
      }
      var product := products[productIndex];
      if product.stock <= 0 || users[userIndex].currentGold < product.price {
        return false;
      }
      product := product.(stock := product.stock - 1);
      products := products[productIndex := product];
      UpdateUserGold(userId, product.price, Spend, "Purchased: " + product.name, txId, date);
      ok := true;
    }

    method CreateQuest(quest: Quest)
      modifies this
      ensures State() == Db.CreateQuest(old(State()), quest)
      ensures old(Valid()) && Db.QuestValid(quest) ==> Valid()
    {
      if Valid() && Db.QuestValid(quest) {
        CreateQuestKeepsValid(State(), quest);
      }
      quests := quests + [quest];
    }

    method DeleteQuest(questId: string)
      modifies this
      ensures State() == Db.DeleteQuest(old(State()), questId)
      ensures old(Valid()) ==> Valid()
    {
      if Valid() {
        DeleteQuestKeepsValid(State(), questId);
      }
      var all := quests;
      var kept: seq<Quest> := [];
      var k := 0;
      while k < |all|
        invariant 0 <= k <= |all|
        invariant kept == Db.WithoutQuest(all[..k], questId)
      {
        assert all[..k + 1][..k] == all[..k];
        if all[k].id != questId {
          kept := kept + [all[k]];
        }
        k := k + 1;
      }
      assert all[..k] == all;
      quests := kept;
    }

    method AcceptQuest(questId: string, userId: string) returns (ok: bool)
      modifies this
      ensures ok == Db.AcceptQuest(old(State()), questId, userId).ok
      ensures State() == Db.AcceptQuest(old(State()), questId, userId).store
      ensures old(Valid()) ==> Valid()
    {
      if Valid() {
        AcceptQuestKeepsValid(State(), questId, userId);
      }
      var questIndex := FindIndex(quests, Db.QuestWithId(questId));
      if questIndex == -1 {
        return false;
      }
      var quest := quests[questIndex];
      if userId in quest.currentAssignees {
        return false;
      }
      if |quest.currentAssignees| >= quest.maxAssignees {
        return false;
      }
      quest := quest.(currentAssignees := quest.currentAssignees + [userId]);
      quests := quests[questIndex := quest];
      ok := true;
    }

    method SubmitQuest(submission: QuestSubmission)
      modifies this
      ensures State() == Db.SubmitQuest(old(State()), submission)
      ensures old(Valid()) ==> Valid()
    {
      if Valid() {
        SubmitQuestKeepsValid(State(), submission);
      }
      var existingIndex := FindIndex(submissions, Db.SubmissionFor(submission.questId, submission.studentId));
      if existingIndex > -1 {
        submissions := submissions[existingIndex := submission.(status := Pending)];
      } else {
        submissions := submissions + [submission];
      }
    }

    method ReviewSubmission(submissionId: string, approved: bool, feedback: string, txId: string, date: string)
      modifies this
      ensures State() == Db.ReviewSubmission(old(State()), submissionId, approved, feedback, txId, date)
      ensures old(Valid()) ==> Valid() && Db.LedgerStep(old(State()), State())
    {
      if Valid() {
        ReviewSubmissionKeepsValid(State(), submissionId, approved, feedback, txId, date);
      }
      var subIndex := FindIndex(submissions, Db.SubmissionWithId(submissionId));
      if subIndex == -1 {
        return;
      }
      var sub := submissions[subIndex];
      sub := sub.(status := if approved then Approved else SubmissionStatus.Rejected, feedback := Some(feedback));
      submissions := submissions[subIndex := sub];
      if approved {
        var questIndex := FindIndex(quests, Db.QuestWithId(sub.questId));
        if questIndex != -1 {
          var quest := quests[questIndex];
          UpdateUserGold(sub.studentId, quest.rewardGold, Earn, "Quest Reward: " + quest.title, txId, date);
        }
      }
    }
  }
}
