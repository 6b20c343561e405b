/** Call sequences on a freshly seeded store, with what each leaves behind. */
module Scenarios {
  import opened Types
  import opened Search
  import Db
  import opened CatalogProperties
  import opened QuestProperties
  import opened Service
  import LedgerProperties

  /** The first student (120 gold) buys the first product (price 100,
      stock 10). */
  method PurchaseScenario() returns (ok: bool, gold: int, stock: int, log: seq<Transaction>)
    ensures ok && gold == 20 && stock == 9
    ensures log == [Transaction("tx1", "s1", Spend, 100, "Purchased: Homework Pass", "d1")]
  {
    var db := new DB();
    ok := db.BuyProduct("s1", "p1", "tx1", "d1");
    SeedPurchase("tx1", "d1");
    gold := db.users[1].currentGold;
    stock := db.products[0].stock;
    log := db.transactions;
  }

  /** Two students try the quest that takes one. */
  method AcceptScenario() returns (first: bool, second: bool, assignees: seq<string>)
    ensures first && !second && assignees == ["s1"]
  {
    var db := new DB();
    first := db.AcceptQuest("q2", "s1");
    second := db.AcceptQuest("q2", "s2");
    SeedAcceptScenario();
    assignees := db.quests[1].currentAssignees;
  }

  const FIRST_TRY := QuestSubmission("sub1", "q1", "s1", "Alice Smith", "swept", None, "d0", Pending, None)
  const SECOND_TRY := QuestSubmission("sub2", "q1", "s1", "Alice Smith", "swept and sorted", None, "d2", Pending, None)
  /** The reason is kept in the form the review builds it, the prefix joined
      to the seed quest's title, so matching it to the payment needs the
      title equality and not a character-by-character string comparison. */
  const REWARD := Transaction("tx1", "s1", Earn, 50, "Quest Reward: " + "Clean the Classroom", "d3")

  function Rewarded(): Db.Store {
    var seed := Db.Seed();
    seed.(users := seed.users[1 := seed.users[1].(currentGold := 170, totalEarnedGold := 200)],
          submissions := [Db.Reviewed(SECOND_TRY, true, "Great job!")],
          transactions := [REWARD])
  }

  lemma FirstSubmission()
    ensures Db.SubmitQuest(Db.Seed(), FIRST_TRY) == Db.Seed().(submissions := [FIRST_TRY])
  {
    assert [] + [FIRST_TRY] == [FIRST_TRY];
  }

  lemma FirstReview()
    ensures Db.ReviewSubmission(Db.Seed().(submissions := [FIRST_TRY]), "sub1", false, "redo", "tx0", "d1") ==
            Db.Seed().(submissions := [Db.Reviewed(FIRST_TRY, false, "redo")])
  {
    assert Db.SubmissionWithId("sub1")(FIRST_TRY);
  }

  lemma SecondSubmission()
    ensures Db.SubmitQuest(Db.Seed().(submissions := [Db.Reviewed(FIRST_TRY, false, "redo")]), SECOND_TRY) ==
            Db.Seed().(submissions := [SECOND_TRY])
  {
    assert Db.SubmissionFor("q1", "s1")(Db.Reviewed(FIRST_TRY, false, "redo"));
  }

  /** Approving the second try pays the quest's reward once to the student
      who sent it. */
  lemma ApprovalPays(s: Db.Store)
    requires |s.submissions| == 1 && s.submissions[0] == SECOND_TRY
    requires |s.quests| >= 1 && s.quests[0].id == "q1"
    requires s.quests[0].rewardGold == 50 && s.quests[0].title == "Clean the Classroom"
    requires |s.users| == 4 && s.users[0].id == "t1" && s.users[1].id == "s1"
    ensures var t := Db.ReviewSubmission(s, "sub2", true, "Great job!", "tx1", "d3");
      t.users == s.users[1 := s.users[1].(currentGold := s.users[1].currentGold + 50,
                                          totalEarnedGold := s.users[1].totalEarnedGold + 50)] &&
      t.transactions == [REWARD] + s.transactions
  {
    QuestProperties.ReviewSubmissionEffect(s, 0, "sub2", true, "Great job!", "tx1", "d3");
    assert Db.QuestWithId("q1")(s.quests[0]);
    LedgerProperties.UpdateUserGoldKnown(s, 1, "s1", 50, Earn, "Quest Reward: " + s.quests[0].title, "tx1", "d3");
  }

  lemma SecondReview()
    ensures Db.ReviewSubmission(Db.Seed().(submissions := [SECOND_TRY]), "sub2", true, "Great job!", "tx1", "d3") ==
            Rewarded()
  {
    var s := Db.Seed().(submissions := [SECOND_TRY]);
    QuestProperties.ReviewSubmissionEffect(s, 0, "sub2", true, "Great job!", "tx1", "d3");
    ApprovalPays(s);
    assert [REWARD] + [] == [REWARD];
  }

  /** A student submits, is asked to redo, resubmits and is approved: one
      record remains, back at PENDING after the resubmission, and the reward
      is paid once. */
  method ResubmissionScenario()
    returns (pendingAgain: bool, records: seq<QuestSubmission>, gold: int, total: int, log: seq<Transaction>)
    ensures pendingAgain
    ensures |records| == 1 && records[0].status == Approved && records[0].content == "swept and sorted"
    ensures gold == 170 && total == 200
    ensures log == [REWARD]
  {
    var db := new DB();
    FirstSubmission();
    db.SubmitQuest(FIRST_TRY);
    FirstReview();
    db.ReviewSubmission("sub1", false, "redo", "tx0", "d1");
    SecondSubmission();
    db.SubmitQuest(SECOND_TRY);
    pendingAgain := db.submissions[0].status == Pending;
    SecondReview();
    db.ReviewSubmission("sub2", true, "Great job!", "tx1", "d3");
    records := db.submissions;
    gold := db.users[1].currentGold;
    total := db.users[1].totalEarnedGold;
    log := db.transactions;
  }
}
