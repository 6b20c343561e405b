/** The five collections of the store as one value, the seed data, and the
    meaning of each store operation as a function from the state before it to
    the state after it. */
module Db {
  import opened Types
  import opened Search
  import opened Ledger

  datatype Store = Store(
    users: seq<User>,
    products: seq<Product>,
    quests: seq<Quest>,
    submissions: seq<QuestSubmission>,
    transactions: seq<Transaction>)

  /** The state after an operation that reports success or failure. */
  datatype Outcome = Outcome(ok: bool, store: Store)

  /** The state a fresh store starts from. */
  function Seed(): Store {
    Store(
      [ User("t1", "Mr. Anderson", None, Teacher, 0, 0),
        User("s1", "Alice Smith", Some("202401"), Student, 120, 150),
        User("s2", "Bob Jones", Some("202402"), Student, 50, 50),
        User("s3", "Charlie Day", Some("202403"), Student, 200, 310) ],
      [ Product("p1", "Homework Pass", 100, 10, "Skip one homework assignment."),
        Product("p2", "Sit with a Friend", 150, 5, "Change your seat for one day."),
        Product("p3", "Snack Pack", 50, 20, "A small bag of chips or cookies.") ],
      [ Quest("q1", "Clean the Classroom", "Sweep the floor and organize the bookshelves.", 50, Open,
              2, [], "2024-12-31", "t1"),
        Quest("q2", "Math Tutor", "Help a classmate with fractions for 30 mins.", 100, Open,
              1, [], "2024-11-20", "t1") ],
      [],
      [])
  }

  // ---------------------------------------------------------------------
  // The keys records are looked up by.

  function UserWithId(id: string): User -> bool {
    (u: User) => u.id == id
  }

  function ProductWithId(id: string): Product -> bool {
    (p: Product) => p.id == id
  }

  function QuestWithId(id: string): Quest -> bool {
    (q: Quest) => q.id == id
  }

  function SubmissionWithId(id: string): QuestSubmission -> bool {
    (s: QuestSubmission) => s.id == id
  }

  function SubmissionFor(questId: string, studentId: string): QuestSubmission -> bool {
    (s: QuestSubmission) => s.questId == questId && s.studentId == studentId
  }

  // ---------------------------------------------------------------------
  // The operations.

  /** Ledger: applies one EARN or SPEND to the first user with `userId` and
      logs it at the head of the transaction log; an unknown user is
      ignored. */
  function UpdateUserGold(s: Store, userId: string, amount: int, kind: TransactionType, reason: string,
                          txId: string, date: string): Store
  {
    var i := FirstIndex(s.users, UserWithId(userId));
    if i == -1 then s
    else s.(users := s.users[i := Credited(s.users[i], kind, amount)],
            transactions := [Transaction(txId, userId, kind, amount, reason, date)] + s.transactions)
  }

  /** Catalog: a purchase takes one item out of stock and charges its price
      through the ledger, or changes nothing. */
  function BuyProduct(s: Store, userId: string, productId: string, txId: string, date: string): Outcome {
    var ui := FirstIndex(s.users, UserWithId(userId));
    var pi := FirstIndex(s.products, ProductWithId(productId));
    if ui == -1 || pi == -1 then Outcome(false, s)
    else
      var product := s.products[pi];
      if product.stock <= 0 || s.users[ui].currentGold < product.price then Outcome(false, s)
      else
        var stocked := s.(products := s.products[pi := product.(stock := product.stock - 1)]);
        Outcome(true, UpdateUserGold(stocked, userId, product.price, Spend, "Purchased: " + product.name,
                                     txId, date))
  }

  function CreateQuest(s: Store, quest: Quest): Store {
    s.(quests := s.quests + [quest])
  }

  /** The quests whose id is not `questId`, in their original order. */
  function WithoutQuest(quests: seq<Quest>, questId: string): seq<Quest> {
    if quests == [] then []
    else
      var last := quests[|quests| - 1];
      WithoutQuest(quests[..|quests| - 1], questId) + (if last.id == questId then [] else [last])
  }

  function DeleteQuest(s: Store, questId: string): Store {
    s.(quests := WithoutQuest(s.quests, questId))
  }

  /** Quest board: a student joins a quest that has room and that they have
      not joined yet. */
  function AcceptQuest(s: Store, questId: string, userId: string): Outcome {
    var qi := FirstIndex(s.quests, QuestWithId(questId));
    if qi == -1 then Outcome(false, s)
    else
      var quest := s.quests[qi];
      if userId in quest.currentAssignees then Outcome(false, s)
      else if |quest.currentAssignees| >= quest.maxAssignees then Outcome(false, s)
      else Outcome(true, s.(quests := s.quests[qi := quest.(currentAssignees := quest.currentAssignees + [userId])]))
  }

  /** Quest board: an upsert keyed by the quest and the student. A
      resubmission replaces the earlier record with the new one, set to
      PENDING; a first submission is appended as given. */
  function SubmitQuest(s: Store, submission: QuestSubmission): Store {
    var i := FirstIndex(s.submissions, SubmissionFor(submission.questId, submission.studentId));
    if i > -1 then s.(submissions := s.submissions[i := submission.(status := Pending)])
    else s.(submissions := s.submissions + [submission])
  }

  function Reviewed(sub: QuestSubmission, approved: bool, feedback: string): QuestSubmission {
    sub.(status := if approved then Approved else SubmissionStatus.Rejected, feedback := Some(feedback))
  }

  /** Quest board: records the decision on the first submission with
      `submissionId`; an approval pays the quest's reward to the submitting
      student through the ledger when the quest still exists. */
  function ReviewSubmission(s: Store, submissionId: string, approved: bool, feedback: string,
                            txId: string, date: string): Store
  {
    var i := FirstIndex(s.submissions, SubmissionWithId(submissionId));
    if i == -1 then s
    else
      var sub := Reviewed(s.submissions[i], approved, feedback);
      var marked := s.(submissions := s.submissions[i := sub]);
      if !approved then marked
      else
        var qi := FirstIndex(marked.quests, QuestWithId(sub.questId));
        if qi == -1 then marked
        else
          var quest := marked.quests[qi];
          UpdateUserGold(marked, sub.studentId, quest.rewardGold, Earn, "Quest Reward: " + quest.title, txId, date)
  }

  // ---------------------------------------------------------------------
  // Any sequence of calls.

  datatype Op =
    | GiveGold(userId: string, amount: int, kind: TransactionType, reason: string, txId: string, date: string)
    | Buy(buyer: string, productId: string, buyTxId: string, buyDate: string)
    | Create(quest: Quest)
    | Delete(questId: string)
    | Accept(acceptedQuestId: string, assignee: string)
    | Submit(submission: QuestSubmission)
    | Review(submissionId: string, approved: bool, feedback: string, reviewTxId: string, reviewDate: string)

  function Step(s: Store, op: Op): Store {
    match op
    case GiveGold(userId, amount, kind, reason, txId, date) => UpdateUserGold(s, userId, amount, kind, reason, txId, date)
    case Buy(userId, productId, txId, date) => BuyProduct(s, userId, productId, txId, date).store
    case Create(quest) => CreateQuest(s, quest)
    case Delete(questId) => DeleteQuest(s, questId)
    case Accept(questId, userId) => AcceptQuest(s, questId, userId).store
    case Submit(submission) => SubmitQuest(s, submission)
    case Review(id, approved, feedback, txId, date) => ReviewSubmission(s, id, approved, feedback, txId, date)
  }

  function Run(s: Store, ops: seq<Op>): Store
    decreases |ops|
  {
    if ops == [] then s else Run(Step(s, ops[0]), ops[1..])
  }

  // ---------------------------------------------------------------------
  // Invariants.

  predicate UniqueUserIds(users: seq<User>) {
    forall i, j :: 0 <= i < j < |users| ==> users[i].id != users[j].id
  }

  predicate UserValid(u: User) {
    u.currentGold >= 0 && u.totalEarnedGold >= 0 && (u.role == Student <==> u.studentId.Some?)
  }

  predicate ProductValid(p: Product) {
    p.price > 0 && p.stock >= 0
  }

  predicate NoDuplicates(xs: seq<string>) {
    forall i, j :: 0 <= i < j < |xs| ==> xs[i] != xs[j]
  }

  predicate QuestValid(q: Quest) {
    q.rewardGold > 0 && q.maxAssignees >= 1 &&
    |q.currentAssignees| <= q.maxAssignees && NoDuplicates(q.currentAssignees)
  }

  /** At most one submission per quest and student. */
  predicate SubmissionsKeyed(subs: seq<QuestSubmission>) {
    forall i, j :: 0 <= i < j < |subs| ==>
      subs[i].questId != subs[j].questId || subs[i].studentId != subs[j].studentId
  }

  predicate Valid(s: Store) {
    UniqueUserIds(s.users) &&
    (forall i :: 0 <= i < |s.users| ==> UserValid(s.users[i])) &&
    (forall i :: 0 <= i < |s.products| ==> ProductValid(s.products[i])) &&
    (forall i :: 0 <= i < |s.quests| ==> QuestValid(s.quests[i])) &&
    SubmissionsKeyed(s.submissions)
  }

  /** What callers do before calling: gold is granted in positive amounts and
      a new quest has a positive reward, room for someone and nobody in it
      yet. */
  predicate Permitted(op: Op) {
    match op
    case GiveGold(_, amount, _, _, _, _) => amount > 0
    case Create(quest) => quest.rewardGold > 0 && quest.maxAssignees >= 1 && quest.currentAssignees == []
    case _ => true
  }

  /** From `s` to `t` the users keep their identities, the log only grows at
      its head, each user's lifetime total moves exactly with the EARN
      entries logged for them, and their current balance never falls behind
      what the log accounts for. */
  predicate LedgerStep(s: Store, t: Store) {
    |t.users| == |s.users| &&
    |s.transactions| <= |t.transactions| &&
    t.transactions[|t.transactions| - |s.transactions|..] == s.transactions &&
    forall i :: 0 <= i < |s.users| ==>
      t.users[i].id == s.users[i].id &&
      t.users[i].role == s.users[i].role &&
      t.users[i].studentId == s.users[i].studentId &&
      t.users[i].totalEarnedGold - Earned(t.transactions, s.users[i].id) ==
        s.users[i].totalEarnedGold - Earned(s.transactions, s.users[i].id) &&
      t.users[i].currentGold - Earned(t.transactions, s.users[i].id) + Spent(t.transactions, s.users[i].id) >=
        s.users[i].currentGold - Earned(s.transactions, s.users[i].id) + Spent(s.transactions, s.users[i].id)
  }
}
