/** What the quest board operations do: creating and deleting quests,
    joining them, submitting work and reviewing it. */
module QuestProperties {
  import opened Types
  import opened Search
  import opened Ledger
  import opened Db
  import opened LedgerProperties

  // ---------------------------------------------------------------------
  // Creating and deleting.

  /** Deleting keeps exactly the quests with another id. */
  lemma {:induction false} WithoutQuestMembers(quests: seq<Quest>, questId: string)
    ensures forall q :: q in WithoutQuest(quests, questId) <==> q in quests && q.id != questId
  {
    if quests != [] {
      var init := quests[..|quests| - 1];
      WithoutQuestMembers(init, questId);
      assert quests == init + [quests[|quests| - 1]];
    }
  }

  /** Deleting works piece by piece, so the quests kept stay in their
      original order. */
  lemma {:induction false} WithoutQuestAppend(a: seq<Quest>, b: seq<Quest>, questId: string)
    ensures WithoutQuest(a + b, questId) == WithoutQuest(a, questId) + WithoutQuest(b, questId)
    decreases |b|
  {
    if b == [] {
      assert a + b == a;
    } else {
      var init := b[..|b| - 1];
      assert (a + b)[..|a + b| - 1] == a + init;
      WithoutQuestAppend(a, init, questId);
    }
  }

  /** Deleting an id that no quest has changes nothing. */
  lemma {:induction false} WithoutQuestNoMatch(quests: seq<Quest>, questId: string)
    requires forall k :: 0 <= k < |quests| ==> quests[k].id != questId
    ensures WithoutQuest(quests, questId) == quests
  {
    if quests != [] {
      var init := quests[..|quests| - 1];
      WithoutQuestNoMatch(init, questId);
      assert quests == init + [quests[|quests| - 1]];
    }
  }

  /** Deleting a quest undoes creating it: a created quest goes to the end
      of the board, and deleting its id afterwards leaves the board as the
      deletion alone would, which is the original board when the id was
      new. */
  lemma CreateThenDelete(s: Store, quest: Quest)
    ensures CreateQuest(s, quest).quests == s.quests + [quest]
    ensures DeleteQuest(CreateQuest(s, quest), quest.id) == DeleteQuest(s, quest.id)
    ensures (forall k :: 0 <= k < |s.quests| ==> s.quests[k].id != quest.id) ==>
      DeleteQuest(CreateQuest(s, quest), quest.id) == s
  {
    WithoutQuestAppend(s.quests, [quest], quest.id);
    assert WithoutQuest([quest], quest.id) == [] by {
      assert [quest][..0] == [];
    }
    assert s.quests + [quest] == CreateQuest(s, quest).quests;
    if forall k :: 0 <= k < |s.quests| ==> s.quests[k].id != quest.id {
      WithoutQuestNoMatch(s.quests, quest.id);
    }
  }

  lemma CreateQuestKeepsValid(s: Store, quest: Quest)
    requires Valid(s) && QuestValid(quest)
    ensures Valid(CreateQuest(s, quest)) && LedgerStep(s, CreateQuest(s, quest))
    ensures CreateQuest(s, quest).(quests := s.quests) == s
  {
    LedgerStepReflexive(s, CreateQuest(s, quest));
  }

  lemma DeleteQuestKeepsValid(s: Store, questId: string)
    requires Valid(s)
    ensures Valid(DeleteQuest(s, questId)) && LedgerStep(s, DeleteQuest(s, questId))
    ensures DeleteQuest(s, questId).(quests := s.quests) == s
  {
    var t := DeleteQuest(s, questId);
    WithoutQuestMembers(s.quests, questId);
    forall i | 0 <= i < |t.quests|
      ensures QuestValid(t.quests[i])
    {
      assert t.quests[i] in s.quests;
    }
    LedgerStepReflexive(s, t);
  }

  // ---------------------------------------------------------------------
  // Joining.

  /** Joining fails, changing nothing, when the quest is missing, the user
      has already joined it, or it is full; otherwise the user is added at
      the end of that quest's assignees and nothing else changes. */
  lemma AcceptQuestOutcome(s: Store, questId: string, userId: string)
    ensures var r := AcceptQuest(s, questId, userId);
      var qi := FirstIndex(s.quests, QuestWithId(questId));
      (r.ok <==> qi >= 0 && userId !in s.quests[qi].currentAssignees &&
                 |s.quests[qi].currentAssignees| < s.quests[qi].maxAssignees) &&
      (!r.ok ==> r.store == s) &&
      (r.ok ==> r.store == s.(quests := s.quests[qi := s.quests[qi].(
                  currentAssignees := s.quests[qi].currentAssignees + [userId])]))
  {
  }

  /** Joining keeps every quest within its capacity and free of duplicate
      assignees. */
  lemma AcceptQuestKeepsValid(s: Store, questId: string, userId: string)
    requires Valid(s)
    ensures var t := AcceptQuest(s, questId, userId).store;
      Valid(t) && LedgerStep(s, t)
  {
    var r := AcceptQuest(s, questId, userId);
    if r.ok {
      var qi := FirstIndex(s.quests, QuestWithId(questId));
      var xs := s.quests[qi].currentAssignees;
      var ys := xs + [userId];
      assert forall k :: 0 <= k < |xs| ==> ys[k] == xs[k];
      assert NoDuplicates(ys);
      assert QuestValid(r.store.quests[qi]);
    }
    LedgerStepReflexive(s, r.store);
  }

  /** Joining the same quest again right after joining it fails. */
  lemma AcceptQuestTwice(s: Store, questId: string, userId: string)
    requires AcceptQuest(s, questId, userId).ok
    ensures !AcceptQuest(AcceptQuest(s, questId, userId).store, questId, userId).ok
  {
    var t := AcceptQuest(s, questId, userId).store;
    FirstIndexSameMatches(s.quests, t.quests, QuestWithId(questId));
    var qi := FirstIndex(s.quests, QuestWithId(questId));
    assert t.quests[qi].currentAssignees[|t.quests[qi].currentAssignees| - 1] == userId;
  }

  /** On the seed board the second quest takes one student: the first
      student gets in, the second is turned away, and the assignees are just
      the first student. */
  lemma SeedAcceptScenario()
    ensures var r1 := AcceptQuest(Seed(), "q2", "s1");
      var r2 := AcceptQuest(r1.store, "q2", "s2");
      r1.ok && !r2.ok && r2.store.quests[1].currentAssignees == ["s1"]
  {
    var s := Seed();
    assert !QuestWithId("q2")(s.quests[0]) && QuestWithId("q2")(s.quests[1]);
    var r1 := AcceptQuest(s, "q2", "s1");
    assert [] + ["s1"] == ["s1"];
    FirstIndexSameMatches(s.quests, r1.store.quests, QuestWithId("q2"));
  }

  // ---------------------------------------------------------------------
  // Submitting.

  /** With at most one record per quest and student before, a submission
      leaves exactly one record for its pair: the earlier record replaced
      wholesale by the new one set to PENDING (so the count stays), or the new
      one appended as given. Every other record stays where it was. */
  lemma SubmitQuestUpserts(s: Store, submission: QuestSubmission)
    requires SubmissionsKeyed(s.submissions)
    ensures var t := SubmitQuest(s, submission);
      var earlier := FirstIndex(s.submissions, SubmissionFor(submission.questId, submission.studentId));
      var j := FirstIndex(t.submissions, SubmissionFor(submission.questId, submission.studentId));
      SubmissionsKeyed(t.submissions) &&
      |t.submissions| == |s.submissions| + (if earlier == -1 then 1 else 0) &&
      j == (if earlier == -1 then |s.submissions| else earlier) &&
      t.submissions[j] == (if earlier == -1 then submission else submission.(status := Pending)) &&
      (earlier == -1 ==> t.submissions == s.submissions + [submission]) &&
      (forall k :: 0 <= k < |t.submissions| && k != j ==>
        t.submissions[k].questId != submission.questId || t.submissions[k].studentId != submission.studentId) &&
      (forall k :: 0 <= k < |s.submissions| && k != j ==> t.submissions[k] == s.submissions[k]) &&
      t.users == s.users && t.products == s.products && t.quests == s.quests && t.transactions == s.transactions
  {
    var t := SubmitQuest(s, submission);
    var p := SubmissionFor(submission.questId, submission.studentId);
    var i := FirstIndex(s.submissions, p);
    if i == -1 {
      FirstIndexAppend(s.submissions, submission, p);
      assert t.submissions == s.submissions + [submission];
      assert forall k :: 0 <= k < |s.submissions| ==> t.submissions[k] == s.submissions[k];
      assert p(t.submissions[|s.submissions|]);
    } else {
      assert p(s.submissions[i]);
      assert forall k :: 0 <= k < |s.submissions| && k != i ==> !p(s.submissions[k]);
      assert p(t.submissions[i]);
      assert FirstIndex(t.submissions, p) == i by {
        assert forall k :: 0 <= k < i ==> t.submissions[k] == s.submissions[k];
      }
    }
  }

  lemma SubmitQuestKeepsValid(s: Store, submission: QuestSubmission)
    requires Valid(s)
    ensures Valid(SubmitQuest(s, submission)) && LedgerStep(s, SubmitQuest(s, submission))
  {
    SubmitQuestUpserts(s, submission);
    LedgerStepReflexive(s, SubmitQuest(s, submission));
  }

  // ---------------------------------------------------------------------
  // Reviewing.

  lemma ReviewSubmissionUnknown(s: Store, submissionId: string, approved: bool, feedback: string,
                                txId: string, date: string)
    requires forall k :: 0 <= k < |s.submissions| ==> s.submissions[k].id != submissionId
    ensures ReviewSubmission(s, submissionId, approved, feedback, txId, date) == s
  {
  }

  /** A review records the decision and the feedback on the submission and
      touches no other record; the gold and the log change only on an
      approval whose quest still exists, and then by exactly one EARN of the
      quest's reward to the submitting student. */
  lemma ReviewSubmissionEffect(s: Store, i: int, submissionId: string, approved: bool, feedback: string,
                               txId: string, date: string)
    requires 0 <= i < |s.submissions| && s.submissions[i].id == submissionId
    requires forall k :: 0 <= k < i ==> s.submissions[k].id != submissionId
    ensures var t := ReviewSubmission(s, submissionId, approved, feedback, txId, date);
      var sub := s.submissions[i];
      var qi := FirstIndex(s.quests, QuestWithId(sub.questId));
      |t.submissions| == |s.submissions| &&
      t.submissions[i].status == (if approved then Approved else SubmissionStatus.Rejected) &&
      t.submissions[i].feedback == Some(feedback) &&
      t.submissions[i].(status := sub.status, feedback := sub.feedback) == sub &&
      (forall k :: 0 <= k < |s.submissions| && k != i ==> t.submissions[k] == s.submissions[k]) &&
      t.products == s.products && t.quests == s.quests &&
      (!approved || qi == -1 ==> t.users == s.users && t.transactions == s.transactions) &&
      (approved && qi >= 0 ==>
        var paid := UpdateUserGold(s, sub.studentId, s.quests[qi].rewardGold, Earn,
                                   "Quest Reward: " + s.quests[qi].title, txId, date);
        t.users == paid.users && t.transactions == paid.transactions)
  {
    assert SubmissionWithId(submissionId)(s.submissions[i]);
  }

  /** Counted on the log: an approval of a submission whose quest exists adds
      one entry and the quest's reward to the student's logged earnings (when
      the student is known); a rejection adds nothing. */
  lemma ReviewSubmissionPaysOnce(s: Store, i: int, submissionId: string, approved: bool, feedback: string,
                                 txId: string, date: string)
    requires 0 <= i < |s.submissions| && s.submissions[i].id == submissionId
    requires forall k :: 0 <= k < i ==> s.submissions[k].id != submissionId
    ensures var t := ReviewSubmission(s, submissionId, approved, feedback, txId, date);
      var sub := s.submissions[i];
      var qi := FirstIndex(s.quests, QuestWithId(sub.questId));
      var pays := approved && qi >= 0 && FirstIndex(s.users, UserWithId(sub.studentId)) >= 0;
      |t.transactions| == |s.transactions| + (if pays then 1 else 0) &&
      Earned(t.transactions, sub.studentId) ==
        Earned(s.transactions, sub.studentId) + (if pays then s.quests[qi].rewardGold else 0) &&
      Spent(t.transactions, sub.studentId) == Spent(s.transactions, sub.studentId)
  {
    ReviewSubmissionEffect(s, i, submissionId, approved, feedback, txId, date);
    var sub := s.submissions[i];
    var qi := FirstIndex(s.quests, QuestWithId(sub.questId));
    if approved && qi >= 0 {
      var tx := Transaction(txId, sub.studentId, Earn, s.quests[qi].rewardGold, "Quest Reward: " + s.quests[qi].title, date);
      LogPrepend(tx, s.transactions, sub.studentId);
    }
  }

  /** Nothing stops a second approval of the same submission: it pays the
      reward a second time. */
  lemma ReapprovalPaysAgain(s: Store, i: int, submissionId: string, feedback: string,
                            txId1: string, date1: string, txId2: string, date2: string)
    requires 0 <= i < |s.submissions| && s.submissions[i].id == submissionId
    requires forall k :: 0 <= k < i ==> s.submissions[k].id != submissionId
    requires FirstIndex(s.quests, QuestWithId(s.submissions[i].questId)) >= 0
    requires FirstIndex(s.users, UserWithId(s.submissions[i].studentId)) >= 0
    ensures var t1 := ReviewSubmission(s, submissionId, true, feedback, txId1, date1);
      var t2 := ReviewSubmission(t1, submissionId, true, feedback, txId2, date2);
      var sub := s.submissions[i];
      var quest := s.quests[FirstIndex(s.quests, QuestWithId(sub.questId))];
      t1.submissions[i].status == Approved &&
      |t2.transactions| == |s.transactions| + 2 &&
      Earned(t2.transactions, sub.studentId) == Earned(s.transactions, sub.studentId) + 2 * quest.rewardGold
  {
    var sub := s.submissions[i];
    var t1 := ReviewSubmission(s, submissionId, true, feedback, txId1, date1);
    ReviewSubmissionPaysOnce(s, i, submissionId, true, feedback, txId1, date1);
    ReviewSubmissionEffect(s, i, submissionId, true, feedback, txId1, date1);
    assert forall k :: 0 <= k < |s.submissions| ==> t1.submissions[k].id == s.submissions[k].id;
    FirstIndexSameMatches(s.submissions, t1.submissions, SubmissionWithId(submissionId));
    UpdateUserGoldKnownIds(s, sub.studentId, FirstIndex(s.quests, QuestWithId(sub.questId)), txId1, date1);
    FirstIndexSameMatches(s.users, t1.users, UserWithId(sub.studentId));
    ReviewSubmissionPaysOnce(t1, i, submissionId, true, feedback, txId2, date2);
  }

  /** A payout keeps the user ids where they were. */
  lemma UpdateUserGoldKnownIds(s: Store, userId: string, qi: int, txId: string, date: string)
    requires 0 <= qi < |s.quests|
    ensures var t := UpdateUserGold(s, userId, s.quests[qi].rewardGold, Earn, "Quest Reward: " + s.quests[qi].title, txId, date);
      |t.users| == |s.users| && forall k :: 0 <= k < |s.users| ==> t.users[k].id == s.users[k].id
  {
  }

  lemma ReviewSubmissionKeepsValid(s: Store, submissionId: string, approved: bool, feedback: string,
                                   txId: string, date: string)
    requires Valid(s)
    ensures var t := ReviewSubmission(s, submissionId, approved, feedback, txId, date);
      Valid(t) && LedgerStep(s, t)
  {
    var t := ReviewSubmission(s, submissionId, approved, feedback, txId, date);
    var i := FirstIndex(s.submissions, SubmissionWithId(submissionId));
    if i == -1 {
      LedgerStepReflexive(s, t);
    } else {
      var sub := Reviewed(s.submissions[i], approved, feedback);
      var marked := s.(submissions := s.submissions[i := sub]);
      assert Valid(marked);
      var qi := FirstIndex(marked.quests, QuestWithId(sub.questId));
      if !approved || qi == -1 {
        LedgerStepReflexive(s, t);
      } else {
        assert QuestValid(marked.quests[qi]);
        UpdateUserGoldKeepsValid(marked, sub.studentId, marked.quests[qi].rewardGold, Earn,
                                 "Quest Reward: " + marked.quests[qi].title, txId, date);
      }
    }
  }
}
