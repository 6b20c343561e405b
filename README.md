# Gold guild: the classroom economy store, in Dafny

This project models the store behind a classroom reward economy. Students
earn and spend gold. They spend it in a shop whose items have limited stock,
and they earn it on a quest board: a student accepts a quest, submits work,
and a teacher reviews it. The model covers the `DB` object of
`services/db.ts`, which runs every operation on five collections (users,
products, quests, submissions and the transaction log). It also covers the
record shapes, the enumerations and the rank helpers of `types.ts`.

The model has three layers:

- **`Db`** (`db.dfy`) keeps the five collections in one value, `Store`,
  together with the seed data. Each store operation is a function from the
  state before it to the state after it. Records are found by their first
  match (`Search.FirstIndex`), as `findIndex` and `find` find them. The
  module also defines the store's invariants (`Valid`) and `LedgerStep`, the
  relation that says a state change matches the transaction log.
- **`Service.DB`** (`service.dfy`) is the store object itself. It is a class
  whose five `seq` fields are updated in place. Each method looks records up
  with the `Search.FindIndex` loop, writes through indexed updates and
  appends, and calls `UpdateUserGold` for its payments. Each method is proved
  to take the fields from `old(State())` to the state that the matching `Db`
  function gives. Each method also keeps `Valid()`, under the conditions its
  lemma needs: `UpdateUserGold` only when the entry is a SPEND or its amount
  is not negative, and `CreateQuest` only when the new quest is well formed
  (`Db.QuestValid`). The other methods keep it unconditionally.
- **Properties**: `LedgerProperties`, `CatalogProperties`, `QuestProperties`
  and `StoreProperties` prove what the operations promise. The last of these
  proves it for every run of operations from the seed data: every invariant
  holds, and each user's lifetime total equals their seed total plus the EARN
  amounts logged for them. That result assumes the calls satisfy
  `Db.Permitted` (see "## Left out"). `Scenarios` states three call
  sequences on a newly seeded store and proves what each leaves behind.

Where the written specification and the code disagree, the model follows the
code:

- **Re-approval pays again.** The specification says a submission that was
  already approved must not be paid twice. `reviewSubmission` does not check
  the earlier status, so a second approval pays the reward again. See
  `QuestProperties.ReapprovalPaysAgain`.
- **A resubmission replaces the whole record.** The specification says a
  resubmission overwrites the content and may keep the old feedback. The code
  replaces the record with the new submission and sets it to PENDING, so the
  old id and the old feedback are gone.
- **No log entry for an unknown user.** The specification says every ledger
  call appends one transaction. For an unknown user id the code returns
  before it logs anything.
- **Balances and the log.** The specification says balances can be rebuilt
  from the seed balance plus the logged transactions. That holds exactly for
  `totalEarnedGold`. For `currentGold` it holds only as a lower bound: a
  clamped SPEND logs its full amount but takes away at most the balance.
- **Unknown buyer.** `buyProduct` also fails when the buyer does not exist,
  a check the specification does not list.

Ids and timestamps (`Date.now()`, `new Date().toISOString()`) are passed in
as the parameters `txId` and `date`. A submission arrives with its own id and
its own `submittedAt`.

## Model

| member | source | states |
|---|---|---|
| Db.Seed | services/db.ts:12-28 | the four users, three products and two quests of the seed, with no submissions and an empty log; `StoreProperties.SeedValid` proves it valid |
| Db.UpdateUserGold | services/db.ts:59-85 | first-match lookup, early return for an unknown user, the EARN/SPEND balance rule and the prepended log entry; `LedgerProperties.UpdateUserGoldUnknown`, `UpdateUserGoldKnown` and `UpdateUserGoldKeepsValid` state its effect |
| Db.BuyProduct | services/db.ts:88-107 | the four rejection guards, then one unit of stock off and a SPEND of the price through `UpdateUserGold`; `CatalogProperties.BuyProductRejected`, `BuyProductSucceeds` and `BuyProductKeepsValid` state its effect |
| Db.CreateQuest | services/db.ts:110-114 | the quest pushed at the end of the quests; `QuestProperties.CreateThenDelete` and `CreateQuestKeepsValid` state its effect |
| Db.WithoutQuest | services/db.ts:118 | the filter on quest id; `QuestProperties.WithoutQuestMembers`, `WithoutQuestAppend` and `WithoutQuestNoMatch` state what it keeps and in which order |
| Db.DeleteQuest | services/db.ts:116-120 | the quests replaced by `WithoutQuest` of them; `QuestProperties.CreateThenDelete` and `DeleteQuestKeepsValid` state its effect |
| Db.AcceptQuest | services/db.ts:123-138 | the three guards and the append to the assignees; `QuestProperties.AcceptQuestOutcome`, `AcceptQuestKeepsValid` and `AcceptQuestTwice` state its effect |
| Db.SubmitQuest | services/db.ts:140-150 | the upsert keyed by quest and student; `QuestProperties.SubmitQuestUpserts` and `SubmitQuestKeepsValid` state its effect |
| Db.ReviewSubmission | services/db.ts:157-175 | the decision and feedback on the first record with the id, and the payout on approval when the quest exists; `QuestProperties.ReviewSubmissionUnknown`, `ReviewSubmissionEffect`, `ReviewSubmissionPaysOnce` and `ReapprovalPaysAgain` state its effect |
| Ledger.Credited | services/db.ts:64-70 | the balance rule of one entry (EARN adds to both balances, SPEND subtracts with a floor at 0); `Ledger.CreditedMatchesLog` and `LedgerProperties.UpdateUserGoldKnown` state its effect |
| Search.FirstIndex | services/db.ts:61 | the result is -1 exactly when no element matches; otherwise it is the position of a matching element with no match before it |
| Search.FindIndex | services/db.ts:61-62 | the front-to-back scan returns exactly the first matching position, or -1 |
| Search.FirstIndexSameMatches | services/db.ts:125 | a search gives the same answer on two sequences that match at the same positions, so updating a record without changing its key keeps it findable |
| Search.FirstIndexAppend | services/db.ts:148 | an appended record is found only when no earlier record matches |
| Ledger.LogPrepend | services/db.ts:75-84 | a new log entry adds its amount to its own user's EARN or SPEND sum and to no other sum |
| Ledger.CreditedMatchesLog | services/db.ts:65-70 | an EARN moves `totalEarnedGold` exactly with the logged earnings; a clamped SPEND never takes `currentGold` below seed balance plus earnings minus spendings |
| LedgerProperties.UpdateUserGoldUnknown | services/db.ts:60-62 | for an unknown user id, nothing changes: neither the users nor the log |
| LedgerProperties.UpdateUserGoldKnown | services/db.ts:64-84 | EARN adds `amount` to both balances; SPEND sets `currentGold` to max(0, currentGold - amount), so it is never negative, and leaves the total alone; no other user or field changes; exactly one transaction with that user, type, amount and reason is added at index 0, and older entries keep their order |
| LedgerProperties.UpdateUserGoldKeepsValid | services/db.ts:59-85 | one ledger call keeps every store invariant (for EARN, when the amount is not negative) and satisfies `LedgerStep` |
| LedgerProperties.LedgerStepTransitive | services/db.ts:75-84 | ledger consistency and prepend-only log order carry over from one step to the next |
| CatalogProperties.BuyProductRejected | services/db.ts:94-97 | a purchase fails exactly when the user is missing, the product is missing, stock <= 0, or currentGold < price; a failed purchase changes nothing |
| CatalogProperties.BuyProductSucceeds | services/db.ts:97-106 | a passing purchase returns true, lowers that product's stock by exactly 1 and the buyer's gold by exactly the price, with no clamping; it adds one SPEND of the price with reason "Purchased: " + name, and nothing else changes |
| CatalogProperties.BuyProductKeepsValid | services/db.ts:88-107 | a purchase never takes stock or balances below zero and keeps the ledger consistent |
| CatalogProperties.SeedPurchase | services/db.ts:14-20 | on the seed data, s1 (120 gold) buys p1 (price 100, stock 10): 20 gold and stock 9 are left, with one SPEND of 100 |
| QuestProperties.WithoutQuestMembers | services/db.ts:118 | deleting keeps exactly the quests whose id is different |
| QuestProperties.WithoutQuestAppend | services/db.ts:118 | deleting commutes with concatenation, so the kept quests stay in their original order |
| QuestProperties.WithoutQuestNoMatch | services/db.ts:118 | deleting an id that no quest has changes nothing |
| QuestProperties.CreateThenDelete | services/db.ts:110-120 | a created quest goes at the end; deleting its id afterwards gives the same result as deleting it without the creation, and gives back the original store when the id was new |
| QuestProperties.CreateQuestKeepsValid | services/db.ts:110-114 | creating a well-formed quest keeps the invariants; apart from the quests, the store is unchanged (users, products, submissions and log) |
| QuestProperties.DeleteQuestKeepsValid | services/db.ts:116-120 | deleting keeps the invariants; apart from the quests, the store is unchanged (users, products, submissions and log) |
| QuestProperties.AcceptQuestOutcome | services/db.ts:123-138 | accepting fails with no change when the quest is missing, the user is already an assignee, or the quest is full; otherwise it appends the user to that quest's assignees and changes nothing else |
| QuestProperties.AcceptQuestKeepsValid | services/db.ts:129-132 | accepting keeps assignees free of duplicates and never above maxAssignees |
| QuestProperties.AcceptQuestTwice | services/db.ts:129 | accepting the same quest again straight after a success fails |
| QuestProperties.SeedAcceptScenario | services/db.ts:27 | on the seed quest for one student, s1 is accepted, s2 is refused, and the assignees are just ["s1"] |
| QuestProperties.SubmitQuestUpserts | services/db.ts:140-150 | with at most one record per (questId, studentId) before, exactly one remains after. Either the old record, at its own position, is replaced wholesale by the submission with status PENDING, and every other record stays where it was; or the list becomes the old list with the submission appended as given |
| QuestProperties.SubmitQuestKeepsValid | services/db.ts:143-149 | submitting keeps "at most one submission per (questId, studentId)" |
| QuestProperties.ReviewSubmissionUnknown | services/db.ts:159-160 | reviewing an unknown submission id changes nothing |
| QuestProperties.ReviewSubmissionEffect | services/db.ts:162-174 | a review sets the status to APPROVED or REJECTED and stores the feedback, without touching other fields or records; gold and the log change only on an approval whose quest exists, by one EARN of the quest's reward to sub.studentId with reason "Quest Reward: " + title |
| QuestProperties.ReviewSubmissionPaysOnce | services/db.ts:168-174 | an approval adds exactly one log entry and the quest's reward to the student's earnings, when the quest and the student exist; otherwise it adds nothing |
| QuestProperties.ReapprovalPaysAgain | services/db.ts:157-175 | there is no check on the earlier status, so approving the same submission twice pays twice the reward |
| QuestProperties.ReviewSubmissionKeepsValid | services/db.ts:157-175 | a review keeps the invariants and the ledger consistent |
| StoreProperties.SeedValid | services/db.ts:12-28 | the seed data satisfies every invariant |
| StoreProperties.StepKeepsValid | services/db.ts:59-175 | each permitted operation keeps the invariants and the ledger consistency |
| StoreProperties.RunKeepsValid | services/db.ts:59-175 | any sequence of permitted operations keeps unique user ids, non-negative balances and stock, quests within capacity without duplicates, one submission per pair, and log-consistent balances |
| StoreProperties.SeedLedger | services/db.ts:65-84 | after any run from the seed, each user's totalEarnedGold is their seed total plus their logged EARN amounts, and currentGold is at least 0 and at least their seed balance plus logged EARN minus logged SPEND |
| Service.DB.constructor | services/db.ts:12-28 | a new store holds the seed data, which is valid |
| Service.DB.UpdateUserGold | services/db.ts:59-85 | the fields move exactly as `Db.UpdateUserGold` says; for a SPEND, or an EARN whose amount is not negative, the invariants and ledger consistency are kept |
| Service.DB.BuyProduct | services/db.ts:88-107 | the result and the fields are those of `Db.BuyProduct`, and the invariants are kept |
| Service.DB.CreateQuest | services/db.ts:110-114 | the quest is pushed at the end of the quests and nothing else changes; the invariants are kept when the new quest is well formed |
| Service.DB.DeleteQuest | services/db.ts:116-120 | the filtering loop leaves exactly `Db.WithoutQuest` of the old quests; nothing else changes |
| Service.DB.AcceptQuest | services/db.ts:123-138 | the result and the fields are those of `Db.AcceptQuest`, and the invariants are kept |
| Service.DB.SubmitQuest | services/db.ts:140-154 | the fields are those of the upsert `Db.SubmitQuest`, and the invariants are kept |
| Service.DB.ReviewSubmission | services/db.ts:157-175 | the fields are those of `Db.ReviewSubmission`, and the invariants and ledger consistency are kept |
| Scenarios.PurchaseScenario | services/db.ts:88-107 | on a new store, s1 buying p1 succeeds and leaves 20 gold, stock 9 and a log holding one SPEND of 100 |
| Scenarios.AcceptScenario | services/db.ts:123-138 | on a new store, the first accept of q2 succeeds, the second fails, and the assignees are ["s1"] |
| Scenarios.ResubmissionScenario | services/db.ts:140-175 | submit, reject, resubmit, approve: one record remains, it goes back to PENDING after the resubmission and ends APPROVED with the new content, and s1 is paid the 50 reward exactly once (gold 170, total 200, one log entry) |
| Types.EnumValuesDistinct | types.ts:1-18 | the stored strings role TEACHER/STUDENT, type EARN/SPEND, submission status PENDING/APPROVED/REJECTED and the quest statuses are distinct for distinct members |
| Types.GetLevel | types.ts:71-77 | the if-chain over the totals; `Types.LevelByThresholds`, `LevelRanges` and `LevelMonotone` state its properties |
| Types.GetLevelColor | types.ts:79-87 | the switch over the tier names; `Types.LevelColors` states its properties |
| Types.LevelByThresholds | types.ts:71-77 | getLevel always returns one of the five tier names, namely the tier whose position is the number of thresholds 50, 150, 300, 600 that the total has reached |
| Types.LevelRanges | types.ts:71-77 | Bronze exactly below 50, Silver exactly for 50-149, Gold for 150-299, Platinum for 300-599, Diamond from 600 up |
| Types.LevelMonotone | types.ts:71-77 | a larger total never gives a lower tier |
| Types.TierIndex | types.ts:71-77 | a string's tier position is -1 exactly when the string is not a tier name |
| Types.LevelColors | types.ts:79-87 | each of the five tiers gets its own colour class, none of them the default, and every other string gets 'bg-gray-500 text-white' |

## Left out

- Storage: `localStorage`, `JSON.stringify`/`JSON.parse`, `getStorage`/`setStorage` and lazy seeding are not modelled. The store is five in-memory fields whose initial state is the seed data. The getters (`getUsers` and the rest) are plain reads of those fields.
- `DB.reset` is not modelled: it clears browser storage and reloads the page, which is I/O only.
- Id and timestamp generation (`Date.now()`, `new Date().toISOString()`) is not modelled; those values are parameters. Nothing proves that they are unique.
- Number width: JavaScript numbers become unbounded `int`. Fractional amounts and floating-point rounding are not modelled.
- Aliasing: the first `getStorage` call returns the seed array itself. Each operation reading the collections afresh from storage is not modelled either. All operations are synchronous and one runs at a time, so the model reads the fields directly.
- `Quest.status` is carried unchanged, because no operation updates it.
- `currentAssignees.includes` is modelled with Dafny's `in`, not as a separate loop.
- The user interface (dashboards, forms, alerts, charts) is not modelled.
- Db.Permitted: assumes more than the user interface checks. It is the data rules of the design: a granted amount is positive, and a new quest has a positive reward, `maxAssignees >= 1` and no assignees. The teacher's quest form (`components/TeacherDashboard.tsx:55` and `:62`) turns away only a reward of 0 or NaN and replaces only a `maxAssignees` of 0 or NaN. A negative reward or capacity gets through, and approving a quest with a negative reward is an EARN that can take `currentGold` below 0. `StoreProperties.StepKeepsValid`, `RunKeepsValid` and `SeedLedger` hold only for calls that satisfy `Permitted`.
- LedgerProperties.UpdateUserGoldKeepsValid: proves that balances stay non-negative only when an EARN amount is not negative. The code accepts any amount, and a negative EARN can make a balance negative.
- QuestProperties.CreateQuestKeepsValid: assumes the new quest is well formed, because `createQuest` itself checks nothing.
- StoreProperties.SeedLedger: `currentGold` is bounded below by the log rather than equal to it, because a clamped SPEND logs more than it takes away.
