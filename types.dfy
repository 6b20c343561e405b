/** The data shapes of the classroom economy, the string values of its
    enumerations, and the rank helpers derived from a student's lifetime
    earnings. */
module Types {

  /** An optional record field (`field?: T`). */
  datatype Option<T> = None | Some(value: T)

  datatype UserRole = Teacher | Student

  /** Lifecycle labels of a quest. No operation of the store changes them,
      so the model carries them as an inert field. */
  datatype QuestStatus = Open | Assigned | Submitted | Completed | Rejected | Cancelled

  datatype TransactionType = Earn | Spend

  datatype SubmissionStatus = Pending | Approved | Rejected

  datatype User = User(
    id: string,
    name: string,
    studentId: Option<string>,
    role: UserRole,
    currentGold: int,
    totalEarnedGold: int)

  datatype Product = Product(
    id: string,
    name: string,
    price: int,
    stock: int,
    description: string)

  datatype Quest = Quest(
    id: string,
    title: string,
    description: string,
    rewardGold: int,
    status: QuestStatus,
    maxAssignees: int,
    currentAssignees: seq<string>,
    dueDate: string,
    createdBy: string)

  datatype QuestSubmission = QuestSubmission(
    id: string,
    questId: string,
    studentId: string,
    studentName: string,
    content: string,
    evidenceLink: Option<string>,
    submittedAt: string,
    status: SubmissionStatus,
    feedback: Option<string>)

  datatype Transaction = Transaction(
    id: string,
    userId: string,
    kind: TransactionType,
    amount: int,
    reason: string,
    date: string)

  // ---------------------------------------------------------------------
  // The string values the enumerations are stored under.

  function RoleValue(r: UserRole): string {
    match r
    case Teacher => "TEACHER"
    case Student => "STUDENT"
  }

  function QuestStatusValue(s: QuestStatus): string {
    match s
    case Open => "OPEN"
    case Assigned => "ASSIGNED"
    case Submitted => "SUBMITTED"
    case Completed => "COMPLETED"
    case Rejected => "REJECTED"
    case Cancelled => "CANCELLED"
  }

  function TransactionTypeValue(t: TransactionType): string {
    match t
    case Earn => "EARN"
    case Spend => "SPEND"
  }

  function SubmissionStatusValue(s: SubmissionStatus): string {
    match s
    case Pending => "PENDING"
    case Approved => "APPROVED"
    case Rejected => "REJECTED"
  }

  /** Distinct enumeration members are stored under distinct strings, so a
      stored record can be read back without ambiguity. */
  lemma EnumValuesDistinct()
    ensures forall a: UserRole, b: UserRole :: RoleValue(a) == RoleValue(b) ==> a == b
    ensures forall a: TransactionType, b: TransactionType ::
      TransactionTypeValue(a) == TransactionTypeValue(b) ==> a == b
    ensures forall a: SubmissionStatus, b: SubmissionStatus ::
      SubmissionStatusValue(a) == SubmissionStatusValue(b) ==> a == b
    ensures forall a: QuestStatus, b: QuestStatus :: QuestStatusValue(a) == QuestStatusValue(b) ==> a == b
  {
  }

  // ---------------------------------------------------------------------
  // Ranks.

  /** The five ranks, lowest first. */
  const TIERS: seq<string> := ["Bronze", "Silver", "Gold", "Platinum", "Diamond"]

  /** The lifetime earnings at which the second to fifth ranks begin. */
  const THRESHOLDS: seq<int> := [50, 150, 300, 600]

  const DEFAULT_COLOR: string := "bg-gray-500 text-white"

  function GetLevel(totalGold: int): string {
    if totalGold < 50 then "Bronze"
    else if totalGold < 150 then "Silver"
    else if totalGold < 300 then "Gold"
    else if totalGold < 600 then "Platinum"
    else "Diamond"
  }

  function GetLevelColor(level: string): string {
    if level == "Bronze" then "bg-orange-700 text-white"
    else if level == "Silver" then "bg-gray-400 text-white"
    else if level == "Gold" then "bg-yellow-500 text-white"
    else if level == "Platinum" then "bg-cyan-500 text-white"
    else if level == "Diamond" then "bg-purple-600 text-white"
    else DEFAULT_COLOR
  }

  /** How many of the thresholds `t` has reached. */
  function Reached(thresholds: seq<int>, t: int): (n: nat)
    ensures n <= |thresholds|
  {
    if thresholds == [] then 0
    else (if thresholds[0] <= t then 1 else 0) + Reached(thresholds[1..], t)
  }

  /** Position of a rank name among the ranks, or -1 for any other string. */
  function TierIndex(level: string): (k: int)
    ensures -1 <= k < |TIERS|
    ensures k >= 0 ==> TIERS[k] == level
    ensures k == -1 <==> level !in TIERS
  {
    if level == "Bronze" then 0
    else if level == "Silver" then 1
    else if level == "Gold" then 2
    else if level == "Platinum" then 3
    else if level == "Diamond" then 4
    else -1
  }

  lemma TiersDistinct()
    ensures forall i, j :: 0 <= i < j < |TIERS| ==> TIERS[i] != TIERS[j]
  {
    assert TIERS[0][0] != TIERS[1][0] && TIERS[0][0] != TIERS[2][0];
    assert TIERS[0][0] != TIERS[3][0] && TIERS[0][0] != TIERS[4][0];
    assert TIERS[1][0] != TIERS[2][0] && TIERS[1][0] != TIERS[3][0] && TIERS[1][0] != TIERS[4][0];
    assert TIERS[2][0] != TIERS[3][0] && TIERS[2][0] != TIERS[4][0];
    assert TIERS[3][0] != TIERS[4][0];
  }

  /** The rank of a total is the rank whose position is the number of
      thresholds the total has reached: Bronze below 50, Silver from 50 to
      149, Gold from 150 to 299, Platinum from 300 to 599, Diamond from 600. */
  lemma {:induction false} LevelByThresholds(totalGold: int)
    ensures GetLevel(totalGold) == TIERS[Reached(THRESHOLDS, totalGold)]
    ensures GetLevel(totalGold) in TIERS
  {
    var t := totalGold;
    var th := THRESHOLDS;
    assert th[1..] == [150, 300, 600] && th[1..][1..] == [300, 600];
    assert th[1..][1..][1..] == [600] && th[1..][1..][1..][1..] == [];
    var n3 := Reached([600], t);
    assert n3 == if 600 <= t then 1 else 0;
    var n2 := Reached([300, 600], t);
    assert n2 == (if 300 <= t then 1 else 0) + n3;
    var n1 := Reached([150, 300, 600], t);
    assert n1 == (if 150 <= t then 1 else 0) + n2;
    assert Reached(th, t) == (if 50 <= t then 1 else 0) + n1;
  }

  /** Each rank name is returned for exactly its range of totals. */
  lemma LevelRanges(totalGold: int)
    ensures GetLevel(totalGold) == "Bronze" <==> totalGold < 50
    ensures GetLevel(totalGold) == "Silver" <==> 50 <= totalGold < 150
    ensures GetLevel(totalGold) == "Gold" <==> 150 <= totalGold < 300
    ensures GetLevel(totalGold) == "Platinum" <==> 300 <= totalGold < 600
    ensures GetLevel(totalGold) == "Diamond" <==> 600 <= totalGold
  {
    TiersDistinct();
  }

  lemma {:induction false} ReachedMonotone(thresholds: seq<int>, a: int, b: int)
    requires a <= b
    ensures Reached(thresholds, a) <= Reached(thresholds, b)
  {
    if thresholds != [] {
      ReachedMonotone(thresholds[1..], a, b);
    }
  }

  /** A larger total never yields a lower rank. */
  lemma LevelMonotone(a: int, b: int)
    requires a <= b
    ensures 0 <= TierIndex(GetLevel(a)) <= TierIndex(GetLevel(b))
  {
    LevelByThresholds(a);
    LevelByThresholds(b);
    ReachedMonotone(THRESHOLDS, a, b);
    TiersDistinct();
  }

  /** Each rank has its own colour, none of them the default one, and any
      string that is not a rank name gets the default colour. */
  lemma LevelColors(level: string)
    ensures forall i, j :: 0 <= i < j < |TIERS| ==> GetLevelColor(TIERS[i]) != GetLevelColor(TIERS[j])
    ensures forall i :: 0 <= i < |TIERS| ==> GetLevelColor(TIERS[i]) != DEFAULT_COLOR
    ensures level !in TIERS ==> GetLevelColor(level) == DEFAULT_COLOR
  {
    TiersDistinct();
    var colors := [GetLevelColor(TIERS[0]), GetLevelColor(TIERS[1]), GetLevelColor(TIERS[2]),
                   GetLevelColor(TIERS[3]), GetLevelColor(TIERS[4]), DEFAULT_COLOR];
    assert colors == ["bg-orange-700 text-white", "bg-gray-400 text-white", "bg-yellow-500 text-white",
                      "bg-cyan-500 text-white", "bg-purple-600 text-white", "bg-gray-500 text-white"];
    assert colors[0][3] != colors[1][3] && colors[0][3] != colors[2][3] && colors[0][3] != colors[3][3];
    assert colors[0][3] != colors[4][3] && colors[0][3] != colors[5][3];
    assert colors[1][8] != colors[5][8] && colors[1][3] != colors[2][3] && colors[1][3] != colors[3][3];
    assert colors[1][3] != colors[4][3];
    assert colors[2][3] != colors[3][3] && colors[2][3] != colors[4][3] && colors[2][3] != colors[5][3];
    assert colors[3][3] != colors[4][3] && colors[3][3] != colors[5][3] && colors[4][3] != colors[5][3];
  }
}
