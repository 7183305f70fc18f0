/**
 * The goal-result page: picks the most recently created goal record from the
 * store's snapshot, derives one progress entry per participant, and runs the
 * simulated audit that a proof-image upload starts and a timer completes.
 */
module GoalResult {
  import opened Optional

  const PendingLabel := "審査中"
  const SuccessLabel := "目標達成"
  const FailureLabel := "失敗"

  /** The audit's three states; each is shown by its label. */
  datatype AuditStatus = Pending | Success | Failure {
    function Label(): string {
      match this
      case Pending => PendingLabel
      case Success => SuccessLabel
      case Failure => FailureLabel
    }
  }

  /** One participant's entry on the page. */
  datatype UserGoal = UserGoal(goal: string, reward: string, amount: int, status: string, deadline: string)

  /** A record as the store delivers it: every field may be missing; `createdAt` is a time in milliseconds. */
  datatype GoalRecord = GoalRecord(
    goal: Option<string>,
    reward1: Option<string>,
    money1: Option<int>,
    reward2: Option<string>,
    money2: Option<int>,
    goalDate: Option<string>,
    createdAt: Option<int>)

  /**
   * Record `i` is the one the page shows: it has a creation time, no record is
   * newer, and every record before it is strictly older (the sort is stable,
   * so among equal times the earliest in the snapshot stays first).
   */
  predicate IsLatest(records: seq<GoalRecord>, i: int) {
    && 0 <= i < |records|
    && records[i].createdAt.Some?
    && (forall j :: 0 <= j < |records| && records[j].createdAt.Some? ==>
          records[j].createdAt.value <= records[i].createdAt.value)
    && (forall j :: 0 <= j < i && records[j].createdAt.Some? ==>
          records[j].createdAt.value < records[i].createdAt.value)
  }

  /**
   * The position of the record the page shows: records without a creation time
   * are dropped, the rest ordered newest first, and the first one taken.
   */
  function LatestIndex(records: seq<GoalRecord>): (r: Option<nat>)
    ensures r.None? <==> forall j :: 0 <= j < |records| ==> records[j].createdAt.None?
    ensures r.Some? ==> IsLatest(records, r.value)
  {
    if records == [] then None
    else
      var last := |records| - 1;
      var earlier := LatestIndex(records[..last]);
      assert forall j :: 0 <= j < last ==> records[..last][j] == records[j];
      if records[last].createdAt.None? then earlier
      else if earlier.None? then Some(last)
      else if records[earlier.value].createdAt.value < records[last].createdAt.value then Some(last)
      else earlier
  }

  /** Only one position satisfies `IsLatest`, so the choice above is fully determined. */
  lemma LatestIsUnique(records: seq<GoalRecord>, i: int, j: int)
    requires IsLatest(records, i) && IsLatest(records, j)
    ensures i == j
  {
  }

  /** The two entries derived from a record, with `""` and `0` standing in for missing fields. */
  function DeriveUserGoals(rec: GoalRecord): (goals: seq<UserGoal>)
    ensures |goals| == 2
    ensures goals[0].goal == goals[1].goal == rec.goal.GetOr("")
    ensures goals[0].deadline == goals[1].deadline == rec.goalDate.GetOr("")
    ensures goals[0].reward == rec.reward1.GetOr("") && goals[0].amount == rec.money1.GetOr(0)
    ensures goals[1].reward == rec.reward2.GetOr("") && goals[1].amount == rec.money2.GetOr(0)
    ensures goals[0].status == goals[1].status == PendingLabel
  {
    var goal := rec.goal.GetOr("");
    var goalDate := rec.goalDate.GetOr("");
    [ UserGoal(goal, rec.reward1.GetOr(""), rec.money1.GetOr(0), PendingLabel, goalDate),
      UserGoal(goal, rec.reward2.GetOr(""), rec.money2.GetOr(0), PendingLabel, goalDate) ]
  }

  /**
   * The entries after the audit callback has run on them: the first two (as
   * many as exist) are marked achieved; nothing else about any entry changes.
   */
  function MarkAchieved(goals: seq<UserGoal>): (r: seq<UserGoal>)
    ensures |r| == |goals|
    ensures forall k :: 0 <= k < |goals| ==>
      && r[k].goal == goals[k].goal
      && r[k].reward == goals[k].reward
      && r[k].amount == goals[k].amount
      && r[k].deadline == goals[k].deadline
    ensures forall k :: 0 <= k < |goals| ==> r[k].status == if k < 2 then SuccessLabel else goals[k].status
  {
    if |goals| == 0 then goals
    else if |goals| == 1 then goals[0 := goals[0].(status := SuccessLabel)]
    else goals[0 := goals[0].(status := SuccessLabel)][1 := goals[1].(status := SuccessLabel)]
  }

  /** The chip colours an entry's status can take. */
  datatype ChipColor = SuccessChip | WarningChip

  /** An entry's chip is green exactly when its status reads "achieved". */
  function StatusChipColor(status: string): (c: ChipColor)
    ensures c == SuccessChip <==> status == SuccessLabel
    ensures c == WarningChip <==> status != SuccessLabel
  {
    if status == SuccessLabel then SuccessChip else WarningChip
  }

  /** The progress bar is full exactly when the audit succeeded, half full otherwise. */
  function ProgressValue(audit: AuditStatus): (v: int)
    ensures v == 100 <==> audit == Success
    ensures v == 50 <==> audit != Success
  {
    if audit == Success then 100 else 50
  }

  /** Freshly derived entries show warning chips; once the audit has marked them, both show success. */
  lemma AuditTurnsChipsGreen(rec: GoalRecord)
    ensures forall k :: 0 <= k < 2 ==> StatusChipColor(DeriveUserGoals(rec)[k].status) == WarningChip
    ensures forall k :: 0 <= k < 2 ==> StatusChipColor(MarkAchieved(DeriveUserGoals(rec))[k].status) == SuccessChip
  {
  }

  /** The page's component state. */
  class GoalResultPage {
    /** The chosen file, by name. */
    var image: Option<string>
    var auditStatus: AuditStatus
    /** The entries shown; the timer callback writes into this array in place. */
    var userGoals: array<UserGoal>
    /** The last snapshot the subscription delivered. */
    var goalForTwoUsers: seq<GoalRecord>
    /**
     * Audit callbacks scheduled and not yet run, oldest first; each holds the
     * entries array that was current when its file was chosen.
     */
    var timers: seq<array<UserGoal>>

    constructor ()
      ensures image == None && auditStatus == Pending && goalForTwoUsers == [] && timers == []
      ensures fresh(userGoals) && userGoals.Length == 0
    {
      image, auditStatus, goalForTwoUsers, timers := None, Pending, [], [];
      userGoals := new UserGoal[0];
    }

    /**
     * A snapshot from the store's live query: it is stored, and if some record
     * has a creation time the entries are replaced by a fresh pair derived
     * from the latest one; otherwise the entries stay as they were.
     */
    method ReceiveSnapshot(items: seq<GoalRecord>)
      modifies this`goalForTwoUsers, this`userGoals
      ensures goalForTwoUsers == items
      ensures LatestIndex(items).None? ==> userGoals == old(userGoals)
      ensures LatestIndex(items).Some? ==>
        fresh(userGoals) && userGoals[..] == DeriveUserGoals(items[LatestIndex(items).value])
    {
      goalForTwoUsers := items;
      var latest := LatestIndex(items);
      if latest.Some? {
        var derived := DeriveUserGoals(items[latest.value]);
        var data := new UserGoal[2];
        data[0], data[1] := derived[0], derived[1];
        userGoals := data;
      }
    }

    /**
     * The file input changed: the first chosen file (or none) becomes the
     * image. With a file the audit restarts as pending and a callback is
     * scheduled over the current entries array; without one nothing else changes.
     */
    method HandleImageUpload(files: Option<seq<string>>)
      modifies this`image, this`auditStatus, this`timers
      ensures image == (if files.Some? && |files.value| > 0 then Some(files.value[0]) else None)
      ensures image.Some? ==> auditStatus == Pending && timers == old(timers) + [userGoals]
      ensures image.None? ==> auditStatus == old(auditStatus) && timers == old(timers)
    {
      var file := if files.Some? && |files.value| > 0 then Some(files.value[0]) else None;
      image := file;
      if file.Some? {
        auditStatus := Pending;
        timers := timers + [userGoals];
      }
    }

    /**
     * The oldest scheduled callback runs: the audit succeeds, the first two
     * entries of the array it captured are marked achieved in place, and that
     * array becomes the shown one. With fewer than two entries the indexing
     * throws part way (`threw`): the status change already made still stands,
     * and the shown array is not replaced.
     */
    method FireAuditTimer() returns (threw: bool)
      requires timers != []
      modifies this`auditStatus, this`userGoals, this`timers, timers[0]
      ensures auditStatus == Success
      ensures timers == old(timers[1..])
      ensures threw <==> old(timers[0].Length) < 2
      ensures old(timers[0])[..] == MarkAchieved(old(timers[0][..]))
      ensures userGoals == if threw then old(userGoals) else old(timers[0])
    {
      var tmpdata := timers[0];
      timers := timers[1..];
      auditStatus := Success;
      if tmpdata.Length < 1 {
        return true;
      }
      tmpdata[0] := tmpdata[0].(status := SuccessLabel);
      if tmpdata.Length < 2 {
        return true;
      }
      tmpdata[1] := tmpdata[1].(status := SuccessLabel);
      userGoals := tmpdata;
      threw := false;
    }
  }
}
