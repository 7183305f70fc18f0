/**
 * The two pages together: what the goal-setting page submits is what the
 * goal-result page shows once the store hands the record back, and the
 * upload-then-timer sequence marks both entries achieved.
 */
module GoalFlow {
  import opened Optional
  import opened GoalSetting
  import opened GoalResult

  /** The record the store keeps for a created payload, stamped with its creation time. */
  function StoredRecord(p: GoalPayload, createdAt: int): GoalRecord {
    GoalRecord(Some(p.goal), Some(p.reward1), Some(p.money1), Some(p.reward2), Some(p.money2), p.goalDate, Some(createdAt))
  }

  /**
   * A form that passed validation, once stored and newer than every other
   * record of the snapshot, is the record shown, and its two entries carry the
   * form's goal, deadline and each participant's reward and amount, pending.
   */
  lemma {:induction false} SubmittedGoalIsShown(
    f: FormFields, diffInDays: int, previous: map<Field, string>,
    snapshot: seq<GoalRecord>, i: int, t: int)
    requires Validate(f, diffInDays, previous).valid
    requires 0 <= i < |snapshot| && snapshot[i] == StoredRecord(Payload(f), t)
    requires forall j :: 0 <= j < |snapshot| && j != i && snapshot[j].createdAt.Some? ==>
      snapshot[j].createdAt.value < t
    ensures LatestIndex(snapshot) == Some(i)
    ensures DeriveUserGoals(snapshot[i]) == [
      UserGoal(f.goal, f.amazonLink1, f.money1.value, PendingLabel, f.deadline.value),
      UserGoal(f.goal, f.amazonLink2, f.money2.value, PendingLabel, f.deadline.value)]
  {
    assert IsLatest(snapshot, i);
    var r := LatestIndex(snapshot);
    LatestIsUnique(snapshot, r.value, i);
  }

  /**
   * On a page with no callback pending, a snapshot holding a dated record,
   * then a chosen file, then the timer: the audit is pending right after the
   * upload, and afterwards it has succeeded, the bar is full and both entries
   * derived from the latest record read "achieved" with green chips.
   */
  method UploadAfterSnapshot(page: GoalResultPage, items: seq<GoalRecord>, file: string)
    requires page.timers == []
    requires LatestIndex(items).Some?
    modifies page
    ensures page.auditStatus == Success && ProgressValue(page.auditStatus) == 100
    ensures page.image == Some(file)
    ensures page.userGoals[..] == MarkAchieved(DeriveUserGoals(items[LatestIndex(items).value]))
    ensures forall k :: 0 <= k < page.userGoals.Length ==> StatusChipColor(page.userGoals[k].status) == SuccessChip
  {
    page.ReceiveSnapshot(items);
    page.HandleImageUpload(Some([file]));
    assert page.auditStatus == Pending && ProgressValue(page.auditStatus) == 50;
    var threw := page.FireAuditTimer();
    assert !threw;
  }
}
