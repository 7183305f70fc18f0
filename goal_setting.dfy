/**
 * The goal-setting page: five form fields and a deadline, the validator that
 * turns them into an error map (with its near-deadline interception), and the
 * submit handler that sends one record to the data store when validation passes.
 */
module GoalSetting {
  import opened Optional

  /** What an amount box holds: the initial empty string, a number, or `NaN`. */
  datatype AmountInput = Blank | Amount(value: int) | NotANumber

  /** The five text/amount fields and the picked deadline (as its `YYYY-MM-DD` text). */
  datatype FormFields = FormFields(
    goal: string,
    amazonLink1: string,
    money1: AmountInput,
    amazonLink2: string,
    money2: AmountInput,
    deadline: Option<string>)

  /** The keys of the error map: "goal", "amazonLink1", "money1", "amazonLink2", "money2", "deadline". */
  datatype Field = Goal | AmazonLink1 | Money1 | AmazonLink2 | Money2 | Deadline

  const AllFields: set<Field> := {Goal, AmazonLink1, Money1, AmazonLink2, Money2, Deadline}

  const GoalMessage := "目標を入力してください"
  const AmazonLink1Message := "ご褒美のリンクを入力してください"
  const Money1Message := "金額を正しく入力してください"
  const AmazonLink2Message := "2人目のご褒美のリンクを入力してください"
  const Money2Message := "2人目の金額を正しく入力してください"
  const DeadlineMessage := "期限を選択してください"

  /** The page the submit handler navigates to after a successful create. */
  const ResultRoute := "/goal-result"

  /** JavaScript truthiness of an amount box: `""`, `0` and `NaN` are falsy. */
  predicate IsFalsy(m: AmountInput) {
    m == Blank || m == Amount(0) || m == NotANumber
  }

  /** `isNaN(m)`; for the empty string `Number("")` is 0, so only `NaN` itself counts. */
  predicate IsNaN(m: AmountInput) {
    m.NotANumber?
  }

  /** The amount rule stated per case: blank, zero and NaN are refused, every other number passes. */
  predicate AmountRejected(m: AmountInput) {
    match m
    case Blank => true
    case NotANumber => true
    case Amount(n) => n == 0
  }

  /** The message a field shows for the given form, if the field is invalid. */
  function FieldError(f: FormFields, k: Field): Option<string> {
    match k
    case Goal => if f.goal == "" then Some(GoalMessage) else None
    case AmazonLink1 => if f.amazonLink1 == "" then Some(AmazonLink1Message) else None
    case Money1 => if AmountRejected(f.money1) then Some(Money1Message) else None
    case AmazonLink2 => if f.amazonLink2 == "" then Some(AmazonLink2Message) else None
    case Money2 => if AmountRejected(f.money2) then Some(Money2Message) else None
    case Deadline => if f.deadline.None? then Some(DeadlineMessage) else None
  }

  /**
   * The error map the validator builds, checking the fields in order and adding
   * an entry for each one that fails; it agrees with the per-field rule.
   */
  function FieldErrors(f: FormFields): (m: map<Field, string>)
    ensures forall k :: k in m <==> FieldError(f, k).Some?
    ensures forall k :: k in m ==> m[k] == FieldError(f, k).value
  {
    var m0: map<Field, string> := map[];
    var m1 := if f.goal == "" then m0[Goal := GoalMessage] else m0;
    var m2 := if f.amazonLink1 == "" then m1[AmazonLink1 := AmazonLink1Message] else m1;
    var m3 := if IsFalsy(f.money1) || IsNaN(f.money1) then m2[Money1 := Money1Message] else m2;
    var m4 := if f.amazonLink2 == "" then m3[AmazonLink2 := AmazonLink2Message] else m3;
    var m5 := if IsFalsy(f.money2) || IsNaN(f.money2) then m4[Money2 := Money2Message] else m4;
    if f.deadline.None? then m5[Deadline := DeadlineMessage] else m5
  }

  /** `Object.keys(m).length === 0` is the empty map. */
  lemma EmptyIffNoKeys(m: map<Field, string>)
    ensures |m| == 0 <==> m == map[]
  {
  }

  /** Every field is acceptable. */
  predicate Complete(f: FormFields) {
    && f.goal != ""
    && f.amazonLink1 != ""
    && !AmountRejected(f.money1)
    && f.amazonLink2 != ""
    && !AmountRejected(f.money2)
    && f.deadline.Some?
  }

  /** A picked deadline whose whole-day distance from now is between 0 and 7 inclusive. */
  predicate NearDeadline(deadline: Option<string>, diffInDays: int) {
    deadline.Some? && 0 <= diffInDays <= 7
  }

  lemma {:induction false} NoErrorsIffComplete(f: FormFields)
    ensures FieldErrors(f) == map[] <==> Complete(f)
  {
    var m := FieldErrors(f);
    if Complete(f) {
      forall k | k in AllFields ensures FieldError(f, k).None? {
        match k
        case Goal =>
        case AmazonLink1 =>
        case Money1 =>
        case AmazonLink2 =>
        case Money2 =>
        case Deadline =>
      }
      assert m.Keys == {};
    } else {
      var k :| k in AllFields && FieldError(f, k).Some?;
      assert k in m;
    }
  }

  /** Each empty text field is reported under its own key, and a non-empty one is not. */
  lemma RequiredTextFieldsReported(f: FormFields)
    ensures Goal in FieldErrors(f) <==> f.goal == ""
    ensures AmazonLink1 in FieldErrors(f) <==> f.amazonLink1 == ""
    ensures AmazonLink2 in FieldErrors(f) <==> f.amazonLink2 == ""
    ensures f.goal == "" ==> FieldErrors(f)[Goal] == GoalMessage
    ensures f.amazonLink1 == "" ==> FieldErrors(f)[AmazonLink1] == AmazonLink1Message
    ensures f.amazonLink2 == "" ==> FieldErrors(f)[AmazonLink2] == AmazonLink2Message
  {
  }

  /** An amount is reported exactly when it is blank, zero or NaN; negative numbers pass. */
  lemma AmountsReported(f: FormFields)
    ensures Money1 in FieldErrors(f) <==> f.money1 in {Blank, Amount(0), NotANumber}
    ensures Money2 in FieldErrors(f) <==> f.money2 in {Blank, Amount(0), NotANumber}
    ensures f.money1.Amount? && f.money1.value < 0 ==> Money1 !in FieldErrors(f)
    ensures f.money2.Amount? && f.money2.value < 0 ==> Money2 !in FieldErrors(f)
  {
  }

  /** The outcome of one validation: the return value, the errors shown afterwards, and whether the warning is raised. */
  datatype Validation = Validation(valid: bool, errors: map<Field, string>, raisesSnackbar: bool)

  /**
   * One call of the validator on form `f`, where `diffInDays` is the deadline's
   * whole-day distance from now and `previous` the errors currently shown.
   */
  function Validate(f: FormFields, diffInDays: int, previous: map<Field, string>): (v: Validation)
    ensures NearDeadline(f.deadline, diffInDays) ==>
      !v.valid && v.raisesSnackbar && v.errors == previous
    ensures !NearDeadline(f.deadline, diffInDays) ==>
      !v.raisesSnackbar && v.errors == FieldErrors(f) && (v.valid <==> v.errors == map[])
    ensures v.valid <==> !NearDeadline(f.deadline, diffInDays) && Complete(f)
  {
    NoErrorsIffComplete(f);
    if NearDeadline(f.deadline, diffInDays) then Validation(false, previous, true)
    else Validation(Complete(f), FieldErrors(f), false)
  }

  /** Submitting again with the same near deadline warns again: nothing records that the warning was seen. */
  lemma NearDeadlineWarnsEveryTime(f: FormFields, diffInDays: int, previous: map<Field, string>)
    requires NearDeadline(f.deadline, diffInDays)
    ensures var first := Validate(f, diffInDays, previous);
            var second := Validate(f, diffInDays, first.errors);
            !first.valid && !second.valid && second.raisesSnackbar && second.errors == previous
  {
  }

  /** The record sent to the store's create call. */
  datatype GoalPayload = GoalPayload(
    goal: string,
    reward1: string,
    money1: int,
    reward2: string,
    money2: int,
    goalDate: Option<string>)

  /** The payload built from a form whose amounts are numbers (the validator guarantees it). */
  function Payload(f: FormFields): GoalPayload
    requires f.money1.Amount? && f.money2.Amount?
  {
    GoalPayload(f.goal, f.amazonLink1, f.money1.value, f.amazonLink2, f.money2.value, f.deadline)
  }

  /** The page's component state. */
  class GoalSettingPage {
    var goal: string
    var amazonLink1: string
    var money1: AmountInput
    var amazonLink2: string
    var money2: AmountInput
    var deadline: Option<string>
    var errors: map<Field, string>
    var showSnackbar: bool

    /** The form as the validator sees it; the error map and the warning flag are not part of it. */
    function Fields(): FormFields
      reads this`goal, this`amazonLink1, this`money1, this`amazonLink2, this`money2, this`deadline
    {
      FormFields(goal, amazonLink1, money1, amazonLink2, money2, deadline)
    }

    constructor ()
      ensures Fields() == FormFields("", "", Blank, "", Blank, None)
      ensures errors == map[] && !showSnackbar
    {
      goal, amazonLink1, money1, amazonLink2, money2, deadline := "", "", Blank, "", Blank, None;
      errors, showSnackbar := map[], false;
    }

    /** The field checks of the validator: one entry per empty or malformed field, in field order. */
    method CollectFieldErrors() returns (newErrors: map<Field, string>)
      ensures newErrors == FieldErrors(Fields())
    {
      newErrors := map[];
      if goal == "" {
        newErrors := newErrors[Goal := GoalMessage];
      }
      if amazonLink1 == "" {
        newErrors := newErrors[AmazonLink1 := AmazonLink1Message];
      }
      if IsFalsy(money1) || IsNaN(money1) {
        newErrors := newErrors[Money1 := Money1Message];
      }
      if amazonLink2 == "" {
        newErrors := newErrors[AmazonLink2 := AmazonLink2Message];
      }
      if IsFalsy(money2) || IsNaN(money2) {
        newErrors := newErrors[Money2 := Money2Message];
      }
      if deadline.None? {
        newErrors := newErrors[Deadline := DeadlineMessage];
      }
    }

    /**
     * Runs the field checks; then a near deadline raises the warning and
     * returns false before the new map is stored, so the old errors stay.
     * Otherwise the new map replaces the errors and the form is valid when it is empty.
     */
    method ValidateForm(diffInDays: int) returns (valid: bool)
      modifies this`errors, this`showSnackbar
      ensures var v := Validate(Fields(), diffInDays, old(errors));
              && valid == v.valid
              && errors == v.errors
              && showSnackbar == (old(showSnackbar) || v.raisesSnackbar)
    {
      var newErrors := CollectFieldErrors();
      if deadline.Some? {
        if diffInDays <= 7 && diffInDays >= 0 {
          showSnackbar := true;
          return false;
        }
      }
      errors := newErrors;
      valid := |newErrors| == 0;
      EmptyIffNoKeys(newErrors);
    }

    /**
     * Validates, then issues the create call with the renamed fields and
     * navigates to the result page; a failed validation does neither.
     */
    method HandleSubmit(diffInDays: int) returns (created: Option<GoalPayload>, route: Option<string>)
      modifies this`errors, this`showSnackbar
      ensures var v := Validate(Fields(), diffInDays, old(errors));
              && errors == v.errors
              && showSnackbar == (old(showSnackbar) || v.raisesSnackbar)
              && created == (if v.valid then Some(Payload(Fields())) else None)
              && route == (if v.valid then Some(ResultRoute) else None)
    {
      var ok := ValidateForm(diffInDays);
      if !ok {
        return None, None;
      }
      created := Some(GoalPayload(goal, amazonLink1, money1.value, amazonLink2, money2.value, deadline));
      route := Some(ResultRoute);
    }
  }
}
