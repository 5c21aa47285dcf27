/**
 * The name column of the task table: whether a task has an active repeat
 * goal, whether an email reminder will be sent for it, and the goal label
 * ("every N days", "every 1 day" or "no goal") shown under its name.
 */
module TaskColumn {
  import opened Wrappers
  import opened Tasks

  datatype Settings = Settings(remindByEmailEnabled: bool)

  /** The signed-in user as the auth hook gives it; `settings` may be missing. */
  datatype User = User(settings: Option<Settings>)

  const NoGoalLabel: string := "no goal"

  // ---------------------------------------------------------------------------
  // Decimal rendering of a number inside a template literal
  // ---------------------------------------------------------------------------

  predicate IsDigits(s: string) {
    forall i :: 0 <= i < |s| ==> '0' <= s[i] <= '9'
  }

  function DigitChar(d: nat): (c: char)
    requires d < 10
    ensures '0' <= c <= '9' && c as int - '0' as int == d
  {
    ('0' as int + d) as char
  }

  /** The decimal digits of `n`, most significant first, without leading zeros. */
  function Decimal(n: nat): (s: string)
    ensures |s| > 0 && IsDigits(s)
    ensures s[0] == '0' ==> n == 0
    ensures n < 10 <==> |s| == 1
  {
    if n < 10 then [DigitChar(n)] else Decimal(n / 10) + [DigitChar(n % 10)]
  }

  /** The number a string of decimal digits denotes. */
  function DigitsValue(s: string): (value: nat)
    requires IsDigits(s)
  {
    if s == [] then 0 else DigitsValue(s[..|s| - 1]) * 10 + (s[|s| - 1] as int - '0' as int)
  }

  /** Reading the rendered digits back gives the number. */
  lemma {:induction false} DigitsValueOfDecimal(n: nat)
    ensures DigitsValue(Decimal(n)) == n
  {
    if n >= 10 {
      var s := Decimal(n);
      assert s[..|s| - 1] == Decimal(n / 10);
      DigitsValueOfDecimal(n / 10);
    }
  }

  // ---------------------------------------------------------------------------
  // The column's decisions
  // ---------------------------------------------------------------------------

  /** `!!user?.settings?.remindByEmailEnabled` */
  function GlobalRemindByEmailEnabled(user: Option<User>): (enabled: bool)
    ensures enabled ==> user.Some? && user.value.settings.Some?
    ensures enabled <==> user == Some(User(Some(Settings(true))))
  {
    match user
    case None => false
    case Some(u) =>
      match u.settings
      case None => false
      case Some(s) => s.remindByEmailEnabled
  }

  /** The task has an active repeat goal: a positive number of days and the flag set. */
  function RepeatGoalEnabled(task: Task): (active: bool)
    ensures active ==> task.daysRepeat.Some? && task.daysRepeat.value > 0
    ensures active ==> task.repeatGoalEnabled
    ensures task.daysRepeat.None? || task.daysRepeat.value <= 0 ==> !active
  {
    task.daysRepeat.Some? && task.daysRepeat.value > 0 && task.repeatGoalEnabled
  }

  /** An email reminder is sent when the user's setting, the goal and the task's own opt-in all hold. */
  function WillSendEmailReminder(user: Option<User>, task: Task): (send: bool)
    ensures send ==> RepeatGoalEnabled(task) && task.remindByEmail
    ensures send ==> user.Some? && user.value.settings.Some?
    ensures send <==>
              GlobalRemindByEmailEnabled(user) && RepeatGoalEnabled(task) && task.remindByEmail
  {
    GlobalRemindByEmailEnabled(user) && RepeatGoalEnabled(task) && task.remindByEmail
  }

  /** The goal label shown under the task's name. */
  function GoalLabel(task: Task): (text: string)
    ensures RepeatGoalEnabled(task) ==> |text| > 6 && text[..6] == "every "
    ensures !RepeatGoalEnabled(task) ==> text == NoGoalLabel
  {
    if RepeatGoalEnabled(task) then
      var n := task.daysRepeat.value;
      "every " + Decimal(n) + (if n == 1 then " day" else " days")
    else NoGoalLabel
  }

  /**
   * Reads a goal label back: the number of days of "every N day" or
   * "every N days", and `None` for anything else.
   */
  function ParseGoalLabel(text: string): (days: Option<int>)
  {
    if |text| >= 6 && text[..6] == "every " then
      var rest := text[6..];
      if |rest| > 5 && rest[|rest| - 5..] == " days" && IsDigits(rest[..|rest| - 5]) then
        Some(DigitsValue(rest[..|rest| - 5]))
      else if |rest| > 4 && rest[|rest| - 4..] == " day" && IsDigits(rest[..|rest| - 4]) then
        Some(DigitsValue(rest[..|rest| - 4]))
      else None
    else None
  }

  /** The label gives back exactly the goal's number of days, and nothing when there is no goal. */
  lemma GoalLabelRoundTrip(task: Task)
    ensures ParseGoalLabel(GoalLabel(task)) ==
              if RepeatGoalEnabled(task) then Some(task.daysRepeat.value) else None
  {
    var text := GoalLabel(task);
    if RepeatGoalEnabled(task) {
      var n := task.daysRepeat.value;
      var d := Decimal(n);
      DigitsValueOfDecimal(n);
      var rest := text[6..];
      if n == 1 {
        assert text == "every 1 day";
      } else {
        assert rest == d + " days";
        assert rest[..|rest| - 5] == d;
      }
    } else {
      assert text[..6][0] == 'n';
    }
  }

  /** Two active goals with the same label have the same number of days. */
  lemma GoalLabelDeterminesDays(t1: Task, t2: Task)
    requires RepeatGoalEnabled(t1) && RepeatGoalEnabled(t2)
    requires GoalLabel(t1) == GoalLabel(t2)
    ensures t1.daysRepeat == t2.daysRepeat
  {
    GoalLabelRoundTrip(t1);
    GoalLabelRoundTrip(t2);
  }

  /** The label reads "no goal" exactly when the goal is not active. */
  lemma NoGoalLabelIffInactive(task: Task)
    ensures GoalLabel(task) == NoGoalLabel <==>
              task.daysRepeat.None? || task.daysRepeat.value <= 0 || !task.repeatGoalEnabled
  {
    if RepeatGoalEnabled(task) {
      assert GoalLabel(task)[..6][0] == 'e';
    }
  }

  /** The singular form is used for one day only. */
  lemma GoalLabelPlural(task: Task)
    requires RepeatGoalEnabled(task)
    ensures task.daysRepeat.value == 1 <==> GoalLabel(task) == "every 1 day"
    ensures task.daysRepeat.value != 1 ==>
              GoalLabel(task) == "every " + Decimal(task.daysRepeat.value) + " days"
  {
  }

  lemma GoalLabelExamples(task: Task)
    requires task.repeatGoalEnabled
    ensures task.daysRepeat == Some(3) ==> GoalLabel(task) == "every 3 days"
    ensures task.daysRepeat == Some(14) ==> GoalLabel(task) == "every 14 days"
    ensures task.daysRepeat == Some(0) ==> GoalLabel(task) == "no goal"
  {
    assert Decimal(14) == Decimal(1) + [DigitChar(4)];
  }

  /** What the cell renders: the name, the goal label, its muted style and the envelope icon. */
  datatype ColumnDisplay = ColumnDisplay(
    taskName: string,
    goalLabel: string,
    goalMuted: bool,
    envelopeShown: bool)

  function TaskColumnDisplay(user: Option<User>, task: Task): (d: ColumnDisplay)
    ensures d.taskName == task.name
    ensures d.goalMuted <==> d.goalLabel == NoGoalLabel
    ensures ParseGoalLabel(d.goalLabel) ==
              if RepeatGoalEnabled(task) then Some(task.daysRepeat.value) else None
    ensures d.goalLabel == GoalLabel(task)
    ensures d.envelopeShown <==> WillSendEmailReminder(user, task)
    ensures d.envelopeShown ==> !d.goalMuted && task.remindByEmail && GlobalRemindByEmailEnabled(user)
  {
    GoalLabelRoundTrip(task);
    NoGoalLabelIffInactive(task);
    var active := RepeatGoalEnabled(task);
    ColumnDisplay(task.name, GoalLabel(task), !active, WillSendEmailReminder(user, task))
  }
}
