/**
 * The deadline step of the wizard: the fixed choices of the deadline buttons
 * (`calc_deadline`), their rendering in the summary (`format_deadline`) and
 * the request body of `yg_create_task`, whose deadline is noon UTC of the
 * chosen date.
 */
module Deadline {
  import opened Wrappers
  import opened Text
  import opened Calendar

  /** Days after today for a lower-cased button value; anything unknown means today. */
  function ChoiceOffset(c: string): nat {
    if c == "tomorrow" then 1
    else if c == "day_after_tomorrow" then 2
    else if c == "week" then 7
    else if c == "month" then 30
    else 0
  }

  /** `d + timedelta(days=n)`, `None` for the `OverflowError` past `date.max`. */
  function Shift(d: Date, n: nat): (r: Option<Date>)
    requires Valid(d)
    ensures r.Some? ==> Valid(r.value) && Ordinal(r.value) == Ordinal(d) + n
    ensures r.None? <==> Ordinal(d) + n > MaxOrdinal
  {
    if Ordinal(d) + n <= MaxOrdinal then
      AddDaysOrdinal(d, n);
      Some(AddDays(d, n))
    else None
  }

  /**
   * `calc_deadline(choice)` with `date.today()` passed in as `today`:
   * the choice is lower-cased, and today, tomorrow, day_after_tomorrow, week and
   * month are 0, 1, 2, 7 and 30 days ahead; any other choice, `None` included,
   * is today. `None` stands for the `OverflowError` of a date past 9999-12-31.
   */
  function CalcDeadline(choice: Option<string>, today: Date): (r: Option<Date>)
    requires Valid(today)
    ensures var k := ChoiceOffset(LowerStr(choice.GetOr("")));
      && (r.Some? ==> Valid(r.value) && Ordinal(r.value) == Ordinal(today) + k)
      && (r.None? <==> Ordinal(today) + k > MaxOrdinal)
      && (k == 0 ==> r == Some(today))
  {
    var c := LowerStr(choice.GetOr(""));
    if c == "today" then Some(today)
    else if c == "tomorrow" then Shift(today, 1)
    else if c == "day_after_tomorrow" then Shift(today, 2)
    else if c == "week" then Shift(today, 7)
    else if c == "month" then Shift(today, 30)
    else Some(today)
  }

  /** The deadline date is fixed by the choice: whatever the spelling, it is the one date `k` days on. */
  lemma CalcDeadlineUnique(choice: Option<string>, today: Date, d: Date)
    requires Valid(today) && Valid(d)
    requires Ordinal(d) == Ordinal(today) + ChoiceOffset(LowerStr(choice.GetOr("")))
    ensures CalcDeadline(choice, today) == Some(d)
  {
    AtMostMax(d);
    var r := CalcDeadline(choice, today);
    OrdinalInjective(r.value, d);
  }

  /** The lower-cased choices that have a label of their own. */
  predicate IsNamedChoice(c: string) {
    c == "none" || c == "today" || c == "tomorrow" || c == "day_after_tomorrow" || c == "week" || c == "month"
  }

  /**
   * `format_deadline(choice, deadline, raw_display)`: the human label of the
   * choice and the summary string, which appends `(DD.MM.YYYY)` when there is
   * a deadline date.
   */
  function FormatDeadline(choice: Option<string>, deadline: Option<Date>, rawDisplay: Option<string>): (r: (string, string))
    requires deadline.Some? ==> Valid(deadline.value)
    ensures r.0 != ""
    ensures deadline.None? ==> r.1 == r.0
    ensures deadline.Some? ==> r.1 == r.0 + " (" + DottedString(deadline.value) + ")"
    ensures var c := LowerStr(choice.GetOr(""));
      && (c == "none" ==> r.0 == "Без дедлайна")
      && (c == "today" ==> r.0 == "Сегодня")
      && (c == "tomorrow" ==> r.0 == "Завтра")
      && (c == "day_after_tomorrow" ==> r.0 == "Послезавтра")
      && (c == "week" ==> r.0 == "Через неделю")
      && (c == "month" ==> r.0 == "Через месяц")
      && (c == "custom" && rawDisplay.Some? && rawDisplay.value != "" ==> r.0 == rawDisplay.value)
    ensures var c := LowerStr(choice.GetOr(""));
      !IsNamedChoice(c) && !(c == "custom" && rawDisplay.Some? && rawDisplay.value != "") ==>
        r.0 == (if deadline.Some? then DottedString(deadline.value) else "без дедлайна")
  {
    var c := LowerStr(choice.GetOr(""));
    var human :=
      if c == "none" then "Без дедлайна"
      else if c == "today" then "Сегодня"
      else if c == "tomorrow" then "Завтра"
      else if c == "day_after_tomorrow" then "Послезавтра"
      else if c == "week" then "Через неделю"
      else if c == "month" then "Через месяц"
      else if c == "custom" && rawDisplay.Some? && rawDisplay.value != "" then rawDisplay.value
      else if deadline.Some? then DottedString(deadline.value)
      else "без дедлайна";
    if deadline.Some? then (human, human + " (" + DottedString(deadline.value) + ")")
    else (human, if human != "" then human else "без дедлайна")
  }

  /** The summary string names the deadline date: two different dates never render alike. */
  lemma FormatDeadlineNamesDate(c1: Option<string>, c2: Option<string>, d1: Date, d2: Date, raw1: Option<string>, raw2: Option<string>)
    requires Valid(d1) && Valid(d2)
    requires FormatDeadline(c1, Some(d1), raw1).1 == FormatDeadline(c2, Some(d2), raw2).1
    ensures d1 == d2
  {
    var s1, s2 := FormatDeadline(c1, Some(d1), raw1).1, FormatDeadline(c2, Some(d2), raw2).1;
    assert s1[|s1| - 11..|s1| - 1] == DottedString(d1);
    assert s2[|s2| - 11..|s2| - 1] == DottedString(d2);
    DottedStringInjective(d1, d2);
  }

  // ---------------------------------------------------------------------------
  // The body of POST /tasks
  // ---------------------------------------------------------------------------

  datatype DeadlineField = DeadlineField(deadline: int, withTime: bool)

  /** The JSON body of `yg_create_task`; `None` is a key left out (or a JSON null for title and column). */
  datatype TaskBody = TaskBody(
    title: Option<string>,
    columnId: Option<string>,
    description: string,
    assignees: Option<seq<string>>,
    deadline: Option<DeadlineField>)

  /**
   * The body `yg_create_task` posts: `assignees` only for a non-empty assignee id,
   * `deadline` only when there is a date, as noon UTC of that date in epoch
   * milliseconds with `withTime` false.
   */
  function TaskBodyFor(title: Option<string>, columnId: Option<string>, description: string,
                       assigneeId: Option<string>, deadline: Option<Date>): (b: TaskBody)
    requires deadline.Some? ==> Valid(deadline.value)
    ensures b.title == title && b.columnId == columnId && b.description == description
    ensures b.assignees.Some? <==> assigneeId.Some? && assigneeId.value != ""
    ensures b.assignees.Some? ==> b.assignees.value == [assigneeId.value]
    ensures b.deadline.Some? <==> deadline.Some?
    ensures deadline.Some? ==>
      && !b.deadline.value.withTime
      && b.deadline.value.deadline % MsPerDay == MsPerDay / 2
      && b.deadline.value.deadline / MsPerDay == Ordinal(deadline.value) - EpochOrdinal
  {
    var assignees := if assigneeId.Some? && assigneeId.value != "" then Some([assigneeId.value]) else None;
    var dl := if deadline.Some? then
                NoonUtcMsIsNoon(deadline.value);
                Some(DeadlineField(NoonUtcMs(deadline.value), false))
              else None;
    TaskBody(title, columnId, description, assignees, dl)
  }
}
