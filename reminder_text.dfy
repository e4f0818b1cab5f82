/** The message logic of `Reminder.generateReminder`: a chain of checks for
    missing inputs, then three exclusive cases on the current date against
    the expected return date. */
module ReminderText {
  import opened Wrappers
  import opened Text
  import opened Dates

  const MissingLink := "Reminder Error: Transaction or Employee is missing."
  const MissingDueDate := "Reminder Error: Expected return date is missing."
  const MissingEquipment := "Reminder Error: Equipment data is missing."

  datatype Urgency = Overdue | ReturnSoon | NoAction

  /** The date comparison of `generateReminder`, in the order it tests. */
  function Classify(today: Date, due: Date): (u: Urgency)
    ensures u == Overdue <==> today > due
    ensures u == ReturnSoon <==> today == due || today == due - 1
    ensures u == NoAction <==> today <= due - 2
    ensures u == NoAction ==> DaysBetween(today, due) >= 2
  {
    if IsAfter(today, due) then Overdue
    else if !IsAfter(today, due) && IsBefore(MinusDays(due, 2), today) then ReturnSoon
    else NoAction
  }

  function OverdueText(employeeName: string, equipmentName: string, due: Date): string
  {
    employeeName + " has an overdue item: " + equipmentName + ". Due on: " + IsoDate(due)
  }

  function ReturnSoonText(employeeName: string, equipmentName: string, due: Date): string
  {
    employeeName + " should return: " + equipmentName + " by " + IsoDate(due)
  }

  function NoActionText(equipmentName: string, daysLeft: int): string
  {
    "No action needed for: " + equipmentName + ". Time left to return: " + IntToString(daysLeft) + " days."
  }

  /** The message for a complete transaction, chosen by `Classify`. */
  function DueMessage(today: Date, due: Date, employeeName: string, equipmentName: string): string
  {
    match Classify(today, due)
    case Overdue => OverdueText(employeeName, equipmentName, due)
    case ReturnSoon => ReturnSoonText(employeeName, equipmentName, due)
    case NoAction => NoActionText(equipmentName, DaysBetween(today, due))
  }

  /** `generateReminder` on the values it reads: whether both the transaction
      and the employee are present, the transaction's expected return date,
      the name of its equipment (`None` when the equipment is null) and the
      employee's name. Null names print as "null". */
  function Generate(today: Date, linked: bool, due: Option<Date>,
                    equipmentName: Option<JString>, employeeName: JString): string
  {
    if !linked then MissingLink
    else if due.None? then MissingDueDate
    else if equipmentName.None? then MissingEquipment
    else DueMessage(today, due.value, Str(employeeName), Str(equipmentName.value))
  }

  /** The missing-input checks run in a fixed order: a missing transaction or
      employee is reported before a missing date, and a missing date before
      missing equipment; only complete inputs reach the date cases. */
  lemma GenerateChecksInOrder(today: Date, linked: bool, due: Option<Date>,
                              equipmentName: Option<JString>, employeeName: JString)
    ensures !linked ==> Generate(today, linked, due, equipmentName, employeeName) == MissingLink
    ensures linked && due.None? ==> Generate(today, linked, due, equipmentName, employeeName) == MissingDueDate
    ensures linked && due.Some? && equipmentName.None? ==>
      Generate(today, linked, due, equipmentName, employeeName) == MissingEquipment
    ensures linked && due.Some? && equipmentName.Some? ==>
      Generate(today, linked, due, equipmentName, employeeName)
        == DueMessage(today, due.value, Str(employeeName), Str(equipmentName.value))
  {
  }

  /** An error message comes out exactly when some input is missing: no choice
      of names makes a date-case message look like one of the errors. */
  lemma {:induction false} ErrorIffMissing(today: Date, linked: bool, due: Option<Date>,
                                            equipmentName: Option<JString>, employeeName: JString)
    ensures Generate(today, linked, due, equipmentName, employeeName) in {MissingLink, MissingDueDate, MissingEquipment}
        <==> (!linked || due.None? || equipmentName.None?)
  {
    if linked && due.Some? && equipmentName.Some? {
      var msg := Generate(today, linked, due, equipmentName, employeeName);
      var e, q := Str(employeeName), Str(equipmentName.value);
      match Classify(today, due.value)
      case NoAction =>
        assert msg[0] == 'N';
      case Overdue =>
        assert msg == OverdueText(e, q, due.value);
        assert IsDigit(msg[|msg| - 1]);
      case ReturnSoon =>
        assert msg == ReturnSoonText(e, q, due.value);
        assert IsDigit(msg[|msg| - 1]);
    }
  }

  /** Both texts start with the employee name; the word after it differs. */
  lemma OverdueIsNotReturnSoon(employeeName: string, equipmentName: string, due: Date)
    ensures OverdueText(employeeName, equipmentName, due) != ReturnSoonText(employeeName, equipmentName, due)
  {
    var k := |employeeName| + 1;
    assert OverdueText(employeeName, equipmentName, due)[k] == 'h';
    assert ReturnSoonText(employeeName, equipmentName, due)[k] == 's';
  }

  /** The no-action text ends in '.', the other in the last digit of a date. */
  lemma NoActionIsNotReturnSoon(employeeName: string, equipmentName: string, daysLeft: int, due: Date)
    ensures NoActionText(equipmentName, daysLeft) != ReturnSoonText(employeeName, equipmentName, due)
  {
    var soon := ReturnSoonText(employeeName, equipmentName, due);
    assert IsDigit(soon[|soon| - 1]);
  }

  /** The "should return" message appears exactly when today is the due date
      or the day before it, for any names. */
  lemma {:induction false} ReturnSoonWindow(today: Date, due: Date, employeeName: string, equipmentName: string)
    ensures DueMessage(today, due, employeeName, equipmentName) == ReturnSoonText(employeeName, equipmentName, due)
        <==> (today == due || today == due - 1)
  {
    match Classify(today, due)
    case ReturnSoon =>
    case Overdue =>
      OverdueIsNotReturnSoon(employeeName, equipmentName, due);
    case NoAction =>
      NoActionIsNotReturnSoon(employeeName, equipmentName, DaysBetween(today, due), due);
  }

  /** Which message each date gives: overdue after the due date, "should
      return" on the due date and the day before, and otherwise the number
      of days left, which is then at least two. */
  lemma DueMessageByDate(today: Date, due: Date, employeeName: string, equipmentName: string)
    ensures today > due ==>
      DueMessage(today, due, employeeName, equipmentName) == OverdueText(employeeName, equipmentName, due)
    ensures today == due || today == due - 1 ==>
      DueMessage(today, due, employeeName, equipmentName) == ReturnSoonText(employeeName, equipmentName, due)
    ensures today <= due - 2 ==>
      DueMessage(today, due, employeeName, equipmentName) == NoActionText(equipmentName, due - today)
      && due - today >= 2
  {
  }

  /** Due in two days is not yet "return soon": the message reports 2 days left. */
  lemma TwoDaysAheadIsNoAction(today: Date, employeeName: string, equipmentName: string)
    ensures DueMessage(today, today + 2, employeeName, equipmentName) == NoActionText(equipmentName, 2)
  {
  }

}
