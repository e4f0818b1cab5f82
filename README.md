# ECS equipment-loan core, modelled in Dafny

This project models the core of the Equipment Checkout System (ECS). ECS is a
Java desktop application through which construction employees borrow,
return, order and cancel orders of equipment. The model covers:

- **Transaction** (`Ecs.Transaction`), the loan record. It is also the
  subject of the observer pattern: it keeps a duplicate-free list of
  reminders and notifies them when its status or return date changes.
  A ghost log of `Notification`s records every `update` call it makes, with
  the transaction state the observer saw.
- **Reminder** (`Ecs.Reminder`), the observer. `update` re-binds it to the
  notifying transaction. `generateReminder` picks one of three missing-input
  errors or one of three date cases (`ReminderText`).
- **Employee** (`Ecs.Employee`):
  - `checkOut` appends a Borrowed loan of a copy of the equipment, due 49
    days later.
  - `returnEquipment` searches for the first borrowed loan with the ID, then
    closes it and frees its equipment.
  - `orderEquipment` and `cancelOrder` are validation chains. They answer a
    message, or a NullPointerException, together with the database writes
    they issue.
- **Equipment** (`Equipments.Equipment`): a class with mutable status and
  condition.
- **Order** (`Ecs.Order`): an immutable record.
- **The five enumerations' `fromString`** (`Enums`): case-insensitive lookup,
  null in gives null out, and an unknown name gives IllegalArgumentException.
- **`CSVExporter.exportToCSV`** (`Csv`): header, rows, and the quote-doubling
  rule of section 2, rule 7 of RFC 4180. The exporter is a method built from
  loops that grow the output buffer. It is proved equal to the function
  `Document`, and the properties are proved about `Document`.

How Java values are represented:

- Dates are day numbers (`Dates.Date`). The current date is the parameter
  `today`.
- Dates print as `LocalDate.toString` does (`Dates.IsoDate`).
- A nullable value is an `Option`, and a nullable reference stays `T?`.
- A thrown exception is a `Failure(Thrown)`.

## Model

| member | source | states |
|---|---|---|
| Enums.FirstMatch | src/ecsapplication/enums/TransactionStatus.java:24-30 | the lookup loop yields a constant whose name equals the input ignoring case, or reports that no constant matches |
| Enums.FromName | src/ecsapplication/enums/TransactionStatus.java:16-33 | the `fromString` body every enumeration shares: null gives null; a result is a listed constant whose name equals the input ignoring case; it fails exactly when no listed constant matches, and then with IllegalArgument("No enum constant for: " + value) |
| Enums.FromNameOfName | src/ecsapplication/enums/TransactionStatus.java:24-30 | when the names are distinct ignoring case, every spelling of a constant's name finds that constant |
| Enums.TransactionStatusValuesComplete | src/ecsapplication/enums/TransactionStatus.java:10-13 | `values()` lists all four constants |
| Enums.TransactionStatusFromString | src/ecsapplication/enums/TransactionStatus.java:16-33 | null gives null; a result is a constant whose name equals the input ignoring case; failure is exactly IllegalArgument("No enum constant for: " + value) with no matching constant |
| Enums.TransactionStatusRoundTrip | src/ecsapplication/enums/TransactionStatus.java:24-30 | `fromString(c.name()) == c`, and any case variant of the name also gives `c` |
| Enums.EquipmentStatusValuesComplete | src/ecsapplication/enums/EquipmentStatus.java:10-13 | `values()` lists all four constants |
| Enums.EquipmentStatusFromString | src/ecsapplication/enums/EquipmentStatus.java:16-33 | null gives null; a match gives that constant; an unknown name fails with IllegalArgument("No enum constant for: " + value) |
| Enums.EquipmentStatusRoundTrip | src/ecsapplication/enums/EquipmentStatus.java:24-30 | `fromString(c.name()) == c` for every constant and every case variant |
| Enums.SkillClassificationValuesComplete | src/ecsapplication/enums/SkillClassification.java:13-17 | `values()` lists all five skills |
| Enums.SkillClassificationNamesDistinct | src/ecsapplication/enums/SkillClassification.java:13-17 | no two skill names are equal ignoring case, so the first match is the only match |
| Enums.SkillClassificationFromString | src/ecsapplication/enums/SkillClassification.java:20-31 | null gives null; a match gives that constant; an unknown name fails with IllegalArgument("No enum constant for: " + value) |
| Enums.SkillClassificationRoundTrip | src/ecsapplication/enums/SkillClassification.java:24-28 | `fromString(c.name()) == c` for every skill and every case variant |
| Enums.EquipmentConditionValuesComplete | src/ecsapplication/enums/EquipmentCondition.java:11-13 | `values()` lists Good, Damaged and Lost |
| Enums.EquipmentConditionFromString | src/ecsapplication/enums/EquipmentCondition.java:16-27 | null gives null; a match gives that constant; an unknown name fails with IllegalArgument("No enum constant for: " + value) |
| Enums.EquipmentConditionRoundTrip | src/ecsapplication/enums/EquipmentCondition.java:20-24 | `fromString(c.name()) == c` for every constant and every case variant |
| Enums.OrderStatusValuesComplete | src/ecsapplication/enums/OrderStatus.java:10-12 | `values()` lists Pending, Confirmed and Cancelled |
| Enums.OrderStatusFromString | src/ecsapplication/enums/OrderStatus.java:15-26 | null gives null; a match gives that constant; an unknown name fails with IllegalArgument("No enum constant for: " + value) |
| Enums.OrderStatusRoundTrip | src/ecsapplication/enums/OrderStatus.java:19-23 | `fromString(c.name()) == c` for every constant and every case variant |
| Text.EqualsIgnoreCaseSymmetric | src/ecsapplication/enums/OrderStatus.java:20 | `equalsIgnoreCase` does not depend on argument order |
| Text.EqualsIgnoreCaseTransitive | src/ecsapplication/enums/OrderStatus.java:20 | two strings that equal a third ignoring case equal each other ignoring case |
| Text.EqualsIgnoreCaseReflexive | src/ecsapplication/enums/OrderStatus.java:20 | every name equals itself ignoring case |
| Equipments.Equipment.Named | src/ecsapplication/Equipment.java:28-31 | stores id and name; condition, status and required skill stay unset |
| Equipments.Equipment.WithSkillAndCondition | src/ecsapplication/Equipment.java:34-39 | stores id, name, skill and condition; status stays unset |
| Equipments.Equipment.WithStatusAndSkill | src/ecsapplication/Equipment.java:42-47 | stores id, name, status and skill; condition stays unset |
| Equipments.Equipment.Full | src/ecsapplication/Equipment.java:50-58 | stores all five fields as given |
| Equipments.Equipment.WithConditionAndStatus | src/ecsapplication/Equipment.java:61-66 | stores id, name, condition and status; the skill stays unset |
| Equipments.Equipment.Copy | src/ecsapplication/Employee.java:108 | a fresh object with the same field values |
| Equipments.Equipment.SetEquipmentCondition | src/ecsapplication/Equipment.java:95-97 | only the condition changes |
| Equipments.Equipment.SetStatus | src/ecsapplication/Equipment.java:105-107 | only the status changes |
| Ecs.FullOrder | src/ecsapplication/Order.java:60-70 | equipment comes before employee in the arguments, and every argument lands in its own field |
| Ecs.DraftOrder | src/ecsapplication/Order.java:30-34 | orderID 0, no dates and no transaction |
| Ecs.BasicOrder | src/ecsapplication/Order.java:37-45 | pick-up date and transaction unset |
| Ecs.PickUpOrder | src/ecsapplication/Order.java:48-57 | the given pick-up date; transaction unset |
| Ecs.Round | src/ecsapplication/Transaction.java:115-119 | a notification round has one entry per observer, in list order |
| Ecs.Transaction.Empty | src/ecsapplication/Transaction.java:46-48 | every field unset, and no observers |
| Ecs.Transaction.WithStatus | src/ecsapplication/Transaction.java:50-55 | id, employee, equipment and status as given; the rest unset; no observers |
| Ecs.Transaction.Scheduled | src/ecsapplication/Transaction.java:57-68 | the eight arguments as given; return date and both conditions unset; no observers |
| Ecs.Transaction.WithReturnCondition | src/ecsapplication/Transaction.java:70-83 | the nine arguments as given; return date and checkout condition unset; no observers |
| Ecs.Transaction.WithConditions | src/ecsapplication/Transaction.java:85-99 | all ten arguments as given; return date unset; no observers |
| Ecs.Transaction.RegisterObserver | src/ecsapplication/Transaction.java:103-107 | appends only when absent, so the list stays duplicate-free and registering twice is a no-op |
| Ecs.Transaction.RemoveObserver | src/ecsapplication/Transaction.java:110-112 | removes exactly that observer; the others keep their order; no duplicates appear |
| Lists.RemoveFirstSpec | src/ecsapplication/Transaction.java:111 | on a duplicate-free list, removing the first occurrence is the same as filtering the element out |
| Ecs.Transaction.NotifyObservers | src/ecsapplication/Transaction.java:115-119 | one `update(this)` per observer, in order; each observer ends re-bound to this transaction, or unchanged when it has no employee; the transaction's own fields do not change |
| Ecs.Transaction.SetTransactionID | src/ecsapplication/Transaction.java:126-128 | only the ID changes; no notification |
| Ecs.Transaction.SetEmployee | src/ecsapplication/Transaction.java:134-136 | only the employee changes; no notification |
| Ecs.Transaction.SetReturnCondition | src/ecsapplication/Transaction.java:142-144 | only the return condition changes; no notification |
| Ecs.Transaction.SetCheckoutCondition | src/ecsapplication/Transaction.java:150-152 | only the checkout condition changes; no notification |
| Ecs.Transaction.SetEquipment | src/ecsapplication/Transaction.java:158-160 | only the equipment changes; no notification |
| Ecs.Transaction.SetBorrowDate | src/ecsapplication/Transaction.java:174-176 | only the borrow date changes; no notification |
| Ecs.Transaction.SetExpectedReturnDate | src/ecsapplication/Transaction.java:182-184 | only the expected return date changes; no notification |
| Ecs.Transaction.SetTransactionStatus | src/ecsapplication/Transaction.java:190-193 | assigns the status, then exactly one round that sees the new status |
| Ecs.Transaction.SetReturnDate | src/ecsapplication/Transaction.java:199-202 | assigns the return date, then exactly one round that sees it |
| ReminderText.Classify | src/ecsapplication/Reminder.java:143-161 | overdue exactly when today is after the due date; return-soon exactly when today is the due date or the day before; no-action exactly when today is at least two days before it |
| ReminderText.GenerateChecksInOrder | src/ecsapplication/Reminder.java:122-162 | `Generate`, the message of `generateReminder`: a missing transaction or employee is reported first, then a missing due date, then missing equipment; complete inputs get `DueMessage` for the due date, with null names printed as "null" |
| ReminderText.ErrorIffMissing | src/ecsapplication/Reminder.java:123-161 | the message is one of the three errors exactly when an input is missing, whatever the names |
| ReminderText.DueMessageByDate | src/ecsapplication/Reminder.java:143-160 | `DueMessage`, by date: after the due date "{emp} has an overdue item: {eq}. Due on: {due}"; on the due date or the day before "{emp} should return: {eq} by {due}"; otherwise "No action needed for: {eq}. Time left to return: {n} days." with n = due − today, at least 2 |
| ReminderText.ReturnSoonWindow | src/ecsapplication/Reminder.java:153-156 | "{emp} should return: {eq} by {due}" appears exactly when today is the due date or the day before it |
| ReminderText.TwoDaysAheadIsNoAction | src/ecsapplication/Reminder.java:153-160 | a due date two days away gives the no-action message with 2 days left |
| Ecs.Reminder.MessageChecks | src/ecsapplication/Reminder.java:122-162 | `Message`, the text `generateReminder` writes, read off the reminder's own fields: no transaction or no employee gives the missing-link error; then a missing expected return date, then missing equipment; otherwise the date message for the transaction's due date, the employee's name and the equipment's name |
| Dates.IsoDate | src/ecsapplication/Reminder.java:148-156 | `LocalDate.toString` of the due date: a non-empty text ending in a digit, which is what keeps the overdue and return-soon texts apart from the no-action text |
| Ecs.Reminder.Blank | src/ecsapplication/Reminder.java:33-35 | every field unset |
| Ecs.Reminder.Linked | src/ecsapplication/Reminder.java:37-41 | employee and transaction stored; no date, no message |
| Ecs.Reminder.Generated | src/ecsapplication/Reminder.java:43-49 | employee, transaction and date stored; the message is generated at once for the current date |
| Ecs.Reminder.Update | src/ecsapplication/Reminder.java:55-78 | a null transaction or a missing employee changes nothing; otherwise the reminder is bound to the transaction and its employee, dated today, and its message regenerated |
| Ecs.Reminder.GenerateReminder | src/ecsapplication/Reminder.java:122-163 | only the message changes, to the one `Message` computes for the current date |
| Ecs.Employee.Blank | src/ecsapplication/Employee.java:37-39 | no fields set, and an empty transaction list |
| Ecs.Employee.Named | src/ecsapplication/Employee.java:41-45 | id and name stored; an empty transaction list |
| Ecs.Employee.Skilled | src/ecsapplication/Employee.java:47-52 | id, name and skill stored; an empty transaction list |
| Ecs.Employee.Full | src/ecsapplication/Employee.java:54-62 | a missing transaction list becomes empty; the other fields are stored as given |
| Ecs.Employee.CheckOut | src/ecsapplication/Employee.java:104-123 | appends exactly one fresh loan: ID 0, this employee, a fresh copy of the equipment, no order, borrowed today, due today + 49, Borrowed, no observers; the given equipment is untouched |
| Ecs.Employee.OrderEquipment | src/ecsapplication/Employee.java:127-158 | "Equipment is not available." exactly when the status is not Available, with no writes; then a missing skill throws; then a skill mismatch is rejected, with no writes; otherwise a Confirmed order dated today is inserted, and the answer is "Order confirmed." (followed by the Ordered status write) exactly when the insert succeeds and "Failed to place order." (with the insert as the only write) exactly when it fails |
| Ecs.Employee.CancelOrder | src/ecsapplication/Employee.java:162-194 | a missing order and an already cancelled order answer their messages with no writes; otherwise the order's cancellation is written first; a null equipment then throws, exactly then; a non-null equipment gets the write making it Available, and the answer is "Order successfully cancelled" when that write changed a row and "Failed to cancel order" otherwise |
| Ecs.FindBorrowed | src/ecsapplication/Employee.java:207-210 | the index of the first transaction with the ID and status Borrowed, or the list length when there is none |
| Ecs.Employee.CloseLoan | src/ecsapplication/Employee.java:213-218 | return date, then status Returned, each with a round that sees it, then the return condition |
| Ecs.Employee.Release | src/ecsapplication/Employee.java:220-223 | the equipment takes the condition and becomes Available; bound reminders stay bound |
| Ecs.Employee.ReturnEquipment | src/ecsapplication/Employee.java:205-238 | without a borrowed loan with that ID, nothing changes and the result is null; otherwise that first loan is closed with two rounds (the first still Borrowed), then its equipment is freed and the loan returned; null equipment throws after the loan is closed |
| Ecs.VoltageTesterLoan | src/ecsapplication/Employee.java:104-238 | check-out, then a damaged return ten days later: the loaned copy ends Available and Damaged, the caller's equipment keeps its state, two rounds ran, and the reminder reports 39 days left |
| Csv.HeaderLine | src/ecsapplication/CSVExporter.java:27-33 | the column names unescaped, joined by commas, then a line break |
| Csv.JoinStep | src/ecsapplication/CSVExporter.java:27-32 | writing one more name (or cell) after the owed comma gives the longer join |
| Csv.Escape | src/ecsapplication/CSVExporter.java:48-53 | a cell with a comma or a quote comes out wrapped in quotes; any other cell comes out unchanged |
| Csv.ParseQuotedOf | src/ecsapplication/CSVExporter.java:51-52 | `DoubleQuotes` followed by a closing quote reads back, through the quoted-field reader, as exactly the original cell and what follows it |
| Csv.Document | src/ecsapplication/CSVExporter.java:27-64 | the file the exporter writes (`Written` with every row): it starts with the header line |
| Csv.HeaderFirst | src/ecsapplication/CSVExporter.java:27-64 | `Written`, the file after the first k rows, keeps the header line at its front for every k |
| Csv.EscapeCell | src/ecsapplication/CSVExporter.java:42-55 | null becomes empty; a cell with a comma or a quote has its quotes doubled and is wrapped in quotes |
| Csv.RowLine | src/ecsapplication/CSVExporter.java:39-63 | the row's escaped cells joined by commas, then a line break |
| Csv.ExportToCsv | src/ecsapplication/CSVExporter.java:27-64 | the output is exactly `Document`: the header line, then one line per row, in order |
| Csv.EscapeParses | src/ecsapplication/CSVExporter.java:48-56 | a record reader in the manner of RFC 4180 (a bare field ends at a comma or a line break; quoted fields double their quotes) reads an escaped cell back as exactly the cell, whatever field follows, provided the cell has no line break or is quoted |
| Csv.RecordRoundTrip | src/ecsapplication/CSVExporter.java:39-62 | that reader reads a written record back as exactly its cells, one field per cell, when no cell holds an unquoted line break |
| Csv.RowRoundTrip | src/ecsapplication/CSVExporter.java:36-63 | each row line reads back as the row's cell values, one per column, with null as empty, when no value holds an unquoted line break |
| Csv.LineBreakNotQuoted | src/ecsapplication/CSVExporter.java:48-56 | a cell with a line break but no comma or quote is written verbatim, line break included |
| Csv.LineBreakSplitsRecord | src/ecsapplication/CSVExporter.java:48-56 | such a cell does not read back: the cell "a", line break, "b" is written as it is, and the reader's record holds only "a" |
| Csv.DocumentLines | src/ecsapplication/CSVExporter.java:33-63 | with no line breaks in the data, the file has exactly rowCount + 1 line breaks and ends with one |

## Left out

- Persistence is not modelled: JDBC, the DAO classes and `DBConnect`. Database answers are parameters instead: the insert result of `orderEquipment`, the order looked up and the rows updated by `cancelOrder`. The writes an operation issues are returned as a list of `DbRequest`s.
- Ecs.Employee.CancelOrder: the SQLException branch ("An error occured while cancelling the order.", Employee.java:196-198) is not modelled, because it depends on the database failing.
- Ecs.Reminder.Update: the save to the database (Reminder.java:72-77) is not modelled, and neither is the console message on the rejected path.
- Ecs.Employee.ReturnEquipment: the two database updates and their swallowed SQLException (Employee.java:226-231) are not modelled, and neither are the console messages.
- Ecs.Employee.CheckOut and Ecs.Employee.OrderEquipment take a non-null equipment. In Java a null argument throws NullPointerException at its first dereference.
- Ecs.Employee.Full stores the value of the given list. Java keeps the caller's list object, so later changes through either reference alias each other.
- Dates.IsoDate: the contract states only that the text is non-empty and ends in a digit. The conversion from day number to year, month and day is written out but not proved against `LocalDate`.
- `LocalDate.now()` is the parameter `today`. `update` and `generateReminder` each read the clock; the model assumes both reads return the same day.
- Dates are unbounded day numbers. Java's `LocalDate` range (years ±999999999) is not enforced.
- Text.Fold: `equalsIgnoreCase` is modelled for ASCII letters and for the four non-ASCII characters that fold onto an ASCII letter (U+0130, U+0131, U+017F, U+212A). Every other character matches only itself. This is exact for comparisons against the ASCII constant names, which are the only comparisons made.
- Observers are `Reminder`s. The `Subject` and `Observer` interfaces have no behaviour of their own. The ghost `notifications` log exists only for the proofs.
- Plain getters and setters that the operations do not use are not modelled:
  - Employee.java:66-100
  - Reminder.java:81-119
  - Equipment.java:70-92 and from line 110 on
  - the getters of Order and Transaction, which are field reads
- `toString` methods are not modelled.
- `Employee.viewRecord` is not modelled.
- `MainApp` is not modelled.
- The `Late` status is never assigned anywhere, so no operation produces it.
- Csv.RecordRoundTrip: the round trip (and Csv.EscapeParses and Csv.RowRoundTrip with it) is promised only for cells without a line break outside quotes. The exporter writes such a cell unquoted, so it does not read back (`Csv.LineBreakSplitsRecord`).
- Csv.ExportToCsv: the `JTable`/`FileWriter` plumbing is not modelled. Cells are given as optional strings (`toString` already applied), and column names are non-null strings. The header loop and the per-row cell loop are separate methods (`HeaderLine`, `RowLine`) called from `ExportToCsv`.

## Where the code, its comments and its tests differ

The model follows the code in every case.

- `Employee.java:108` calls `equipment.clone()`, which `Equipment.java` does not declare. It is modelled as a field-for-field copy (`Equipment.Copy`). As a result, `returnEquipment` updates the loan's copy, not the object passed to `checkOut`; `Ecs.VoltageTesterLoan` shows this.
- `checkOut` never sets `checkoutCondition` (Employee.java:110-119).
- `returnEquipment` accepts a null condition. It stores null as both the return condition and the equipment condition, and returns the loan (Employee.java:205-233). `test/ecsapplication/test/ReturnEquipmentTest.java:113-119` expects a rejection.
- The rejection message expected by `test/ecsapplication/test/TestOrderEquipment.java:166` differs from the one the code returns (Employee.java:130).
- `orderEquipment` changes the equipment's status only in the database (Employee.java:152). The in-memory object stays Available, although the comment at Employee.java:125 says the equipment status is set to Ordered.
- The "should return" window is two days long, not three: `dueDate.minusDays(2).isBefore(today)` is a strict comparison (Reminder.java:153-154), so a due date two days ahead gives "No action needed … 2 days." (`ReminderText.TwoDaysAheadIsNoAction`).
- A cell containing a line break is not quoted (`Csv.LineBreakNotQuoted`), contrary to section 2, rule 6 of RFC 4180. Such a cell adds a line to the file, so the count of rowCount + 1 lines holds only without line breaks in the data (`Csv.DocumentLines`).
