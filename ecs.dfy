/** The loan lifecycle: orders, transactions observed by reminders, and the
    employee operations that create and close them. Transaction, Reminder,
    Employee and Order refer to one another, so they share one module. */
module Ecs {
  import opened Wrappers
  import opened Dates
  import opened Lists
  import opened Enums
  import opened Equipments
  import ReminderText

  /** A checked-out item is due back this many weeks after the borrow date. */
  const LoanWeeks := 7

  // ---------------------------------------------------------------- Order

  /** An order is never changed once built: it has getters only. */
  datatype Order = Order(
    orderID: int,
    equipment: Equipment?,
    employee: Employee?,
    orderDate: Option<Date>,
    orderStatus: Option<OrderStatus>,
    pickUpDate: Option<Date>,
    transaction: Transaction?)

  /** The full constructor: equipment comes before employee in the argument
      list, and each lands in its own field. */
  function FullOrder(orderID: int, equipment: Equipment?, employee: Employee?, orderDate: Option<Date>,
                     orderStatus: Option<OrderStatus>, pickUpDate: Option<Date>, transaction: Transaction?): (o: Order)
    ensures o.orderID == orderID && o.orderStatus == orderStatus
    ensures o.equipment == equipment && o.employee == employee
    ensures o.orderDate == orderDate && o.pickUpDate == pickUpDate && o.transaction == transaction
  {
    Order(orderID, equipment, employee, orderDate, orderStatus, pickUpDate, transaction)
  }

  /** The (employee, equipment, status) constructor: no ID, no dates. */
  function DraftOrder(employee: Employee?, equipment: Equipment?, orderStatus: Option<OrderStatus>): (o: Order)
    ensures o == FullOrder(0, equipment, employee, None, orderStatus, None, null)
  {
    Order(0, equipment, employee, None, orderStatus, None, null)
  }

  /** The basic constructor: no pick-up date and no transaction. */
  function BasicOrder(orderID: int, employee: Employee?, equipment: Equipment?, orderDate: Option<Date>,
                      orderStatus: Option<OrderStatus>): (o: Order)
    ensures o == FullOrder(orderID, equipment, employee, orderDate, orderStatus, None, null)
  {
    Order(orderID, equipment, employee, orderDate, orderStatus, None, null)
  }

  /** The constructor with a pick-up date: still no transaction. */
  function PickUpOrder(orderID: int, employee: Employee?, equipment: Equipment?, orderDate: Option<Date>,
                       orderStatus: Option<OrderStatus>, pickUpDate: Option<Date>): (o: Order)
    ensures o == FullOrder(orderID, equipment, employee, orderDate, orderStatus, pickUpDate, null)
  {
    Order(orderID, equipment, employee, orderDate, orderStatus, pickUpDate, null)
  }

  // ---------------------------------------------------------- Transaction

  /** Every field of a transaction except its observer list. */
  datatype TransactionState = TransactionState(
    transactionID: int,
    employee: Employee?,
    equipment: Equipment?,
    order: Option<Order>,
    orderDate: Option<Date>,
    borrowDate: Option<Date>,
    expectedReturnDate: Option<Date>,
    returnDate: Option<Date>,
    transactionStatus: Option<TransactionStatus>,
    returnCondition: Option<EquipmentCondition>,
    checkoutCondition: Option<EquipmentCondition>)

  /** One call of `update` on one observer, with the transaction as it stood. */
  datatype Notification = Notification(observer: Reminder, seen: TransactionState)

  /** One notification round: each observer once, in registration order. */
  ghost function Round(observers: seq<Reminder>, seen: TransactionState): (round: seq<Notification>)
    ensures |round| == |observers|
    ensures forall i :: 0 <= i < |round| ==> round[i] == Notification(observers[i], seen)
  {
    if observers == [] then [] else [Notification(observers[0], seen)] + Round(observers[1..], seen)
  }

  /** A loan record and the subject its reminders observe. */
  class Transaction {
    var transactionID: int
    var employee: Employee?
    var equipment: Equipment?
    var order: Option<Order>
    var orderDate: Option<Date>
    var borrowDate: Option<Date>
    var expectedReturnDate: Option<Date>
    var returnDate: Option<Date>
    var transactionStatus: Option<TransactionStatus>
    var returnCondition: Option<EquipmentCondition>
    var checkoutCondition: Option<EquipmentCondition>
    var observers: seq<Reminder>
    /** Every `update` call this transaction has made, oldest first. */
    ghost var notifications: seq<Notification>

    function State(): TransactionState
      reads this
    {
      TransactionState(transactionID, employee, equipment, order, orderDate, borrowDate,
                       expectedReturnDate, returnDate, transactionStatus, returnCondition, checkoutCondition)
    }

    /** The observer list never holds the same reminder twice. */
    ghost predicate Valid()
      reads this
    {
      NoDuplicates(observers)
    }

    constructor Empty()
      ensures Valid() && observers == [] && notifications == []
      ensures State() == TransactionState(0, null, null, None, None, None, None, None, None, None, None)
    {
      transactionID, employee, equipment, order := 0, null, null, None;
      orderDate, borrowDate, expectedReturnDate, returnDate := None, None, None, None;
      transactionStatus, returnCondition, checkoutCondition := None, None, None;
      observers, notifications := [], [];
    }

    constructor WithStatus(transactionID: int, employee: Employee?, equipment: Equipment?,
                           transactionStatus: Option<TransactionStatus>)
      ensures Valid() && observers == [] && notifications == []
      ensures State() == TransactionState(transactionID, employee, equipment, None, None, None, None, None,
                                          transactionStatus, None, None)
    {
      this.transactionID, this.employee, this.equipment, order := transactionID, employee, equipment, None;
      orderDate, borrowDate, expectedReturnDate, returnDate := None, None, None, None;
      this.transactionStatus, returnCondition, checkoutCondition := transactionStatus, None, None;
      observers, notifications := [], [];
    }

    constructor Scheduled(transactionID: int, employee: Employee?, equipment: Equipment?, order: Option<Order>,
                          orderDate: Option<Date>, borrowDate: Option<Date>, expectedReturnDate: Option<Date>,
                          transactionStatus: Option<TransactionStatus>)
      ensures Valid() && observers == [] && notifications == []
      ensures State() == TransactionState(transactionID, employee, equipment, order, orderDate, borrowDate,
                                          expectedReturnDate, None, transactionStatus, None, None)
    {
      this.transactionID, this.employee, this.equipment, this.order := transactionID, employee, equipment, order;
      this.orderDate, this.borrowDate, this.expectedReturnDate := orderDate, borrowDate, expectedReturnDate;
      returnDate := None;
      this.transactionStatus, returnCondition, checkoutCondition := transactionStatus, None, None;
      observers, notifications := [], [];
    }

    constructor WithReturnCondition(transactionID: int, employee: Employee?, equipment: Equipment?,
                                    order: Option<Order>, orderDate: Option<Date>, borrowDate: Option<Date>,
                                    expectedReturnDate: Option<Date>, transactionStatus: Option<TransactionStatus>,
                                    returnCondition: Option<EquipmentCondition>)
      ensures Valid() && observers == [] && notifications == []
      ensures State() == TransactionState(transactionID, employee, equipment, order, orderDate, borrowDate,
                                          expectedReturnDate, None, transactionStatus, returnCondition, None)
    {
      this.transactionID, this.employee, this.equipment, this.order := transactionID, employee, equipment, order;
      this.orderDate, this.borrowDate, this.expectedReturnDate := orderDate, borrowDate, expectedReturnDate;
      returnDate := None;
      this.transactionStatus, this.returnCondition := transactionStatus, returnCondition;
      checkoutCondition := None;
      observers, notifications := [], [];
    }

    constructor WithConditions(transactionID: int, employee: Employee?, equipment: Equipment?,
                               order: Option<Order>, orderDate: Option<Date>, borrowDate: Option<Date>,
                               expectedReturnDate: Option<Date>, transactionStatus: Option<TransactionStatus>,
                               returnCondition: Option<EquipmentCondition>,
                               checkoutCondition: Option<EquipmentCondition>)
      ensures Valid() && observers == [] && notifications == []
      ensures State() == TransactionState(transactionID, employee, equipment, order, orderDate, borrowDate,
                                          expectedReturnDate, None, transactionStatus, returnCondition,
                                          checkoutCondition)
    {
      this.transactionID, this.employee, this.equipment, this.order := transactionID, employee, equipment, order;
      this.orderDate, this.borrowDate, this.expectedReturnDate := orderDate, borrowDate, expectedReturnDate;
      returnDate := None;
      this.transactionStatus, this.returnCondition := transactionStatus, returnCondition;
      this.checkoutCondition := checkoutCondition;
      observers, notifications := [], [];
    }

    /** Adds the observer at the end unless it is already registered, so
        registering twice is the same as registering once. */
    method RegisterObserver(observer: Reminder)
      requires Valid()
      modifies this`observers
      ensures Valid()
      ensures observer in observers
      ensures observers == if observer in old(observers) then old(observers) else old(observers) + [observer]
    {
      if observer !in observers {
        observers := observers + [observer];
      }
    }

    /** Drops the observer; the others keep their relative order. */
    method RemoveObserver(observer: Reminder)
      requires Valid()
      modifies this`observers
      ensures Valid()
      ensures observers == Without(old(observers), observer)
      ensures forall r :: r in observers <==> r in old(observers) && r != observer
    {
      RemoveFirstSpec(observers, observer);
      observers := RemoveFirst(observers, observer);
    }

    /** Calls `update(this)` on each observer once, in registration order. */
    method NotifyObservers(today: Date)
      requires Valid()
      modifies this`notifications, observers
      ensures State() == old(State()) && observers == old(observers)
      ensures notifications == old(notifications) + Round(observers, State())
      ensures forall r :: r in observers ==> r.Reacted(this, today, old(r.View()))
    {
      var i := 0;
      while i < |observers|
        invariant 0 <= i <= |observers|
        invariant notifications == old(notifications) + Round(observers[..i], State())
        invariant forall j :: 0 <= j < i ==> observers[j].Reacted(this, today, old(observers[j].View()))
        invariant forall j :: i <= j < |observers| ==> observers[j].View() == old(observers[j].View())
      {
        assert observers[..i + 1] == observers[..i] + [observers[i]];
        RoundAppend(observers[..i], observers[i], State());
        assert forall j :: 0 <= j < |observers| && j != i ==> observers[j] != observers[i];
        observers[i].Update(this, today);
        notifications := notifications + [Notification(observers[i], State())];
        i := i + 1;
      }
      assert observers[..i] == observers;
    }

    method SetTransactionID(transactionID: int)
      modifies this`transactionID
      ensures State() == old(State()).(transactionID := transactionID)
      ensures notifications == old(notifications)
    {
      this.transactionID := transactionID;
    }

    method SetEmployee(employee: Employee?)
      modifies this`employee
      ensures State() == old(State()).(employee := employee)
      ensures notifications == old(notifications)
    {
      this.employee := employee;
    }

    method SetReturnCondition(returnCondition: Option<EquipmentCondition>)
      modifies this`returnCondition
      ensures State() == old(State()).(returnCondition := returnCondition)
      ensures notifications == old(notifications)
    {
      this.returnCondition := returnCondition;
    }

    method SetCheckoutCondition(checkoutCondition: Option<EquipmentCondition>)
      modifies this`checkoutCondition
      ensures State() == old(State()).(checkoutCondition := checkoutCondition)
      ensures notifications == old(notifications)
    {
      this.checkoutCondition := checkoutCondition;
    }

    method SetEquipment(equipment: Equipment?)
      modifies this`equipment
      ensures State() == old(State()).(equipment := equipment)
      ensures notifications == old(notifications)
    {
      this.equipment := equipment;
    }

    method SetBorrowDate(borrowDate: Option<Date>)
      modifies this`borrowDate
      ensures State() == old(State()).(borrowDate := borrowDate)
      ensures notifications == old(notifications)
    {
      this.borrowDate := borrowDate;
    }

    method SetExpectedReturnDate(expectedReturnDate: Option<Date>)
      modifies this`expectedReturnDate
      ensures State() == old(State()).(expectedReturnDate := expectedReturnDate)
      ensures notifications == old(notifications)
    {
      this.expectedReturnDate := expectedReturnDate;
    }

    /** Sets the status, then runs one notification round that sees it. */
    method SetTransactionStatus(transactionStatus: Option<TransactionStatus>, today: Date)
      requires Valid()
      modifies this`transactionStatus, this`notifications, observers
      ensures Valid() && observers == old(observers)
      ensures State() == old(State()).(transactionStatus := transactionStatus)
      ensures notifications == old(notifications) + Round(observers, State())
      ensures forall r :: r in observers ==> r.Reacted(this, today, old(r.View()))
    {
      this.transactionStatus := transactionStatus;
      NotifyObservers(today);
    }

    /** Sets the return date, then runs one notification round that sees it. */
    method SetReturnDate(returnDate: Option<Date>, today: Date)
      requires Valid()
      modifies this`returnDate, this`notifications, observers
      ensures Valid() && observers == old(observers)
      ensures State() == old(State()).(returnDate := returnDate)
      ensures notifications == old(notifications) + Round(observers, State())
      ensures forall r :: r in observers ==> r.Reacted(this, today, old(r.View()))
    {
      this.returnDate := returnDate;
      NotifyObservers(today);
    }
  }

  lemma RoundAppend(observers: seq<Reminder>, last: Reminder, seen: TransactionState)
    ensures Round(observers + [last], seen) == Round(observers, seen) + [Notification(last, seen)]
  {
  }

  // ------------------------------------------------------------- Reminder

  /** Every field of a reminder. */
  datatype ReminderState = ReminderState(
    reminderID: int,
    employee: Employee?,
    transaction: Transaction?,
    reminderDate: Option<Date>,
    reminderMSG: JString)

  /** An observer of one transaction that keeps a reminder message for it. */
  class Reminder {
    var reminderID: int
    var employee: Employee?
    var transaction: Transaction?
    var reminderDate: Option<Date>
    var reminderMSG: JString

    function View(): ReminderState
      reads this
    {
      ReminderState(reminderID, employee, transaction, reminderDate, reminderMSG)
    }

    /** The message `generateReminder` writes on day `today`, from the
        reminder's own transaction and employee. */
    function Message(today: Date): string
      reads this, transaction, employee
      reads if transaction != null then {transaction.equipment} else {}
    {
      ReminderText.Generate(
        today,
        transaction != null && employee != null,
        if transaction != null then transaction.expectedReturnDate else None,
        if transaction != null && transaction.equipment != null
        then Some(transaction.equipment.equipmentName) else None,
        if employee != null then employee.empName else None)
    }

    /** The message read off the reminder's own fields: the missing link, the
        missing due date and the missing equipment are checked in that order,
        and a complete transaction gets the message for its due date. */
    lemma MessageChecks(today: Date)
      ensures transaction == null || employee == null ==> Message(today) == ReminderText.MissingLink
      ensures transaction != null && employee != null && transaction.expectedReturnDate.None? ==>
        Message(today) == ReminderText.MissingDueDate
      ensures (transaction != null && employee != null && transaction.expectedReturnDate.Some?
               && transaction.equipment == null) ==> Message(today) == ReminderText.MissingEquipment
      ensures (transaction != null && employee != null && transaction.expectedReturnDate.Some?
               && transaction.equipment != null) ==>
        Message(today) == ReminderText.DueMessage(today, transaction.expectedReturnDate.value, Str(employee.empName),
                                       Str(transaction.equipment.equipmentName))
    {
    }

    /** The state `update(t)` leaves when `t` has an employee. */
    ghost predicate BoundTo(t: Transaction, today: Date)
      reads this, t, t.employee, t.equipment
    {
      && t.employee != null
      && transaction == t
      && employee == t.employee
      && reminderDate == Some(today)
      && reminderMSG == Some(Message(today))
    }

    /** What `update(t)` did to a reminder whose fields were `before`: nothing
        when `t` has no employee, otherwise it is bound to `t`. */
    ghost predicate Reacted(t: Transaction, today: Date, before: ReminderState)
      reads this, t, t.employee, t.equipment
    {
      if t.employee == null then View() == before else BoundTo(t, today)
    }

    constructor Blank()
      ensures View() == ReminderState(0, null, null, None, None)
    {
      reminderID, employee, transaction, reminderDate, reminderMSG := 0, null, null, None, None;
    }

    /** Links the reminder without generating a message. */
    constructor Linked(employee: Employee?, transaction: Transaction?)
      ensures View() == ReminderState(0, employee, transaction, None, None)
    {
      reminderID, this.employee, this.transaction, reminderDate, reminderMSG := 0, employee, transaction, None, None;
    }

    /** Links the reminder and generates its message at once. The message is
        computed for the current date, whatever `reminderDate` says. */
    constructor Generated(employee: Employee?, transaction: Transaction?, reminderDate: Option<Date>, today: Date)
      ensures View() == ReminderState(0, employee, transaction, reminderDate, Some(Message(today)))
    {
      reminderID, this.employee, this.transaction, this.reminderDate := 0, employee, transaction, reminderDate;
      reminderMSG := None;
      new;
      GenerateReminder(today);
    }

    /** Re-binds the reminder to `t` and regenerates its message; a missing
        transaction or employee leaves every field as it was. */
    method Update(t: Transaction?, today: Date)
      modifies this
      ensures t == null || t.employee == null ==> View() == old(View())
      ensures t != null && t.employee != null ==> BoundTo(t, today) && reminderID == old(reminderID)
    {
      if t == null || t.employee == null {
        return;
      }
      transaction := t;
      employee := t.employee;
      reminderDate := Some(today);
      GenerateReminder(today);
    }

    /** Writes the message for day `today` and changes nothing else. */
    method GenerateReminder(today: Date)
      modifies this`reminderMSG
      ensures View() == old(View()).(reminderMSG := Some(Message(today)))
    {
      reminderMSG := Some(Message(today));
    }
  }

  // ------------------------------------------------------------- Employee

  /** A database write the operations ask for; the database is not modelled. */
  datatype DbRequest =
    | InsertOrder(order: Order)
    | UpdateEquipmentStatus(equipmentID: int, equipmentStatus: EquipmentStatus)
    | UpdateOrderStatus(orderID: int, orderStatus: OrderStatus)

  /** What an operation answered (a message or an exception) and the writes it
      issued before answering, in order. */
  datatype Reply = Reply(outcome: Result<string>, requests: seq<DbRequest>)

  const NotAvailable := "Equipment is not available."
  const NotQualified := "You are not qualified to order this equipment."
  const OrderConfirmed := "Order confirmed."
  const OrderFailed := "Failed to place order."
  const OrderNotFound := "Order not found"
  const AlreadyCancelled := "Order is already cancelled"
  const CancelSucceeded := "Order successfully cancelled"
  const CancelFailed := "Failed to cancel order"

  /** Whether `t` is the loan `returnEquipment` looks for. */
  predicate IsBorrowed(t: Transaction, transactionID: int)
    reads t
  {
    t.transactionID == transactionID && t.transactionStatus == Some(TransactionStatus.Borrowed)
  }

  /** The index of the first borrowed transaction with this ID, or the
      length of the list when there is none. */
  function FindBorrowed(transactions: seq<Transaction>, transactionID: int): (k: nat)
    reads transactions
    ensures k <= |transactions|
    ensures k < |transactions| ==> IsBorrowed(transactions[k], transactionID)
    ensures forall j :: 0 <= j < k ==> !IsBorrowed(transactions[j], transactionID)
  {
    if transactions == [] then 0
    else if IsBorrowed(transactions[0], transactionID) then 0
    else 1 + FindBorrowed(transactions[1..], transactionID)
  }

  class Employee {
    var empID: int
    var empName: JString
    var skillClassification: Option<SkillClassification>
    var empTransaction: seq<Transaction>
    var order: Option<Order>

    /** Every transaction of the employee keeps its own invariant. */
    ghost predicate Valid()
      reads this, empTransaction
    {
      forall t :: t in empTransaction ==> t.Valid()
    }

    constructor Blank()
      ensures Valid()
      ensures empID == 0 && empName == None && skillClassification == None
      ensures empTransaction == [] && order == None
    {
      empID, empName, skillClassification, empTransaction, order := 0, None, None, [], None;
    }

    constructor Named(empID: int, empName: JString)
      ensures Valid()
      ensures this.empID == empID && this.empName == empName && skillClassification == None
      ensures empTransaction == [] && order == None
    {
      this.empID, this.empName, skillClassification, empTransaction, order := empID, empName, None, [], None;
    }

    constructor Skilled(empID: int, empName: JString, skillClassification: Option<SkillClassification>)
      ensures Valid()
      ensures this.empID == empID && this.empName == empName && this.skillClassification == skillClassification
      ensures empTransaction == [] && order == None
    {
      this.empID, this.empName, this.skillClassification := empID, empName, skillClassification;
      empTransaction, order := [], None;
    }

    /** A missing transaction list becomes an empty one. */
    constructor Full(empID: int, empName: JString, skillClassification: Option<SkillClassification>,
                     empTransaction: Option<seq<Transaction>>, order: Option<Order>)
      requires empTransaction.Some? ==> forall t :: t in empTransaction.value ==> t.Valid()
      ensures Valid()
      ensures this.empID == empID && this.empName == empName && this.skillClassification == skillClassification
      ensures this.empTransaction == (if empTransaction.Some? then empTransaction.value else [])
      ensures this.order == order
    {
      this.empID, this.empName, this.skillClassification := empID, empName, skillClassification;
      this.empTransaction := if empTransaction.Some? then empTransaction.value else [];
      this.order := order;
    }

    /** Lends a copy of the equipment for seven weeks from `today`. Nothing is
        checked, and the caller's equipment object is left as it was. */
    method CheckOut(equipment: Equipment, today: Date) returns (t: Transaction)
      requires Valid()
      modifies this`empTransaction
      ensures Valid()
      ensures fresh(t) && empTransaction == old(empTransaction) + [t]
      ensures t.State() == TransactionState(0, this, t.equipment, None, None, Some(today), Some(today + 49),
                                            None, Some(TransactionStatus.Borrowed), None, None)
      ensures t.observers == [] && t.notifications == []
      ensures t.equipment != null && fresh(t.equipment) && t.equipment.State() == equipment.State()
      ensures equipment.State() == old(equipment.State())
    {
      var copy := equipment.Copy();
      t := new Transaction.Scheduled(0, this, copy, None, None, Some(today), Some(PlusWeeks(today, LoanWeeks)),
                                     Some(TransactionStatus.Borrowed));
      empTransaction := empTransaction + [t];
    }

    /** `orderEquipment`: checks availability, then the skill, then asks the
        database to store a confirmed order dated today; the equipment status
        changes in the database only when that insert succeeds. */
    function OrderEquipment(equipment: Equipment, today: Date, inserted: bool): (r: Reply)
      reads this, equipment
      ensures equipment.status != Some(EquipmentStatus.Available) ==> r == Reply(Success(NotAvailable), [])
      ensures r.outcome == Success(NotAvailable) ==> equipment.status != Some(EquipmentStatus.Available)
      ensures r.outcome == Failure(NullPointer) <==>
        equipment.status == Some(EquipmentStatus.Available) && skillClassification.None?
      ensures r.outcome == Success(NotQualified) <==>
        equipment.status == Some(EquipmentStatus.Available) && skillClassification.Some?
        && skillClassification != equipment.requiredSkill
      ensures r.outcome == Success(OrderConfirmed) <==>
        equipment.status == Some(EquipmentStatus.Available) && skillClassification.Some?
        && skillClassification == equipment.requiredSkill && inserted
      ensures r.outcome == Success(OrderFailed) <==>
        equipment.status == Some(EquipmentStatus.Available) && skillClassification.Some?
        && skillClassification == equipment.requiredSkill && !inserted
      ensures r.outcome !in {Success(OrderConfirmed), Success(OrderFailed)} ==> r.requests == []
      ensures r.outcome in {Success(OrderConfirmed), Success(OrderFailed)} ==>
        |r.requests| >= 1 && r.requests[0] == InsertOrder(BasicOrder(0, this, equipment, Some(today), Some(OrderStatus.Confirmed)))
      ensures r.outcome == Success(OrderConfirmed) ==>
        |r.requests| >= 1 && r.requests == r.requests[..1] + [UpdateEquipmentStatus(equipment.equipmentID, EquipmentStatus.Ordered)]
      ensures r.outcome == Success(OrderFailed) ==> |r.requests| == 1
    {
      if equipment.status != Some(EquipmentStatus.Available) then Reply(Success(NotAvailable), [])
      else if skillClassification.None? then Reply(Failure(NullPointer), [])
      else if skillClassification != equipment.requiredSkill then Reply(Success(NotQualified), [])
      else
        var order := BasicOrder(0, this, equipment, Some(today), Some(OrderStatus.Confirmed));
        if inserted then
          Reply(Success(OrderConfirmed),
                [InsertOrder(order), UpdateEquipmentStatus(equipment.equipmentID, EquipmentStatus.Ordered)])
        else
          Reply(Success(OrderFailed), [InsertOrder(order)])
    }

    /** `cancelOrder`, given what the order lookup returned and how many
        equipment rows the final update changed. The order update is issued
        before the equipment is dereferenced. */
    function CancelOrder(orderID: int, found: Option<Order>, equipmentRowsUpdated: int): (r: Reply)
      reads if found.Some? then {found.value.equipment} else {}
      ensures found.None? ==> r == Reply(Success(OrderNotFound), [])
      ensures found.Some? && found.value.orderStatus == Some(OrderStatus.Cancelled) ==>
        r == Reply(Success(AlreadyCancelled), [])
      ensures r.requests != [] <==> found.Some? && found.value.orderStatus != Some(OrderStatus.Cancelled)
      ensures r.requests != [] ==> r.requests[0] == UpdateOrderStatus(orderID, OrderStatus.Cancelled)
      ensures r.outcome == Failure(NullPointer) <==> r.requests == [UpdateOrderStatus(orderID, OrderStatus.Cancelled)]
      ensures r.outcome == Success(CancelSucceeded) <==> r.requests != [] && r.outcome.Success? && equipmentRowsUpdated > 0
      ensures |r.requests| == 2 ==>
        && found.value.equipment != null
        && r.requests[1] == UpdateEquipmentStatus(found.value.equipment.equipmentID, EquipmentStatus.Available)
      ensures found.Some? && found.value.orderStatus != Some(OrderStatus.Cancelled) ==>
        (r.outcome == Failure(NullPointer) <==> found.value.equipment == null)
      ensures found.Some? && found.value.orderStatus != Some(OrderStatus.Cancelled) && found.value.equipment != null ==>
        && r.requests == [UpdateOrderStatus(orderID, OrderStatus.Cancelled),
                          UpdateEquipmentStatus(found.value.equipment.equipmentID, EquipmentStatus.Available)]
        && r.outcome == Success(if equipmentRowsUpdated > 0 then CancelSucceeded else CancelFailed)
    {
      if found.None? then Reply(Success(OrderNotFound), [])
      else if found.value.orderStatus == Some(OrderStatus.Cancelled) then Reply(Success(AlreadyCancelled), [])
      else
        var cancel := UpdateOrderStatus(orderID, OrderStatus.Cancelled);
        if found.value.equipment == null then Reply(Failure(NullPointer), [cancel])
        else
          var free := UpdateEquipmentStatus(found.value.equipment.equipmentID, EquipmentStatus.Available);
          Reply(Success(if equipmentRowsUpdated > 0 then CancelSucceeded else CancelFailed), [cancel, free])
    }

    /** The transaction side of `returnEquipment`: return date, then status
        (each followed by a notification round that sees it), then condition. */
    static method CloseLoan(t: Transaction, condition: Option<EquipmentCondition>, today: Date)
      requires t.Valid()
      modifies t`returnDate, t`transactionStatus, t`returnCondition, t`notifications, t.observers
      ensures t.Valid() && t.observers == old(t.observers)
      ensures var dated := old(t.State()).(returnDate := Some(today));
        var returned := dated.(transactionStatus := Some(TransactionStatus.Returned));
        && t.State() == returned.(returnCondition := condition)
        && t.notifications == old(t.notifications) + Round(t.observers, dated) + Round(t.observers, returned)
      ensures forall o :: o in t.observers ==> o.Reacted(t, today, old(o.View()))
    {
      t.SetReturnDate(Some(today), today);
      t.SetTransactionStatus(Some(TransactionStatus.Returned), today);
      t.SetReturnCondition(condition);
    }

    /** The equipment side of `returnEquipment`: the equipment takes the
        return condition and becomes available. Reminders bound to `t` stay
        bound, since they read only the equipment's name. */
    static method Release(t: Transaction, condition: Option<EquipmentCondition>, ghost today: Date)
      requires t.equipment != null
      modifies t.equipment
      ensures t.equipment.State() == old(t.equipment.State()).(equipmentCondition := condition,
                                                               status := Some(EquipmentStatus.Available))
      ensures forall o :: o in t.observers && old(o.BoundTo(t, today)) ==> o.BoundTo(t, today)
    {
      var eq := t.equipment;
      eq.SetEquipmentCondition(condition);
      eq.SetStatus(Some(EquipmentStatus.Available));
    }

    /** What `returnEquipment(transactionID, …)` may change: the first
        borrowed transaction with that ID, its equipment and its observers. */
    ghost function ReturnFootprint(transactionID: int): set<object>
      reads this, empTransaction
    {
      var k := FindBorrowed(empTransaction, transactionID);
      if k == |empTransaction| then {}
      else
        var t := empTransaction[k];
        {t as object} + (if t.equipment == null then {} else {t.equipment as object})
        + (set r: Reminder | r in t.observers :: r as object)
    }

    /** Closes the first borrowed transaction with this ID: return date, then
        status (each followed by a notification round), then condition, and
        the equipment becomes available in that condition. With no such loan,
        nothing changes and there is no transaction to return. */
    method ReturnEquipment(transactionID: int, condition: Option<EquipmentCondition>, today: Date)
      returns (r: Result<Option<Transaction>>)
      requires Valid()
      modifies ReturnFootprint(transactionID)
      ensures Valid()
      ensures old(FindBorrowed(empTransaction, transactionID)) == |empTransaction| ==> r == Success(None)
      ensures var k := old(FindBorrowed(empTransaction, transactionID));
        k < |empTransaction| ==>
          var t := empTransaction[k];
          var dated := old(t.State()).(returnDate := Some(today));
          var returned := dated.(transactionStatus := Some(TransactionStatus.Returned));
          && t.State() == returned.(returnCondition := condition)
          && t.observers == old(t.observers)
          && t.notifications == old(t.notifications) + Round(t.observers, dated) + Round(t.observers, returned)
          && (forall o :: o in t.observers ==> o.Reacted(t, today, old(o.View())))
          && (t.equipment == null ==> r == Failure(NullPointer))
          && (t.equipment != null ==>
                && r == Success(Some(t))
                && t.equipment.State() == old(t.equipment.State()).(equipmentCondition := condition,
                                                                     status := Some(EquipmentStatus.Available)))
    {
      var i := 0;
      while i < |empTransaction| && !IsBorrowed(empTransaction[i], transactionID)
        invariant 0 <= i <= |empTransaction|
        invariant forall j :: 0 <= j < i ==> !IsBorrowed(empTransaction[j], transactionID)
        modifies {}
      {
        i := i + 1;
      }
      assert i == FindBorrowed(empTransaction, transactionID);
      if i == |empTransaction| {
        return Success(None);
      }
      var txn := empTransaction[i];
      assert txn in ReturnFootprint(transactionID);
      assert forall o :: o in txn.observers ==> o in ReturnFootprint(transactionID);
      CloseLoan(txn, condition, today);
      var eq := txn.equipment;
      if eq == null {
        return Failure(NullPointer);
      }
      Release(txn, condition, today);
      r := Success(Some(txn));
    }
  }

  /** The start of the scenario below: Jorge, an electrician, checks out the
      voltage tester, and a reminder linked to the loan is registered on it. */
  method VoltageTesterCheckOut(today: Date) returns (jorge: Employee, tester: Equipment, loan: Transaction,
                                                     reminder: Reminder)
    ensures fresh(jorge) && fresh(tester) && fresh(loan) && fresh(reminder)
    ensures loan.equipment != null && fresh(loan.equipment) && loan.equipment != tester
    ensures jorge.Valid() && jorge.empTransaction == [loan] && jorge.empName == Some("Jorge")
    ensures loan.State() == TransactionState(0, jorge, loan.equipment, None, None, Some(today), Some(today + 49),
                                             None, Some(TransactionStatus.Borrowed), None, None)
    ensures loan.observers == [reminder] && loan.notifications == []
    ensures loan.equipment.State() == EquipmentState(7, Some("Voltage Tester"), Some(EquipmentCondition.Good),
                                                     Some(EquipmentStatus.Available), Some(SkillClassification.Electrician))
    ensures tester.State() == loan.equipment.State()
  {
    jorge := new Employee.Skilled(1, Some("Jorge"), Some(SkillClassification.Electrician));
    tester := new Equipment.Full(7, Some("Voltage Tester"), Some(EquipmentCondition.Good),
                                 Some(EquipmentStatus.Available), Some(SkillClassification.Electrician));
    loan := jorge.CheckOut(tester, today);
    reminder := new Reminder.Linked(jorge, loan);
    loan.RegisterObserver(reminder);
  }

  /** A loan from check-out to a damaged return ten days later, watched by
      one reminder. The loaned copy ends available and damaged, the
      equipment object handed to `checkOut` keeps its own state, and the
      reminder, re-bound by both notification rounds, reports the days left. */
  method VoltageTesterLoan(today: Date) returns (loan: Transaction, tester: Equipment, reminder: Reminder)
    ensures loan.transactionStatus == Some(TransactionStatus.Returned)
    ensures loan.returnDate == Some(today + 10) && loan.returnCondition == Some(EquipmentCondition.Damaged)
    ensures loan.equipment != null && loan.equipment != tester
    ensures loan.equipment.status == Some(EquipmentStatus.Available)
    ensures loan.equipment.equipmentCondition == Some(EquipmentCondition.Damaged)
    ensures tester.status == Some(EquipmentStatus.Available)
    ensures tester.equipmentCondition == Some(EquipmentCondition.Good)
    ensures |loan.notifications| == 2
    ensures reminder.reminderMSG == Some(ReminderText.NoActionText("Voltage Tester", 39))
  {
    var jorge;
    jorge, tester, loan, reminder := VoltageTesterCheckOut(today);
    assert FindBorrowed(jorge.empTransaction, 0) == 0;
    var returned := jorge.ReturnEquipment(0, Some(EquipmentCondition.Damaged), today + 10);
    assert reminder in loan.observers && loan.employee == jorge;
    assert reminder.BoundTo(loan, today + 10);
    ReminderText.DueMessageByDate(today + 10, today + 49, "Jorge", "Voltage Tester");
    assert reminder.Message(today + 10)
        == ReminderText.Generate(today + 10, true, Some(today + 49), Some(Some("Voltage Tester")), Some("Jorge"));
  }
}
