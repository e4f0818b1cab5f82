/** The five enumerations of package `ecsapplication.enums`. Each `fromString`
    returns null for a null argument, the first constant (in declaration order)
    whose name equals the argument ignoring case, and otherwise throws
    `IllegalArgumentException("No enum constant for: " + value)`. */
module Enums {
  import opened Wrappers
  import opened Text

  /** The loop over `values()` with an early return on the first match. */
  function FirstMatch<T>(values: seq<T>, name: T -> string, s: string): (r: Option<T>)
    ensures r.Some? ==> r.value in values && EqualsIgnoreCase(name(r.value), s)
    ensures r.None? ==> forall v :: v in values ==> !EqualsIgnoreCase(name(v), s)
  {
    if |values| == 0 then None
    else if EqualsIgnoreCase(name(values[0]), s) then Some(values[0])
    else FirstMatch(values[1..], name, s)
  }

  /** The shared body of every `fromString`. */
  function FromName<T>(values: seq<T>, name: T -> string, value: JString): (r: Result<Option<T>>)
    ensures value.None? ==> r == Success(None)
    ensures r.Success? && r.value.Some? ==>
      value.Some? && r.value.value in values && EqualsIgnoreCase(name(r.value.value), value.value)
    ensures r.Failure? <==> value.Some? && forall v :: v in values ==> !EqualsIgnoreCase(name(v), value.value)
    ensures r.Failure? ==> r.error == IllegalArgument("No enum constant for: " + value.value)
  {
    match value
    case None => Success(None)
    case Some(s) =>
      match FirstMatch(values, name, s)
      case Some(v) => Success(Some(v))
      case None => Failure(IllegalArgument("No enum constant for: " + s))
  }

  /** No two constants have names that are equal ignoring case. */
  ghost predicate DistinctNames<T(!new)>(values: seq<T>, name: T -> string)
  {
    forall a, b :: a in values && b in values && EqualsIgnoreCase(name(a), name(b)) ==> a == b
  }

  /** With distinct names, any spelling of a constant's name parses to that constant. */
  lemma {:induction false} FromNameOfName<T(!new)>(values: seq<T>, name: T -> string, c: T, s: string)
    requires c in values && DistinctNames(values, name)
    requires EqualsIgnoreCase(name(c), s)
    ensures FromName(values, name, Some(s)) == Success(Some(c))
  {
    var m := FirstMatch(values, name, s);
    assert m.Some?;
    EqualsIgnoreCaseSymmetric(name(m.value), s);
    EqualsIgnoreCaseSymmetric(name(c), s);
    EqualsIgnoreCaseTransitive(name(m.value), s, name(c));
  }

  // ---------------------------------------------------------------- TransactionStatus

  datatype TransactionStatus = Borrowed | Returned | Late | Cancelled

  function TransactionStatusName(t: TransactionStatus): string
  {
    match t
    case Borrowed => "Borrowed"
    case Returned => "Returned"
    case Late => "Late"
    case Cancelled => "Cancelled"
  }

  const TransactionStatusValues: seq<TransactionStatus> := [Borrowed, Returned, Late, TransactionStatus.Cancelled]

  lemma TransactionStatusValuesComplete()
    ensures forall c :: c in TransactionStatusValues
  {
    forall c: TransactionStatus ensures c in TransactionStatusValues {
      match c
      case Borrowed => case Returned => case Late => case Cancelled =>
    }
  }

  function TransactionStatusFromString(value: JString): (r: Result<Option<TransactionStatus>>)
    ensures value.None? ==> r == Success(None)
    ensures value.Some? && r.Success? ==>
      r.value.Some? && EqualsIgnoreCase(TransactionStatusName(r.value.value), value.value)
    ensures value.Some? && r.Failure? ==>
      r.error == IllegalArgument("No enum constant for: " + value.value) &&
      forall c :: !EqualsIgnoreCase(TransactionStatusName(c), value.value)
  {
    TransactionStatusValuesComplete();
    FromName(TransactionStatusValues, TransactionStatusName, value)
  }

  lemma TransactionStatusNamesDistinct()
    ensures DistinctNames(TransactionStatusValues, TransactionStatusName)
  {
    forall a, b | EqualsIgnoreCase(TransactionStatusName(a), TransactionStatusName(b))
      ensures a == b
    {
      var x, y := TransactionStatusName(a), TransactionStatusName(b);
      assert |x| == |y| && Fold(x[0]) == Fold(y[0]);
    }
  }

  lemma TransactionStatusRoundTrip(c: TransactionStatus, s: string)
    ensures TransactionStatusFromString(Some(TransactionStatusName(c))) == Success(Some(c))
    ensures EqualsIgnoreCase(TransactionStatusName(c), s) ==>
      TransactionStatusFromString(Some(s)) == Success(Some(c))
  {
    TransactionStatusNamesDistinct();
    EqualsIgnoreCaseReflexive(TransactionStatusName(c));
    FromNameOfName(TransactionStatusValues, TransactionStatusName, c, TransactionStatusName(c));
    if EqualsIgnoreCase(TransactionStatusName(c), s) {
      FromNameOfName(TransactionStatusValues, TransactionStatusName, c, s);
    }
  }

  // ---------------------------------------------------------------- EquipmentStatus

  datatype EquipmentStatus = Loaned | Lost | Available | Ordered

  function EquipmentStatusName(e: EquipmentStatus): string
  {
    match e
    case Loaned => "Loaned"
    case Lost => "Lost"
    case Available => "Available"
    case Ordered => "Ordered"
  }

  const EquipmentStatusValues: seq<EquipmentStatus> := [EquipmentStatus.Loaned, EquipmentStatus.Lost, EquipmentStatus.Available, EquipmentStatus.Ordered]

  lemma EquipmentStatusValuesComplete()
    ensures forall c :: c in EquipmentStatusValues
  {
    forall c: EquipmentStatus ensures c in EquipmentStatusValues {
      match c
      case Loaned => case Lost => case Available => case Ordered =>
    }
  }

  function EquipmentStatusFromString(value: JString): (r: Result<Option<EquipmentStatus>>)
    ensures value.None? ==> r == Success(None)
    ensures value.Some? && r.Success? ==>
      r.value.Some? && EqualsIgnoreCase(EquipmentStatusName(r.value.value), value.value)
    ensures value.Some? && r.Failure? ==>
      r.error == IllegalArgument("No enum constant for: " + value.value) &&
      forall c :: !EqualsIgnoreCase(EquipmentStatusName(c), value.value)
  {
    EquipmentStatusValuesComplete();
    FromName(EquipmentStatusValues, EquipmentStatusName, value)
  }

  lemma EquipmentStatusNamesDistinct()
    ensures DistinctNames(EquipmentStatusValues, EquipmentStatusName)
  {
    forall a, b | EqualsIgnoreCase(EquipmentStatusName(a), EquipmentStatusName(b))
      ensures a == b
    {
      var x, y := EquipmentStatusName(a), EquipmentStatusName(b);
      assert |x| == |y| && Fold(x[0]) == Fold(y[0]);
    }
  }

  lemma EquipmentStatusRoundTrip(c: EquipmentStatus, s: string)
    ensures EquipmentStatusFromString(Some(EquipmentStatusName(c))) == Success(Some(c))
    ensures EqualsIgnoreCase(EquipmentStatusName(c), s) ==>
      EquipmentStatusFromString(Some(s)) == Success(Some(c))
  {
    EquipmentStatusNamesDistinct();
    EqualsIgnoreCaseReflexive(EquipmentStatusName(c));
    FromNameOfName(EquipmentStatusValues, EquipmentStatusName, c, EquipmentStatusName(c));
    if EqualsIgnoreCase(EquipmentStatusName(c), s) {
      FromNameOfName(EquipmentStatusValues, EquipmentStatusName, c, s);
    }
  }

  // ---------------------------------------------------------------- SkillClassification

  datatype SkillClassification = Electrician | Plumber | Painter | Welder | Carpenter

  function SkillClassificationName(s: SkillClassification): string
  {
    match s
    case Electrician => "Electrician"
    case Plumber => "Plumber"
    case Painter => "Painter"
    case Welder => "Welder"
    case Carpenter => "Carpenter"
  }

  const SkillClassificationValues: seq<SkillClassification> := [SkillClassification.Electrician, SkillClassification.Plumber, SkillClassification.Painter, SkillClassification.Welder, SkillClassification.Carpenter]

  lemma SkillClassificationValuesComplete()
    ensures forall c :: c in SkillClassificationValues
  {
    forall c: SkillClassification ensures c in SkillClassificationValues {
      match c
      case Electrician => case Plumber => case Painter => case Welder => case Carpenter =>
    }
  }

  function SkillClassificationFromString(value: JString): (r: Result<Option<SkillClassification>>)
    ensures value.None? ==> r == Success(None)
    ensures value.Some? && r.Success? ==>
      r.value.Some? && EqualsIgnoreCase(SkillClassificationName(r.value.value), value.value)
    ensures value.Some? && r.Failure? ==>
      r.error == IllegalArgument("No enum constant for: " + value.value) &&
      forall c :: !EqualsIgnoreCase(SkillClassificationName(c), value.value)
  {
    SkillClassificationValuesComplete();
    FromName(SkillClassificationValues, SkillClassificationName, value)
  }

  lemma SkillClassificationNamesDistinct()
    ensures DistinctNames(SkillClassificationValues, SkillClassificationName)
  {
    forall a, b | EqualsIgnoreCase(SkillClassificationName(a), SkillClassificationName(b))
      ensures a == b
    {
      var x, y := SkillClassificationName(a), SkillClassificationName(b);
      assert |x| == |y|;
      if |x| == 7 {
        assert EqualsIgnoreCase(x[1..], y[1..]);
        assert x[1..][0] == x[1] && y[1..][0] == y[1];
      }
    }
  }

  lemma SkillClassificationRoundTrip(c: SkillClassification, s: string)
    ensures SkillClassificationFromString(Some(SkillClassificationName(c))) == Success(Some(c))
    ensures EqualsIgnoreCase(SkillClassificationName(c), s) ==>
      SkillClassificationFromString(Some(s)) == Success(Some(c))
  {
    SkillClassificationNamesDistinct();
    EqualsIgnoreCaseReflexive(SkillClassificationName(c));
    FromNameOfName(SkillClassificationValues, SkillClassificationName, c, SkillClassificationName(c));
    if EqualsIgnoreCase(SkillClassificationName(c), s) {
      FromNameOfName(SkillClassificationValues, SkillClassificationName, c, s);
    }
  }

  // ---------------------------------------------------------------- EquipmentCondition

  datatype EquipmentCondition = Good | Damaged | Lost

  function EquipmentConditionName(e: EquipmentCondition): string
  {
    match e
    case Good => "Good"
    case Damaged => "Damaged"
    case Lost => "Lost"
  }

  const EquipmentConditionValues: seq<EquipmentCondition> := [EquipmentCondition.Good, EquipmentCondition.Damaged, EquipmentCondition.Lost]

  lemma EquipmentConditionValuesComplete()
    ensures forall c :: c in EquipmentConditionValues
  {
    forall c: EquipmentCondition ensures c in EquipmentConditionValues {
      match c
      case Good => case Damaged => case Lost =>
    }
  }

  function EquipmentConditionFromString(value: JString): (r: Result<Option<EquipmentCondition>>)
    ensures value.None? ==> r == Success(None)
    ensures value.Some? && r.Success? ==>
      r.value.Some? && EqualsIgnoreCase(EquipmentConditionName(r.value.value), value.value)
    ensures value.Some? && r.Failure? ==>
      r.error == IllegalArgument("No enum constant for: " + value.value) &&
      forall c :: !EqualsIgnoreCase(EquipmentConditionName(c), value.value)
  {
    EquipmentConditionValuesComplete();
    FromName(EquipmentConditionValues, EquipmentConditionName, value)
  }

  lemma EquipmentConditionNamesDistinct()
    ensures DistinctNames(EquipmentConditionValues, EquipmentConditionName)
  {
    forall a, b | EqualsIgnoreCase(EquipmentConditionName(a), EquipmentConditionName(b))
      ensures a == b
    {
      var x, y := EquipmentConditionName(a), EquipmentConditionName(b);
      assert |x| == |y| && Fold(x[0]) == Fold(y[0]);
    }
  }

  lemma EquipmentConditionRoundTrip(c: EquipmentCondition, s: string)
    ensures EquipmentConditionFromString(Some(EquipmentConditionName(c))) == Success(Some(c))
    ensures EqualsIgnoreCase(EquipmentConditionName(c), s) ==>
      EquipmentConditionFromString(Some(s)) == Success(Some(c))
  {
    EquipmentConditionNamesDistinct();
    EqualsIgnoreCaseReflexive(EquipmentConditionName(c));
    FromNameOfName(EquipmentConditionValues, EquipmentConditionName, c, EquipmentConditionName(c));
    if EqualsIgnoreCase(EquipmentConditionName(c), s) {
      FromNameOfName(EquipmentConditionValues, EquipmentConditionName, c, s);
    }
  }

  // ---------------------------------------------------------------- OrderStatus

  datatype OrderStatus = Pending | Confirmed | Cancelled

  function OrderStatusName(o: OrderStatus): string
  {
    match o
    case Pending => "Pending"
    case Confirmed => "Confirmed"
    case Cancelled => "Cancelled"
  }

  const OrderStatusValues: seq<OrderStatus> := [OrderStatus.Pending, OrderStatus.Confirmed, OrderStatus.Cancelled]

  lemma OrderStatusValuesComplete()
    ensures forall c :: c in OrderStatusValues
  {
    forall c: OrderStatus ensures c in OrderStatusValues {
      match c
      case Pending => case Confirmed => case Cancelled =>
    }
  }

  function OrderStatusFromString(value: JString): (r: Result<Option<OrderStatus>>)
    ensures value.None? ==> r == Success(None)
    ensures value.Some? && r.Success? ==>
      r.value.Some? && EqualsIgnoreCase(OrderStatusName(r.value.value), value.value)
    ensures value.Some? && r.Failure? ==>
      r.error == IllegalArgument("No enum constant for: " + value.value) &&
      forall c :: !EqualsIgnoreCase(OrderStatusName(c), value.value)
  {
    OrderStatusValuesComplete();
    FromName(OrderStatusValues, OrderStatusName, value)
  }

  lemma OrderStatusNamesDistinct()
    ensures DistinctNames(OrderStatusValues, OrderStatusName)
  {
    forall a, b | EqualsIgnoreCase(OrderStatusName(a), OrderStatusName(b))
      ensures a == b
    {
      var x, y := OrderStatusName(a), OrderStatusName(b);
      assert |x| == |y| && Fold(x[0]) == Fold(y[0]);
      if |x| == 9 {
        // Confirmed and Cancelled share their first letter.
        assert EqualsIgnoreCase(x[1..], y[1..]);
        assert x[1..][0] == x[1] && y[1..][0] == y[1];
      }
    }
  }

  lemma OrderStatusRoundTrip(c: OrderStatus, s: string)
    ensures OrderStatusFromString(Some(OrderStatusName(c))) == Success(Some(c))
    ensures EqualsIgnoreCase(OrderStatusName(c), s) ==>
      OrderStatusFromString(Some(s)) == Success(Some(c))
  {
    OrderStatusNamesDistinct();
    EqualsIgnoreCaseReflexive(OrderStatusName(c));
    FromNameOfName(OrderStatusValues, OrderStatusName, c, OrderStatusName(c));
    if EqualsIgnoreCase(OrderStatusName(c), s) {
      FromNameOfName(OrderStatusValues, OrderStatusName, c, s);
    }
  }
}
