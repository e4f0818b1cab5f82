/** `Equipment`: one physical item, with a mutable status and condition.
    Fields the source leaves unset are `None`. */
module Equipments {
  import opened Wrappers
  import opened Enums

  datatype EquipmentState = EquipmentState(
    equipmentID: int,
    equipmentName: JString,
    equipmentCondition: Option<EquipmentCondition>,
    status: Option<EquipmentStatus>,
    requiredSkill: Option<SkillClassification>)

  class Equipment {
    var equipmentID: int
    var equipmentName: JString
    var equipmentCondition: Option<EquipmentCondition>
    var status: Option<EquipmentStatus>
    var requiredSkill: Option<SkillClassification>

    /** All fields at once. */
    function State(): EquipmentState
      reads this
    {
      EquipmentState(equipmentID, equipmentName, equipmentCondition, status, requiredSkill)
    }

    /** `Equipment(id, name)`: condition, status and skill stay unset. */
    constructor Named(equipmentID: int, equipmentName: JString)
      ensures State() == EquipmentState(equipmentID, equipmentName, None, None, None)
    {
      this.equipmentID := equipmentID;
      this.equipmentName := equipmentName;
      this.equipmentCondition := None;
      this.status := None;
      this.requiredSkill := None;
    }

    /** `Equipment(id, name, requiredSkill, condition)`: status stays unset. */
    constructor WithSkillAndCondition(equipmentID: int, equipmentName: JString,
                                      requiredSkill: Option<SkillClassification>,
                                      equipmentCondition: Option<EquipmentCondition>)
      ensures State() == EquipmentState(equipmentID, equipmentName, equipmentCondition, None, requiredSkill)
    {
      this.equipmentID := equipmentID;
      this.equipmentName := equipmentName;
      this.requiredSkill := requiredSkill;
      this.equipmentCondition := equipmentCondition;
      this.status := None;
    }

    /** `Equipment(id, name, status, requiredSkill)`: condition stays unset. */
    constructor WithStatusAndSkill(equipmentID: int, equipmentName: JString,
                                   status: Option<EquipmentStatus>,
                                   requiredSkill: Option<SkillClassification>)
      ensures State() == EquipmentState(equipmentID, equipmentName, None, status, requiredSkill)
    {
      this.equipmentID := equipmentID;
      this.equipmentName := equipmentName;
      this.status := status;
      this.requiredSkill := requiredSkill;
      this.equipmentCondition := None;
    }

    /** The full constructor: every field exactly as given. */
    constructor Full(equipmentID: int, equipmentName: JString,
                     equipmentCondition: Option<EquipmentCondition>,
                     status: Option<EquipmentStatus>,
                     requiredSkill: Option<SkillClassification>)
      ensures State() == EquipmentState(equipmentID, equipmentName, equipmentCondition, status, requiredSkill)
    {
      this.equipmentID := equipmentID;
      this.equipmentName := equipmentName;
      this.equipmentCondition := equipmentCondition;
      this.status := status;
      this.requiredSkill := requiredSkill;
    }

    /** `Equipment(id, name, condition, status)`: required skill stays unset. */
    constructor WithConditionAndStatus(equipmentID: int, equipmentName: JString,
                                       equipmentCondition: Option<EquipmentCondition>,
                                       status: Option<EquipmentStatus>)
      ensures State() == EquipmentState(equipmentID, equipmentName, equipmentCondition, status, None)
    {
      this.equipmentID := equipmentID;
      this.equipmentName := equipmentName;
      this.equipmentCondition := equipmentCondition;
      this.status := status;
      this.requiredSkill := None;
    }

    /** A field-for-field copy (what `checkOut` expects of `clone()`). */
    method Copy() returns (copy: Equipment)
      ensures fresh(copy)
      ensures copy.State() == State()
    {
      copy := new Equipment.Full(equipmentID, equipmentName, equipmentCondition, status, requiredSkill);
    }

    method SetEquipmentCondition(equipmentCondition: Option<EquipmentCondition>)
      modifies this`equipmentCondition
      ensures State() == old(State()).(equipmentCondition := equipmentCondition)
    {
      this.equipmentCondition := equipmentCondition;
    }

    method SetStatus(status: Option<EquipmentStatus>)
      modifies this`status
      ensures State() == old(State()).(status := status)
    {
      this.status := status;
    }
  }
}
