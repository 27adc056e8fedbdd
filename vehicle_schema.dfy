/** The Vehicle record (models/vehicleData.js) and what the store checks when a
    vehicle document is inserted. */
module VehicleSchema {
  import opened Common

  /** A stored vehicle; `personId` names its owner. */
  datatype Vehicle = Vehicle(vehicleName: string, vehicleType: string, personId: Id, vehicleNum: string)

  /** The paths a writer supplies for a new vehicle document; `None` is a path not supplied. */
  datatype VehicleDraft = VehicleDraft(vehicleName: Option<string>, vehicleType: Option<string>,
                                       personId: Option<Id>, vehicleNum: Option<string>)

  /** The schema's enum for `vehicleType`, compared exactly (case matters). */
  const TypeEnum: seq<string> := ["E-BIKE", "BIKE", "E-CAR", "CAR"]

  /** The value `vehicleType` takes when it is not supplied. */
  const DefaultType: string := "BIKE"

  /** The enum validator: an unsupplied type passes (the default fills it in); a
      supplied one, "" included, must be one of the enum's literals. */
  predicate TypeValid(t: Option<string>)
  {
    t.None? || t.value in TypeEnum
  }

  /** The type a new document stores: the supplied value, or the default. Because the
      default is itself an enum value, the stored type is in the enum exactly when the
      enum validator accepts. */
  function EffectiveType(t: Option<string>): (r: string)
    ensures r in TypeEnum <==> TypeValid(t)
    ensures t.Some? ==> r == t.value
    ensures t.None? ==> r == DefaultType
  {
    if t.Some? then t.value else DefaultType
  }

  /** A stored vehicle passes every validator of the schema. */
  predicate WellFormed(v: Vehicle)
  {
    v.vehicleName != "" && v.vehicleType in TypeEnum && v.vehicleNum != ""
  }

  /** The unique index on `vehicleNum`: no two stored vehicles share a number. */
  predicate NumsUnique(vehicles: map<Id, Vehicle>)
  {
    forall i, j :: i in vehicles && j in vehicles && i != j ==> vehicles[i].vehicleNum != vehicles[j].vehicleNum
  }

  /** Some stored vehicle carries the number `num`. */
  predicate NumHeld(vehicles: map<Id, Vehicle>, num: string)
  {
    exists j :: j in vehicles && vehicles[j].vehicleNum == num
  }

  /** The validators run on a new document: `vehicleName`, `personId` and
      `vehicleNum` are required and `vehicleType` must pass the enum. */
  predicate PassesValidators(d: VehicleDraft)
  {
    Present(d.vehicleName) && TypeValid(d.vehicleType) && d.personId.Some? && Present(d.vehicleNum)
  }

  /** An insert is accepted when the validators pass and the unique index does not clash. */
  predicate AcceptsInsert(vehicles: map<Id, Vehicle>, d: VehicleDraft)
  {
    PassesValidators(d) && !NumHeld(vehicles, d.vehicleNum.value)
  }

  /** The document an accepted insert writes. */
  function Build(d: VehicleDraft): (v: Vehicle)
    requires PassesValidators(d)
    ensures WellFormed(v)
    ensures v.personId == d.personId.value
  {
    Vehicle(d.vehicleName.value, EffectiveType(d.vehicleType), d.personId.value, d.vehicleNum.value)
  }

  /** An accepted insert under a fresh id keeps vehicle numbers unique. */
  lemma InsertKeepsNumsUnique(vehicles: map<Id, Vehicle>, id: Id, d: VehicleDraft)
    requires NumsUnique(vehicles) && id !in vehicles && AcceptsInsert(vehicles, d)
    ensures NumsUnique(vehicles[id := Build(d)])
  {
  }

  /** Without a `vehicleNum` no insert is ever accepted, whatever else is supplied. */
  lemma NoNumNoInsert(vehicles: map<Id, Vehicle>, d: VehicleDraft)
    requires d.vehicleNum.None?
    ensures !AcceptsInsert(vehicles, d)
  {
  }
}
