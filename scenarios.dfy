/** Request sequences against a fresh store, with what the handlers answer. Each is
    proved from the contracts of the `Store` methods and the model's lemmas. */
module Scenarios {
  import opened Common
  import opened Api
  import P = PersonSchema
  import V = VehicleSchema

  function Body(user: string, email: string, vtype: string, name: string, num: string): (b: PersonBody)
  {
    PersonBody(Some(user), Some(email), Some(vtype), Some(name), Some(num))
  }

  const BodyA: PersonBody := Body("A", "a@x.com", "CAR", "Sedan", "N1")
  const PersonA: P.Person := P.Person("A", "a@x.com", [])
  const VehicleA: V.Vehicle := V.Vehicle("Sedan", "CAR", 0, "N1")

  const BodyB: PersonBody := Body("B", "b@x.com", "CAR", "Coupe", "N2")
  const PersonB: P.Person := P.Person("B", "b@x.com", [])
  const VehicleB: V.Vehicle := V.Vehicle("Coupe", "CAR", 2, "N2")

  /** A new store after POST /api/person for A: person 0 owns vehicle 1, and the
      person's own list stays empty. */
  method StoreWithA() returns (s: Store, res: Response)
    ensures fresh(s) && s.Valid()
    ensures s.persons == map[0 := PersonA] && s.vehicles == map[1 := VehicleA] && s.nextId == 2
    ensures res == Response(200, PersonAdded, Created(0, PersonA, 1, VehicleA))
  {
    s := new Store();
    res := s.AddPerson(BodyA);
  }

  /** Then POST /api/person for B: person 2 owns vehicle 3. */
  method StoreWithAB() returns (s: Store, res: Response)
    ensures fresh(s) && s.Valid()
    ensures s.persons == map[0 := PersonA, 2 := PersonB]
    ensures s.vehicles == map[1 := VehicleA, 3 := VehicleB] && s.nextId == 4
    ensures res == Response(200, PersonAdded, Created(2, PersonB, 3, VehicleB))
  {
    var first;
    s, first := StoreWithA();
    assert !P.EmailHeldByOther(s.persons, "b@x.com", None) by {
      assert s.persons.Keys == {0} && s.persons[0].emailId == "a@x.com";
    }
    assert !V.NumHeld(s.vehicles, "N2") by {
      assert s.vehicles.Keys == {1} && s.vehicles[1].vehicleNum == "N1";
    }
    res := s.AddPerson(BodyB);
  }

  /** A first creation succeeds and the new vehicle names the new person as its owner;
      repeating the same body is refused with 409. */
  method CreateThenRepeat() returns (first: Response, second: Response)
    ensures first.status == 200 && first.msg == PersonAdded && first.payload.Created?
    ensures first.payload.vehicle.personId == first.payload.personId
    ensures first.payload.person.vehicles == []
    ensures second == Response(409, EmailExists, NoData)
  {
    var s;
    s, first := StoreWithA();
    assert s.persons[0].emailId == "a@x.com";
    second := s.AddPerson(BodyA);
  }

  /** The email check runs before the type check: a known email with a type outside
      the allow-list gives 409, not 400. */
  method DuplicateEmailBeforeTypeCheck() returns (second: Response)
    ensures second == Response(409, EmailExists, NoData)
  {
    var s, _ := StoreWithA();
    assert s.persons[0].emailId == "a@x.com";
    second := s.AddPerson(Body("B", "a@x.com", "truck", "Lorry", "N2"));
  }

  /** "bike" passes the handler's allow-list but not the schema's enum: the person is
      saved, the vehicle is refused, the answer is 500, and the person stays stored
      with no vehicle at all. */
  method CaseVariantLeavesPerson() returns (add: Response, read: Response)
    ensures add == Response(500, InternalServerError, NoData)
    ensures read.status == 200 && read.payload.PersonAndVehicles?
    ensures read.payload.populated.vehicles == [] && read.payload.owned == map[]
  {
    var s := new Store();
    add := s.AddPerson(Body("A", "a@x.com", "bike", "Scooty", "N1"));
    read := s.GetPerson(Cast(0));
  }

  /** A second person whose vehicle number is already stored is saved, but the vehicle
      clashes with the unique index: 500, and the person stays stored. */
  method DuplicateNumLeavesPerson() returns (second: Response, read: Response)
    ensures second == Response(500, InternalServerError, NoData)
    ensures read.status == 200 && read.payload.PersonAndVehicles?
    ensures read.payload.populated.emailId == "b@x.com" && read.payload.owned == map[]
  {
    var s, _ := StoreWithA();
    assert s.vehicles[1].vehicleNum == "N1";
    assert !P.EmailHeldByOther(s.persons, "b@x.com", None) by {
      assert s.persons.Keys == {0} && s.persons[0].emailId == "a@x.com";
    }
    second := s.AddPerson(Body("B", "b@x.com", "BIKE", "Pulsar", "N1"));
    read := s.GetPerson(Cast(2));
  }

  /** After POST /api/person the two views of GetPerson differ: the populated
      `vehicles` list is empty, while the query on `personId` finds the new vehicle. */
  method CreatedVehicleIsNotListed() returns (read: Response)
    ensures read.status == 200 && read.payload.PersonAndVehicles?
    ensures read.payload.populated.vehicles == []
    ensures 1 in read.payload.owned && read.payload.owned[1].personId == 0
  {
    var s, _ := StoreWithA();
    read := s.GetPerson(Cast(0));
  }

  /** POST /create/:personId as written answers 500 for a stored person, even with a
      complete body, and the person's `vehicles` list stays empty. */
  method AddVehicleAsWritten() returns (create: Response, read: Response)
    ensures create == Response(500, CreateError, NoData)
    ensures read.status == 200 && read.payload.PersonAndVehicles? && read.payload.populated.vehicles == []
  {
    var s, _ := StoreWithA();
    create := s.CreateVehicle(Cast(0), VehicleBody(Some("Bike1"), Some("BIKE"), Some("N2")));
    read := s.GetPerson(Cast(0));
  }

  /** The corrected route answers 201 and the next GetPerson lists the new vehicle in
      the person's `vehicles`. */
  method AddVehicleCorrected() returns (create: Response, read: Response)
    ensures create == Response(201, VehicleCreated, OneVehicle(2, V.Vehicle("Bike1", "BIKE", 0, "N2")))
    ensures read.status == 200 && read.payload.PersonAndVehicles?
    ensures read.payload.populated.vehicles == [(2, V.Vehicle("Bike1", "BIKE", 0, "N2"))]
  {
    var s, _ := StoreWithA();
    assert !V.NumHeld(s.vehicles, "N2") by {
      assert s.vehicles.Keys == {1} && s.vehicles[1].vehicleNum == "N1";
    }
    create := s.CreateVehicleWithNum(Cast(0), VehicleBody(Some("Bike1"), Some("BIKE"), Some("N2")));
    assert s.persons[0].vehicles == [2];
    read := s.GetPerson(Cast(0));
  }

  /** Deleting a person does not cascade: the person is gone, its vehicle is still
      retrievable and still names the deleted person as owner. */
  method DeleteKeepsVehicles() returns (del: Response, person: Response, vehicle: Response)
    ensures del == Response(200, Deleted, NoData)
    ensures person == Response(404, NoUserWithId, NoData)
    ensures vehicle.status == 200 && vehicle.payload.OneVehicle? && vehicle.payload.vehicle.personId == 0
  {
    var s, _ := StoreWithA();
    del := s.DeletePerson(Cast(0));
    person := s.GetPerson(Cast(0));
    vehicle := s.GetVehicle(Cast(1));
  }

  /** A PUT that renames a person answers 200 with the new name, and the next read
      shows the new name with the email left as it was. */
  method RenameReadBack() returns (update: Response, read: Response)
    ensures update == Response(200, PersonEdited, OnePerson(0, P.Person("Z", "a@x.com", [])))
    ensures read.status == 200 && read.payload.PersonAndVehicles?
    ensures read.payload.populated.userName == "Z" && read.payload.populated.emailId == "a@x.com"
  {
    var s, _ := StoreWithA();
    P.OwnEmailNotHeldByOther(s.persons, 0);
    update := s.UpdatePerson(Cast(0), P.PersonDraft(Some("Z"), None, None));
    read := s.GetPerson(Cast(0));
  }

  /** An update that moves a person onto another person's email clashes with the
      unique index (500); a malformed id gives 500 on every route, never 404. */
  method UpdateClashAndMalformed() returns (update: Response, malformed: Response)
    ensures update == Response(500, CannotEdit, NoData)
    ensures malformed == Response(500, CannotDelete, NoData)
  {
    var s, _ := StoreWithAB();
    assert s.persons[0].emailId == "a@x.com";
    update := s.UpdatePerson(Cast(2), P.PersonDraft(None, Some("a@x.com"), None));
    malformed := s.DeletePerson(Malformed);
  }

  /** PUT may write any `vehicles` list: after moving A's vehicle onto B's list, B's
      populated list shows a vehicle whose owner is A, which the `personId` query for
      B does not return. The back-references are therefore not an invariant. */
  method UpdateBreaksLinks() returns (update: Response, read: Response)
    ensures update.status == 200 && update.msg == PersonEdited
    ensures read.status == 200 && read.payload.PersonAndVehicles?
    ensures |read.payload.populated.vehicles| == 1 && read.payload.populated.vehicles[0].0 == 1
    ensures read.payload.populated.vehicles[0].1.personId == 0
    ensures 1 !in read.payload.owned && 3 in read.payload.owned
  {
    var s, _ := StoreWithAB();
    update := s.UpdatePerson(Cast(2), P.PersonDraft(None, None, Some([1])));
    assert s.persons[2].vehicles == [1];
    PopulateTotal([1], s.vehicles);
    read := s.GetPerson(Cast(2));
  }
}
