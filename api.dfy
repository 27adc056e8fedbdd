/** The request handlers of index.js, as operations on an in-memory store of two
    tables. Each route is one method of `Store`; it returns the HTTP status, which
    message branch was taken and the payload, and changes the tables exactly as the
    handler's sequence of saves, pushes and deletes does. */
module Api {
  import opened Common
  import P = PersonSchema
  import V = VehicleSchema

  /** The message branches of the handlers, one per distinct message text. */
  datatype Msg =
    | PersonAdded          // "Person details successfully added!"
    | MissingFields        // "Missing required fields"
    | EmailExists          // "Email already exists"
    | InvalidVehicleType   // "Invalid vehicle type"
    | InternalServerError  // "Internal Server Error"
    | ListSuccess          // "Success.."
    | NoUserFound          // "No user found" (never produced)
    | PersonFound          // "Success!"
    | NoUserWithId         // "No user found with ID: ..."
    | PersonEdited         // "Person details successfully edited!"
    | PersonNotFound       // "Person details not found!"
    | CannotEdit           // "Person details can't be edited!"
    | Deleted              // "Successfully deleted!"
    | DetailsNotFound      // "Details not found!"
    | CannotDelete         // "Something went wrong. Can't delete."
    | VehicleCreated       // "Successfully created!"
    | UserNotFound         // "User not found!"
    | CreateError          // "Error!"
    | VehicleFound         // "Vehicle found!"
    | DataNotFound         // "Data not found for ID: ..."
    | FetchVehicleError    // "Error fetching vehicle."

  /** A person whose `vehicles` ids are resolved to the vehicle records (`populate`). */
  datatype PopulatedPerson = PopulatedPerson(userName: string, emailId: string, vehicles: seq<(Id, V.Vehicle)>)

  datatype Payload =
    | NoData
    | Created(personId: Id, person: P.Person, vehicleId: Id, vehicle: V.Vehicle)
    | People(people: map<Id, PopulatedPerson>)
    | PersonAndVehicles(personId: Id, populated: PopulatedPerson, owned: map<Id, V.Vehicle>)
    | OnePerson(personId: Id, person: P.Person)
    | OneVehicle(vehicleId: Id, vehicle: V.Vehicle)

  datatype Response = Response(status: int, msg: Msg, payload: Payload)

  /** The body of POST /api/person. */
  datatype PersonBody = PersonBody(userName: Option<string>, emailId: Option<string>, vehicleType: Option<string>,
                                   vehicleName: Option<string>, vehicleNum: Option<string>)

  /** The body of POST /create/:personId. The handler reads only the first two paths. */
  datatype VehicleBody = VehicleBody(vehicleName: Option<string>, vehicleType: Option<string>, vehicleNum: Option<string>)

  /** The handler's own allow-list of vehicle types, compared exactly. */
  const AllowedTypes: seq<string> := ["E-BIKE", "BIKE", "E-CAR", "CAR", "Bike", "bike", "E-bike", "e-bike", "car", "Car", "e-car"]

  /** The seven allow-listed spellings that the schema's enum refuses. */
  const CaseVariants: seq<string> := ["Bike", "bike", "E-bike", "e-bike", "car", "Car", "e-car"]

  /** The first check of POST /api/person: one of the five fields is absent or empty. */
  predicate MissingField(b: PersonBody)
  {
    !Present(b.userName) || !Present(b.emailId) || !Present(b.vehicleType) || !Present(b.vehicleName) || !Present(b.vehicleNum)
  }

  /** A body that gets past all three checks of POST /api/person, in their order. */
  predicate PassesHandlerChecks(persons: map<Id, P.Person>, b: PersonBody)
  {
    && !MissingField(b)
    && !P.EmailHeldByOther(persons, b.emailId.value, None)
    && b.vehicleType.value in AllowedTypes
  }

  /** The vehicle document POST /api/person builds for the new person `pid`. */
  function VehicleDraftOf(b: PersonBody, pid: Id): (d: V.VehicleDraft)
    ensures d.personId == Some(pid)
    ensures !MissingField(b) ==> (V.PassesValidators(d) <==> b.vehicleType.value in V.TypeEnum)
  {
    V.VehicleDraft(b.vehicleName, b.vehicleType, Some(pid), b.vehicleNum)
  }

  /** A body that passes the handler's three checks always makes an acceptable person
      document, so the person's save in POST /api/person cannot fail. */
  lemma HandlerChecksAdmitPerson(persons: map<Id, P.Person>, b: PersonBody)
    requires PassesHandlerChecks(persons, b)
    ensures P.AcceptsInsert(persons, P.PersonDraft(b.userName, b.emailId, None))
  {
  }

  /** After the handler's checks, the vehicle document is refused by the validators
      exactly when the type is one of the seven case variants. */
  lemma HandlerChecksRefuseOnlyCaseVariants(persons: map<Id, P.Person>, b: PersonBody, pid: Id)
    requires PassesHandlerChecks(persons, b)
    ensures !V.PassesValidators(VehicleDraftOf(b, pid)) <==> b.vehicleType.value in CaseVariants
  {
    AllowListMinusEnum(b.vehicleType.value);
  }

  /** Every type the schema's enum accepts also passes the handler's allow-list. */
  lemma EnumWithinAllowList()
    ensures forall t :: t in V.TypeEnum ==> t in AllowedTypes
  {
  }

  /** A type passes the handler's allow-list but fails the schema's enum exactly when
      it is one of the seven case variants. */
  lemma AllowListMinusEnum(t: string)
    ensures (t in AllowedTypes && t !in V.TypeEnum) <==> t in CaseVariants
  {
  }

  /** `populate('vehicles')`: each listed id resolved to its vehicle, in list order;
      ids with no vehicle behind them are dropped. */
  function Populate(ids: seq<Id>, vehicles: map<Id, V.Vehicle>): (r: seq<(Id, V.Vehicle)>)
    ensures |r| <= |ids|
  {
    if ids == [] then []
    else
      var rest := Populate(ids[1..], vehicles);
      if ids[0] in vehicles then [(ids[0], vehicles[ids[0]])] + rest else rest
  }

  /** An entry is in the populated list exactly when its id is listed and its
      vehicle is the stored one. */
  lemma {:induction false} PopulateMembers(ids: seq<Id>, vehicles: map<Id, V.Vehicle>, i: Id, v: V.Vehicle)
    ensures (i, v) in Populate(ids, vehicles) <==> i in ids && i in vehicles && v == vehicles[i]
  {
    if ids != [] {
      PopulateMembers(ids[1..], vehicles, i, v);
      assert i in ids <==> i == ids[0] || i in ids[1..];
    }
  }

  /** When every listed id has a vehicle, populating keeps the list's length and order. */
  lemma {:induction false} PopulateTotal(ids: seq<Id>, vehicles: map<Id, V.Vehicle>)
    requires forall k :: 0 <= k < |ids| ==> ids[k] in vehicles
    ensures |Populate(ids, vehicles)| == |ids|
    ensures forall k :: 0 <= k < |ids| ==> Populate(ids, vehicles)[k] == (ids[k], vehicles[ids[k]])
  {
    if ids != [] {
      PopulateTotal(ids[1..], vehicles);
    }
  }

  /** A person as `findById(id).populate('vehicles')` returns it. */
  function PopulatePerson(p: P.Person, vehicles: map<Id, V.Vehicle>): (r: PopulatedPerson)
  {
    PopulatedPerson(p.userName, p.emailId, Populate(p.vehicles, vehicles))
  }

  /** Populating after a push: the pushed id contributes one entry at the end when a
      vehicle is stored under it, and nothing otherwise. */
  lemma {:induction false} PopulateAppend(ids: seq<Id>, vid: Id, vehicles: map<Id, V.Vehicle>)
    ensures Populate(ids + [vid], vehicles)
            == Populate(ids, vehicles) + (if vid in vehicles then [(vid, vehicles[vid])] else [])
  {
    if ids != [] {
      assert (ids + [vid])[1..] == ids[1..] + [vid];
      PopulateAppend(ids[1..], vid, vehicles);
    }
  }

  /** The push of index.js:154 seen through GetPerson: after pushing the id of a stored
      vehicle, the populated person keeps its name and email and lists that vehicle
      once more, at the end, after everything it listed before. */
  lemma PopulatePersonPush(p: P.Person, vid: Id, vehicles: map<Id, V.Vehicle>)
    requires vid in vehicles
    ensures var r := PopulatePerson(p.(vehicles := p.vehicles + [vid]), vehicles);
            && r.userName == p.userName && r.emailId == p.emailId
            && r.vehicles == PopulatePerson(p, vehicles).vehicles + [(vid, vehicles[vid])]
  {
    PopulateAppend(p.vehicles, vid, vehicles);
  }

  /** `Vehicle.find({ personId: id })`: the vehicles whose owner field is `pid`. */
  function OwnedBy(vehicles: map<Id, V.Vehicle>, pid: Id): (r: map<Id, V.Vehicle>)
  {
    map k | k in vehicles && vehicles[k].personId == pid :: vehicles[k]
  }

  /** Saving a vehicle under a fresh id adds exactly that entry to its owner's query
      result and leaves every other owner's result as it was. */
  lemma OwnedByInsert(vehicles: map<Id, V.Vehicle>, id: Id, v: V.Vehicle, pid: Id)
    requires id !in vehicles
    ensures v.personId == pid ==> OwnedBy(vehicles[id := v], pid) == OwnedBy(vehicles, pid)[id := v]
    ensures v.personId != pid ==> OwnedBy(vehicles[id := v], pid) == OwnedBy(vehicles, pid)
  {
  }

  /** Each vehicle is returned by exactly one owner's query: the results for two
      different owners never share an id. */
  lemma OwnedByDisjoint(vehicles: map<Id, V.Vehicle>, p: Id, q: Id)
    requires p != q
    ensures OwnedBy(vehicles, p).Keys !! OwnedBy(vehicles, q).Keys
  {
  }

  /** The store: the "persons" and "vehicles" collections and the source of fresh ids. */
  class Store {
    var persons: map<Id, P.Person>
    var vehicles: map<Id, V.Vehicle>
    var nextId: Id

    /** What the schemas and the unique indexes guarantee of the stored documents.
        References between the tables are deliberately not part of it. */
    ghost predicate Valid()
      reads this
    {
      && (forall i :: i in persons ==> i < nextId)
      && (forall i :: i in vehicles ==> i < nextId)
      && persons.Keys !! vehicles.Keys
      && P.EmailsUnique(persons)
      && V.NumsUnique(vehicles)
      && (forall i :: i in persons ==> P.WellFormed(persons[i]))
      && (forall i :: i in vehicles ==> V.WellFormed(vehicles[i]))
    }

    /** Neither table and not the id counter changed. */
    twostate predicate Untouched()
      reads this
    {
      persons == old(persons) && vehicles == old(vehicles) && nextId == old(nextId)
    }

    constructor ()
      ensures Valid()
      ensures persons == map[] && vehicles == map[] && nextId == 0
    {
      persons := map[];
      vehicles := map[];
      nextId := 0;
    }

    /** `new Person(d).save()`: accepted exactly when the schema accepts it, and then
        stored under a fresh id. */
    method InsertPerson(d: P.PersonDraft) returns (id: Option<Id>)
      requires Valid()
      modifies this
      ensures Valid()
      ensures id.Some? <==> P.AcceptsInsert(old(persons), d)
      ensures id.Some? ==> id.value == old(nextId) && persons == old(persons)[id.value := P.Build(d)]
                           && nextId == old(nextId) + 1
      ensures id.None? ==> persons == old(persons) && nextId == old(nextId)
      ensures vehicles == old(vehicles)
    {
      if P.AcceptsInsert(persons, d) {
        P.InsertKeepsEmailsUnique(persons, nextId, d);
        persons := persons[nextId := P.Build(d)];
        id := Some(nextId);
        nextId := nextId + 1;
      } else {
        id := None;
      }
    }

    /** `new Vehicle(d).save()`: accepted exactly when the schema accepts it, and then
        stored under a fresh id. */
    method InsertVehicle(d: V.VehicleDraft) returns (id: Option<Id>)
      requires Valid()
      modifies this
      ensures Valid()
      ensures id.Some? <==> V.AcceptsInsert(old(vehicles), d)
      ensures id.Some? ==> id.value == old(nextId) && vehicles == old(vehicles)[id.value := V.Build(d)]
                           && nextId == old(nextId) + 1
      ensures id.None? ==> vehicles == old(vehicles) && nextId == old(nextId)
      ensures persons == old(persons)
    {
      if V.AcceptsInsert(vehicles, d) {
        V.InsertKeepsNumsUnique(vehicles, nextId, d);
        vehicles := vehicles[nextId := V.Build(d)];
        id := Some(nextId);
        nextId := nextId + 1;
      } else {
        id := None;
      }
    }

    /** Insert a vehicle for the stored person `pid`; only when that succeeds, push the
        new id onto the person's `vehicles` once and save the person. */
    method InsertVehicleAndLink(pid: Id, d: V.VehicleDraft) returns (created: Option<(Id, V.Vehicle)>)
      requires Valid() && pid in persons && d.personId == Some(pid)
      modifies this
      ensures Valid()
      ensures created.Some? <==> V.AcceptsInsert(old(vehicles), d)
      ensures created.None? ==> Untouched()
      ensures created.Some? ==>
                var vid := created.value.0;
                && vid == old(nextId) && nextId == old(nextId) + 1
                && created.value.1 == V.Build(d) && created.value.1.personId == pid
                && vehicles == old(vehicles)[vid := V.Build(d)]
                && persons == old(persons)[pid := old(persons)[pid].(vehicles := old(persons)[pid].vehicles + [vid])]
    {
      var vid := InsertVehicle(d);
      if vid.Some? {
        var owner := persons[pid];
        owner := owner.(vehicles := owner.vehicles + [vid.value]);
        P.OwnEmailNotHeldByOther(persons, pid);
        P.ReplaceKeepsEmailsUnique(persons, pid, owner);
        persons := persons[pid := owner];
        created := Some((vid.value, vehicles[vid.value]));
      } else {
        created := None;
      }
    }

    /** POST /api/person. Checks, in this order: a missing field (400), an email that
        is already stored (409), a type outside the allow-list (400). Then the person is
        saved and only afterwards the vehicle; a vehicle the schema refuses gives 500
        and leaves the new person stored, with an empty `vehicles` list. */
    method AddPerson(b: PersonBody) returns (res: Response)
      requires Valid()
      modifies this
      ensures Valid()
      ensures MissingField(b) ==> res == Response(400, MissingFields, NoData) && Untouched()
      ensures !MissingField(b) && P.EmailHeldByOther(old(persons), b.emailId.value, None) ==>
                res == Response(409, EmailExists, NoData) && Untouched()
      ensures !MissingField(b) && !P.EmailHeldByOther(old(persons), b.emailId.value, None)
              && b.vehicleType.value !in AllowedTypes ==>
                res == Response(400, InvalidVehicleType, NoData) && Untouched()
      ensures PassesHandlerChecks(old(persons), b) ==>
                var pid := old(nextId);
                var person := P.Person(b.userName.value, b.emailId.value, []);
                && pid !in old(persons)
                && persons == old(persons)[pid := person]
                && if V.AcceptsInsert(old(vehicles), VehicleDraftOf(b, pid)) then
                     var vehicle := V.Build(VehicleDraftOf(b, pid));
                     && vehicle.personId == pid
                     && vehicles == old(vehicles)[pid + 1 := vehicle]
                     && nextId == pid + 2
                     && res == Response(200, PersonAdded, Created(pid, person, pid + 1, vehicle))
                   else
                     && vehicles == old(vehicles)
                     && nextId == pid + 1
                     && res == Response(500, InternalServerError, NoData)
    {
      if MissingField(b) {
        return Response(400, MissingFields, NoData);
      }
      if P.EmailHeldByOther(persons, b.emailId.value, None) {
        return Response(409, EmailExists, NoData);
      }
      if b.vehicleType.value !in AllowedTypes {
        return Response(400, InvalidVehicleType, NoData);
      }
      var pid := InsertPerson(P.PersonDraft(b.userName, b.emailId, None));
      if pid.None? {
        return Response(500, InternalServerError, NoData);
      }
      var person := persons[pid.value];
      var vid := InsertVehicle(VehicleDraftOf(b, pid.value));
      if vid.None? {
        return Response(500, InternalServerError, NoData);
      }
      res := Response(200, PersonAdded, Created(pid.value, person, vid.value, vehicles[vid.value]));
    }

    /** GET /api/person: every person with its vehicles populated. `find()` yields an
        array, which is always truthy, so the "No user found" branch is never taken. */
    method ListPersons() returns (res: Response)
      ensures res.status == 200 && res.msg == ListSuccess && res.payload.People?
      ensures res.payload.people.Keys == persons.Keys
      ensures forall i :: i in persons ==> res.payload.people[i] == PopulatePerson(persons[i], vehicles)
    {
      var people := map i | i in persons :: PopulatePerson(persons[i], vehicles);
      res := Response(200, ListSuccess, People(people));
    }

    /** GET /api/person/:id: the populated person together with the separately queried
        vehicles whose `personId` is the id; 404 when no person has the id. */
    method GetPerson(arg: IdArg) returns (res: Response)
      ensures arg.Malformed? ==> res == Response(500, InternalServerError, NoData)
      ensures arg.Cast? && arg.id !in persons ==> res == Response(404, NoUserWithId, NoData)
      ensures arg.Cast? && arg.id in persons ==>
                && res.status == 200 && res.msg == PersonFound && res.payload.PersonAndVehicles?
                && res.payload.personId == arg.id
                && res.payload.populated == PopulatePerson(persons[arg.id], vehicles)
                && (forall k :: k in res.payload.owned <==> k in vehicles && vehicles[k].personId == arg.id)
                && (forall k :: k in res.payload.owned ==> res.payload.owned[k] == vehicles[k])
    {
      match arg
      case Malformed =>
        res := Response(500, InternalServerError, NoData);
      case Cast(id) =>
        if id in persons {
          var owned := OwnedBy(vehicles, id);
          res := Response(200, PersonFound, PersonAndVehicles(id, PopulatePerson(persons[id], vehicles), owned));
        } else {
          res := Response(404, NoUserWithId, NoData);
        }
    }

    /** PUT /api/person/:id. The supplied paths are validated first (an explicitly
        empty `userName` or `emailId` gives 500), then an absent id gives 404, then a
        new email held by another person clashes with the unique index (500);
        otherwise the paths are merged into the record and the new record returned. */
    method UpdatePerson(arg: IdArg, d: P.PersonDraft) returns (res: Response)
      requires Valid()
      modifies this
      ensures Valid()
      ensures vehicles == old(vehicles) && nextId == old(nextId)
      ensures arg.Malformed? ==> res == Response(500, CannotEdit, NoData) && Untouched()
      ensures arg.Cast? && !P.PassesUpdateValidators(d) ==> res == Response(500, CannotEdit, NoData) && Untouched()
      ensures arg.Cast? && P.PassesUpdateValidators(d) && arg.id !in old(persons) ==>
                res == Response(404, PersonNotFound, NoData) && Untouched()
      ensures arg.Cast? && P.PassesUpdateValidators(d) && arg.id in old(persons) ==>
                var updated := P.Merge(old(persons)[arg.id], d);
                if P.EmailHeldByOther(old(persons), updated.emailId, Some(arg.id)) then
                  res == Response(500, CannotEdit, NoData) && Untouched()
                else
                  persons == old(persons)[arg.id := updated] && res == Response(200, PersonEdited, OnePerson(arg.id, updated))
    {
      match arg
      case Malformed =>
        res := Response(500, CannotEdit, NoData);
      case Cast(id) =>
        if !P.PassesUpdateValidators(d) {
          return Response(500, CannotEdit, NoData);
        }
        if id !in persons {
          return Response(404, PersonNotFound, NoData);
        }
        var updated := P.Merge(persons[id], d);
        if P.EmailHeldByOther(persons, updated.emailId, Some(id)) {
          return Response(500, CannotEdit, NoData);
        }
        P.ReplaceKeepsEmailsUnique(persons, id, updated);
        persons := persons[id := updated];
        res := Response(200, PersonEdited, OnePerson(id, updated));
    }

    /** DELETE /api/delete/:id: removes only the person; its vehicles stay stored. */
    method DeletePerson(arg: IdArg) returns (res: Response)
      requires Valid()
      modifies this
      ensures Valid()
      ensures vehicles == old(vehicles) && nextId == old(nextId)
      ensures arg.Malformed? ==> res == Response(500, CannotDelete, NoData) && Untouched()
      ensures arg.Cast? && arg.id !in old(persons) ==> res == Response(404, DetailsNotFound, NoData) && Untouched()
      ensures arg.Cast? && arg.id in old(persons) ==>
                persons == old(persons) - {arg.id} && res == Response(200, Deleted, NoData)
    {
      match arg
      case Malformed =>
        res := Response(500, CannotDelete, NoData);
      case Cast(id) =>
        if id !in persons {
          return Response(404, DetailsNotFound, NoData);
        }
        persons := persons - {id};
        res := Response(200, Deleted, NoData);
    }

    /** POST /create/:personId as written: the new document carries no `vehicleNum`,
        so for a stored person the `required` validator always refuses the insert,
        the handler answers 500 and neither table changes. */
    method CreateVehicle(arg: IdArg, b: VehicleBody) returns (res: Response)
      requires Valid()
      modifies this
      ensures Valid()
      ensures arg.Malformed? ==> res == Response(500, CreateError, NoData) && Untouched()
      ensures arg.Cast? && arg.id !in old(persons) ==> res == Response(404, UserNotFound, NoData) && Untouched()
      ensures arg.Cast? && arg.id in old(persons) ==> res == Response(500, CreateError, NoData) && Untouched()
    {
      match arg
      case Malformed =>
        res := Response(500, CreateError, NoData);
      case Cast(pid) =>
        if pid !in persons {
          return Response(404, UserNotFound, NoData);
        }
        var created := InsertVehicleAndLink(pid, V.VehicleDraft(b.vehicleName, b.vehicleType, Some(pid), None));
        match created
        case None =>
          res := Response(500, CreateError, NoData);
        case Some(c) =>
          res := Response(201, VehicleCreated, OneVehicle(c.0, c.1));
    }

    /** POST /create/:personId with the evidently intended document, which also takes
        `vehicleNum` from the body: for a stored person an accepted vehicle is created,
        its id appended once to that person's `vehicles`, and 201 returned. */
    method CreateVehicleWithNum(arg: IdArg, b: VehicleBody) returns (res: Response)
      requires Valid()
      modifies this
      ensures Valid()
      ensures arg.Malformed? ==> res == Response(500, CreateError, NoData) && Untouched()
      ensures arg.Cast? && arg.id !in old(persons) ==> res == Response(404, UserNotFound, NoData) && Untouched()
      ensures arg.Cast? && arg.id in old(persons) ==>
                var d := V.VehicleDraft(b.vehicleName, b.vehicleType, Some(arg.id), b.vehicleNum);
                if V.AcceptsInsert(old(vehicles), d) then
                  var vid := old(nextId);
                  && nextId == vid + 1
                  && vehicles == old(vehicles)[vid := V.Build(d)]
                  && persons == old(persons)[arg.id := old(persons)[arg.id].(vehicles := old(persons)[arg.id].vehicles + [vid])]
                  && res == Response(201, VehicleCreated, OneVehicle(vid, V.Build(d)))
                else
                  res == Response(500, CreateError, NoData) && Untouched()
    {
      match arg
      case Malformed =>
        res := Response(500, CreateError, NoData);
      case Cast(pid) =>
        if pid !in persons {
          return Response(404, UserNotFound, NoData);
        }
        var created := InsertVehicleAndLink(pid, V.VehicleDraft(b.vehicleName, b.vehicleType, Some(pid), b.vehicleNum));
        match created
        case None =>
          res := Response(500, CreateError, NoData);
        case Some(c) =>
          res := Response(201, VehicleCreated, OneVehicle(c.0, c.1));
    }

    /** GET /api/getVehicle/:id. */
    method GetVehicle(arg: IdArg) returns (res: Response)
      ensures arg.Malformed? ==> res == Response(500, FetchVehicleError, NoData)
      ensures arg.Cast? && arg.id in vehicles ==> res == Response(200, VehicleFound, OneVehicle(arg.id, vehicles[arg.id]))
      ensures arg.Cast? && arg.id !in vehicles ==> res == Response(404, DataNotFound, NoData)
    {
      match arg
      case Malformed =>
        res := Response(500, FetchVehicleError, NoData);
      case Cast(id) =>
        if id in vehicles {
          res := Response(200, VehicleFound, OneVehicle(id, vehicles[id]));
        } else {
          res := Response(404, DataNotFound, NoData);
        }
    }

    /** GET /api/getVechiWithPerson/:id: looks the id up among the persons (unpopulated)
        and answers with the vehicle route's messages. */
    method GetPersonAsVehicle(arg: IdArg) returns (res: Response)
      ensures arg.Malformed? ==> res == Response(500, FetchVehicleError, NoData)
      ensures arg.Cast? && arg.id in persons ==> res == Response(200, VehicleFound, OnePerson(arg.id, persons[arg.id]))
      ensures arg.Cast? && arg.id !in persons ==> res == Response(404, DataNotFound, NoData)
    {
      match arg
      case Malformed =>
        res := Response(500, FetchVehicleError, NoData);
      case Cast(id) =>
        if id in persons {
          res := Response(200, VehicleFound, OnePerson(id, persons[id]));
        } else {
          res := Response(404, DataNotFound, NoData);
        }
    }
  }
}
