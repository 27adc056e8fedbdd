/** The back-references between the tables: a person's `vehicles` list against the
    `personId` of the vehicles it names. The source never checks them and PUT may
    write any list, so they are not part of `Store.Valid()`. This module states which
    routes keep them in agreement. */
module Links {
  import opened Common
  import opened Api
  import P = PersonSchema
  import V = VehicleSchema

  /** One person's list agrees with the owner fields: every listed id has already
      been handed out (`< bound`), and a vehicle stored under it names `owner`. */
  predicate ListSound(ids: seq<Id>, vehicles: map<Id, V.Vehicle>, bound: Id, owner: Id)
  {
    forall k :: 0 <= k < |ids| ==> ids[k] < bound && (ids[k] in vehicles ==> vehicles[ids[k]].personId == owner)
  }

  /** The back-references agree with the owner fields for every person. No route
      needs this to hold; the routes that write no `vehicles` path keep it. */
  predicate LinksSound(persons: map<Id, P.Person>, vehicles: map<Id, V.Vehicle>, bound: Id)
  {
    forall p :: p in persons ==> ListSound(persons[p].vehicles, vehicles, bound, p)
  }

  /** POST /api/person and `new Person(d).save()` without a `vehicles` path: storing a
      person with an empty list under the next fresh id keeps the links sound. */
  lemma LinksSoundNewPerson(persons: map<Id, P.Person>, vehicles: map<Id, V.Vehicle>, bound: Id, p: P.Person)
    requires LinksSound(persons, vehicles, bound) && p.vehicles == []
    ensures LinksSound(persons[bound := p], vehicles, bound + 1)
  {
  }

  /** PUT without a `vehicles` path leaves the person's list, so the links stay sound. */
  lemma LinksSoundMerge(persons: map<Id, P.Person>, vehicles: map<Id, V.Vehicle>, bound: Id, id: Id, d: P.PersonDraft)
    requires LinksSound(persons, vehicles, bound) && id in persons && d.vehicles.None?
    ensures LinksSound(persons[id := P.Merge(persons[id], d)], vehicles, bound)
  {
  }

  /** DELETE removes one person; the lists of the others are untouched. */
  lemma LinksSoundRemove(persons: map<Id, P.Person>, vehicles: map<Id, V.Vehicle>, bound: Id, id: Id)
    requires LinksSound(persons, vehicles, bound)
    ensures LinksSound(persons - {id}, vehicles, bound)
  {
  }

  /** Storing a new vehicle under the next fresh id, and advancing the bound, keeps
      the links sound: no list can name an id not yet handed out. */
  lemma LinksSoundNewVehicle(persons: map<Id, P.Person>, vehicles: map<Id, V.Vehicle>, bound: Id, v: V.Vehicle)
    requires LinksSound(persons, vehicles, bound)
    ensures LinksSound(persons, vehicles[bound := v], bound + 1)
  {
  }

  /** Pushing the id of a vehicle that `pid` owns onto `pid`'s list keeps the links sound. */
  lemma LinksSoundAppend(persons: map<Id, P.Person>, vehicles: map<Id, V.Vehicle>, bound: Id, pid: Id, vid: Id)
    requires LinksSound(persons, vehicles, bound) && pid in persons
    requires vid < bound && vid in vehicles && vehicles[vid].personId == pid
    ensures LinksSound(persons[pid := persons[pid].(vehicles := persons[pid].vehicles + [vid])], vehicles, bound)
  {
    var ids := persons[pid].vehicles + [vid];
    assert ListSound(ids, vehicles, bound, pid) by {
      assert forall k :: 0 <= k < |ids| - 1 ==> ids[k] == persons[pid].vehicles[k];
    }
  }

  /** With sound links, each vehicle of GetPerson's populated list is also returned,
      with the same record, by the query on `personId`. The converse does not hold:
      POST /api/person stores an owned vehicle that the person does not list. */
  lemma PopulatedAreOwned(persons: map<Id, P.Person>, vehicles: map<Id, V.Vehicle>, bound: Id, p: Id)
    requires LinksSound(persons, vehicles, bound) && p in persons
    ensures forall e :: e in Populate(persons[p].vehicles, vehicles) ==>
              e.0 in OwnedBy(vehicles, p) && OwnedBy(vehicles, p)[e.0] == e.1
  {
    forall e | e in Populate(persons[p].vehicles, vehicles)
      ensures e.0 in OwnedBy(vehicles, p) && OwnedBy(vehicles, p)[e.0] == e.1
    {
      PopulateMembers(persons[p].vehicles, vehicles, e.0, e.1);
    }
  }

  /** POST /api/person keeps the links sound: the new person starts with an empty
      list, and the new vehicle's id is one no list can name yet. */
  method AddPersonKeepsLinks(s: Store, b: PersonBody) returns (res: Response)
    requires s.Valid() && LinksSound(s.persons, s.vehicles, s.nextId)
    modifies s
    ensures s.Valid() && LinksSound(s.persons, s.vehicles, s.nextId)
  {
    if !PassesHandlerChecks(s.persons, b) {
      res := s.AddPerson(b);
      return;
    }
    ghost var persons0, vehicles0, pid := s.persons, s.vehicles, s.nextId;
    ghost var person := P.Person(b.userName.value, b.emailId.value, []);
    LinksSoundNewPerson(persons0, vehicles0, pid, person);
    if V.AcceptsInsert(vehicles0, VehicleDraftOf(b, pid)) {
      LinksSoundNewVehicle(persons0[pid := person], vehicles0, pid + 1, V.Build(VehicleDraftOf(b, pid)));
    }
    res := s.AddPerson(b);
  }

  /** PUT /api/person/:id keeps the links sound when the body has no `vehicles` path. */
  method UpdatePersonKeepsLinks(s: Store, arg: IdArg, d: P.PersonDraft) returns (res: Response)
    requires s.Valid() && LinksSound(s.persons, s.vehicles, s.nextId) && d.vehicles.None?
    modifies s
    ensures s.Valid() && LinksSound(s.persons, s.vehicles, s.nextId)
  {
    ghost var persons0 := s.persons;
    res := s.UpdatePerson(arg, d);
    if arg.Cast? && P.PassesUpdateValidators(d) && arg.id in persons0 {
      LinksSoundMerge(persons0, s.vehicles, s.nextId, arg.id, d);
    }
  }

  /** DELETE /api/delete/:id keeps the links of the remaining persons sound. */
  method DeletePersonKeepsLinks(s: Store, arg: IdArg) returns (res: Response)
    requires s.Valid() && LinksSound(s.persons, s.vehicles, s.nextId)
    modifies s
    ensures s.Valid() && LinksSound(s.persons, s.vehicles, s.nextId)
  {
    ghost var persons0 := s.persons;
    res := s.DeletePerson(arg);
    if arg.Cast? && arg.id in persons0 {
      LinksSoundRemove(persons0, s.vehicles, s.nextId, arg.id);
    }
  }

  /** POST /create/:personId as written changes nothing, so the links stay sound. */
  method CreateVehicleKeepsLinks(s: Store, arg: IdArg, b: VehicleBody) returns (res: Response)
    requires s.Valid() && LinksSound(s.persons, s.vehicles, s.nextId)
    modifies s
    ensures s.Valid() && LinksSound(s.persons, s.vehicles, s.nextId)
  {
    res := s.CreateVehicle(arg, b);
  }

  /** The corrected POST /create/:personId keeps the links sound: the vehicle is saved
      under a fresh id naming the person, and only then is that id pushed onto the
      same person's list. */
  method CreateVehicleWithNumKeepsLinks(s: Store, arg: IdArg, b: VehicleBody) returns (res: Response)
    requires s.Valid() && LinksSound(s.persons, s.vehicles, s.nextId)
    modifies s
    ensures s.Valid() && LinksSound(s.persons, s.vehicles, s.nextId)
  {
    ghost var persons0, vehicles0, vid := s.persons, s.vehicles, s.nextId;
    res := s.CreateVehicleWithNum(arg, b);
    if arg.Cast? && arg.id in persons0 {
      var d := V.VehicleDraft(b.vehicleName, b.vehicleType, Some(arg.id), b.vehicleNum);
      if V.AcceptsInsert(vehicles0, d) {
        LinksSoundNewVehicle(persons0, vehicles0, vid, V.Build(d));
        LinksSoundAppend(persons0, s.vehicles, vid + 1, arg.id, vid);
      }
    }
  }
}
