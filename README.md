# Person and vehicle registry: a Dafny model of the request handlers

The system is a small HTTP API over a document store with two collections,
"persons" and "vehicles". A person has a `userName`, a unique `emailId` and a
`vehicles` list of vehicle ids; a vehicle has a `vehicleName`, a `vehicleType`, an
owner `personId` and a unique `vehicleNum`. The handlers in `index.js` create a
person together with a first vehicle, list, read, update and delete persons, add a
vehicle to a person and read single records. The two schemas in `models/`
define the records and what the store refuses on a write.

The model keeps the handlers' own form:

- `common.dfy` (`Common`): ids, optional body fields, the `:id` route parameter and
  the "present" test (absent or "" fails) that both the handler's truthiness check
  and the schemas' `required` validator apply to strings.
- `person_schema.dfy` (`PersonSchema`) and `vehicle_schema.dfy` (`VehicleSchema`):
  the records as datatypes, the validators as predicates over a draft document (the
  paths a writer supplies), the unique indexes as predicates over the stored table,
  the `vehicleType` default as a function, and lemmas that an accepted write keeps
  the unique indexes intact.
- `api.dfy` (`Api`): the `Store` class holds `persons: map<Id, Person>`,
  `vehicles: map<Id, Vehicle>` and a fresh-id counter. `InsertPerson` and
  `InsertVehicle` are the store's `save()`; `InsertVehicleAndLink` is the
  save-push-save sequence of the vehicle route. Each route is one method. It returns
  the status, the message branch and the payload. It changes the maps in the
  handler's order, with no rollback. `Valid()` is what the schemas and unique
  indexes guarantee. It holds after every route. References between the tables are
  not part of it, because the source does not maintain them: a PUT may write any
  `vehicles` list (`Scenarios.UpdateBreaksLinks`). `links.dfy` shows which
  routes keep a person's list in agreement with the vehicles' `personId`.
- `links.dfy` (`Links`): the agreement between a person's `vehicles` list and the
  vehicles' `personId`. Lemmas over the tables, and one method per writing route
  proving that the route keeps the agreement (PUT only without a `vehicles` path).
- `scenarios.dfy` (`Scenarios`): request sequences on a fresh store with their
  answers, proved from the route contracts and the model's lemmas. `StoreWithA` and `StoreWithAB`
  are the shared opening requests.

Modelling decisions:

- Ids are natural numbers from one counter shared by both tables, so a person id
  is never a vehicle id. The constructor starts the counter at 0, which lets the
  scenarios name ids.
- A `:id` parameter that is not a well-formed ObjectId (`IdArg.Malformed`) makes
  `findById` throw; every handler's `catch` turns that into 500, not 404.
- PUT `/api/person/:id` (`findByIdAndUpdate` with `runValidators`): the validators
  of the supplied paths run before the query, so an explicitly empty `userName` or
  `emailId` gives 500 even for an absent id. A valid patch on an absent id gives
  404. A new email held by another person clashes with the unique index and gives
  500.
- In POST `/api/person` the person's save cannot fail once the three checks have
  passed: the fields are non-empty and the email is free. The `catch` branch after
  it is kept but unreachable. Requests are atomic with respect to each other.
- GET `/api/person` always takes the "Success.." branch: `find()` yields an array,
  and an array is always truthy, so the "No user found" branch at index.js:71 is
  unreachable. The `NoUserFound` message is never produced.
- `populate` drops ids with no vehicle behind them and keeps list order (`Populate`).
  Query results are returned as maps keyed by id, so result order is not modelled.
- In four places the code does not do what its routes suggest. The model follows
  the code in each:
  - A malformed id reads like an unknown one, but the cast error is caught and
    answered with 500, never 404.
  - The allow-list at index.js:31 looks like a case-insensitive check. It is an
    exact comparison against eleven literals.
  - An allow-listed type does not always succeed when the other fields are valid.
    The seven case variants such as `bike` pass index.js:31, are refused by the
    schema's four-value enum (models/vehicleData.js:10), and end in the 500 of
    index.js:57-59. The person saved before that stays stored
    (`Scenarios.CaseVariantLeavesPerson`).
  - The vehicle route is written to answer 201, but it cannot succeed (see Findings).

## Model

| member | source | states |
|---|---|---|
| `Api.Store.AddPerson` | index.js:17-61 | The checks run in source order. A missing or empty field gives 400. A stored email then gives 409, whatever the type. A type outside the 11-entry allow-list then gives 400. In all three cases nothing changes. Otherwise exactly one person is added under a fresh id, with an empty `vehicles` list. A vehicle the schema accepts is then added with that person as owner, with 200. A refused vehicle gives 500 and leaves the person stored. |
| `Api.Store.InsertPerson` | models/personData.js:3-19 | A person insert is accepted exactly when `userName` and `emailId` are present and no stored person holds the email. It is then stored under a fresh id, with `vehicles` empty unless supplied. The vehicle table is untouched and the invariant holds. |
| `Api.Store.InsertVehicle` | models/vehicleData.js:3-23 | A vehicle insert is accepted exactly when name, owner and number are present, the type is absent or one of the four enum literals, and the number is not already stored. It is then stored under a fresh id with the defaulted type. The person table is untouched. |
| `Api.Store.InsertVehicleAndLink` | index.js:151-155 | The vehicle insert comes before the push. A refused insert changes nothing. An accepted one stores the vehicle and appends its id exactly once to the end of the owner's `vehicles`. Nothing else changes. |
| `Api.Store.ListPersons` | index.js:64-77 | Always 200 "Success..", even on an empty table. Every stored person appears, with its vehicle ids populated. State is unchanged. |
| `Api.Store.GetPerson` | index.js:80-99 | A malformed id gives 500 and an absent id gives 404. Otherwise 200, with the populated person and every stored vehicle whose `personId` is the id. State is unchanged. |
| `Api.Store.UpdatePerson` | index.js:102-115 | A malformed id or an explicitly empty required path gives 500. A valid patch on an absent id gives 404. A new email held by another person gives 500. In these cases nothing changes. Otherwise the supplied paths are merged into the record, and 200 returns that new record. The vehicle table is never touched. |
| `Api.Store.DeletePerson` | index.js:121-135 | A malformed id gives 500 and an absent id gives 404, both with no change. Otherwise only that person is removed, with 200. The vehicle table is untouched, so nothing cascades. |
| `Api.Store.CreateVehicle` | index.js:141-162 | A malformed id gives 500 and an unknown person gives 404. For a stored person the document lacks `vehicleNum`, so the answer is always 500. No vehicle is created in any of these cases, and both tables stay as they were. |
| `Api.Store.CreateVehicleWithNum` | index.js:141-162 | The corrected route also reads `vehicleNum`. An insert the schema accepts creates the vehicle and appends its id once to the person's list, with 201. A refused insert gives 500 with no change. 404 and 500 for unknown and malformed ids are as before. |
| `Api.Store.GetVehicle` | index.js:167-180 | 200 with the stored vehicle when the id is a vehicle. 404 when it is not and 500 when it is malformed. |
| `Api.Store.GetPersonAsVehicle` | index.js:185-198 | Looks the id up among persons and uses the vehicle route's messages. 200 returns the unpopulated person, otherwise 404, or 500 when malformed. |
| `Api.MissingField` | index.js:21-23 | Definition with no contract: one of the five body fields is absent or empty. `Api.Store.AddPerson` ties it to the 400 answer with no change. |
| `Api.PassesHandlerChecks` | index.js:21-34 | Definition with no contract: the body gets past all three checks, in source order. It is characterised by `Api.HandlerChecksAdmitPerson`, by `Api.HandlerChecksRefuseOnlyCaseVariants` and by the success branch of `Api.Store.AddPerson`. |
| `Api.HandlerChecksAdmitPerson` | index.js:21-41 | A body past the three checks always makes a person document the schema accepts, so the person's save cannot fail. |
| `Api.VehicleDraftOf` | index.js:43-48 | The vehicle document always names the new person as owner. For a body with no missing field, it passes the schema's validators exactly when the type is one of the four enum literals. |
| `Api.HandlerChecksRefuseOnlyCaseVariants` | index.js:31-50 | After the handler's checks, the schema's validators refuse the vehicle document exactly when the type is one of the seven case variants. The unique index on `vehicleNum` can still refuse it (`Scenarios.DuplicateNumLeavesPerson`). |
| `Api.EnumWithinAllowList` | index.js:31 | Every value of the schema's enum is on the handler's allow-list. |
| `Api.AllowListMinusEnum` | index.js:31-32 | A type passes the handler but fails the schema exactly when it is one of `Bike`, `bike`, `E-bike`, `e-bike`, `car`, `Car`, `e-car`. |
| `Api.Populate` | index.js:67 | The populated list is never longer than the id list. |
| `Api.PopulateMembers` | index.js:85 | An entry (id, vehicle) is in the populated list exactly when the id is listed and the vehicle is the one stored under it. |
| `Api.PopulateTotal` | index.js:85 | When every listed id is stored, populating keeps the list's length and order, entry by entry. |
| `Api.PopulateAppend` | index.js:154 | Populating a list after a push gives the earlier populated list followed by one entry for the pushed id when a vehicle is stored under it, and by nothing otherwise. |
| `Api.PopulatePerson` | index.js:85 | Definition with no contract: `findById(id).populate('vehicles')`, also used per person at index.js:67. It keeps the name and email and populates the id list with `Api.Populate`. It is characterised by `Api.PopulateMembers`, `Api.PopulateTotal` and `Api.PopulatePersonPush`. |
| `Api.PopulatePersonPush` | index.js:154 | After the id of a stored vehicle is pushed, the populated person keeps its name and email and lists that vehicle at the end, after everything it listed before. |
| `Api.OwnedBy` | index.js:89 | Definition with no contract: `Vehicle.find({ personId: id })`, the stored vehicles whose owner field is the id. `Api.Store.GetPerson` states it as an if-and-only-if. It is characterised by `Api.OwnedByInsert`, `Api.OwnedByDisjoint` and `Links.PopulatedAreOwned`. |
| `Api.OwnedByInsert` | index.js:89 | Saving a vehicle under a fresh id adds exactly that entry to its owner's `personId` query result and leaves every other owner's result unchanged. |
| `Api.OwnedByDisjoint` | index.js:89 | The `personId` query results of two different owners never share a vehicle. |
| `Links.LinksSoundNewPerson` | index.js:36-41 | Storing a person with an empty `vehicles` list under the next fresh id keeps every person's list in agreement with the vehicles' `personId`. |
| `Links.LinksSoundMerge` | index.js:106 | An update that supplies no `vehicles` path keeps the lists in agreement with the owners. |
| `Links.LinksSoundRemove` | index.js:129 | Removing a person keeps the other lists in agreement with the owners. |
| `Links.LinksSoundNewVehicle` | index.js:151-152 | Storing a vehicle under the next fresh id keeps the lists in agreement, since no list names an id not yet handed out. |
| `Links.LinksSoundAppend` | index.js:154-155 | Pushing onto a person's list the id of a vehicle that person owns keeps the lists in agreement with the owners. |
| `Links.PopulatedAreOwned` | index.js:85-91 | While the lists agree with the owners, every entry of GetPerson's populated list is also returned, with the same record, by the query on `personId`. |
| `Links.AddPersonKeepsLinks` | index.js:36-50 | POST `/api/person` keeps every person's list in agreement with the vehicles' `personId`, together with `Valid()`. |
| `Links.UpdatePersonKeepsLinks` | index.js:106 | PUT `/api/person/:id` with no `vehicles` path keeps the lists in agreement. |
| `Links.DeletePersonKeepsLinks` | index.js:125-130 | DELETE `/api/delete/:id` keeps the remaining lists in agreement. |
| `Links.CreateVehicleKeepsLinks` | index.js:141-162 | The vehicle route as written keeps the lists in agreement, since it changes nothing. |
| `Links.CreateVehicleWithNumKeepsLinks` | index.js:151-155 | The corrected vehicle route keeps the lists in agreement: the vehicle is saved naming the person, then its id is pushed onto that person's list. |
| `PersonSchema.Build` | models/personData.js:3-19 | A document built from a draft that passes the validators has both required paths. Its `vehicles` is empty when not supplied. |
| `PersonSchema.Merge` | index.js:106 | The `$set` of an update. Each supplied path (`userName`, `emailId`, `vehicles`) becomes the stored value, and each path not supplied keeps its value. Merging a patch that passes the update validators into a well-formed record gives a well-formed record. |
| `PersonSchema.MergeIdempotent` | index.js:106 | Applying the same update twice equals applying it once. |
| `PersonSchema.MergeNothing` | index.js:106 | An empty update leaves the record unchanged. |
| `PersonSchema.InsertKeepsEmailsUnique` | models/personData.js:8-12 | An accepted insert under a fresh id keeps emails unique. |
| `PersonSchema.ReplaceKeepsEmailsUnique` | models/personData.js:8-12 | Replacing a record by one whose email no other person holds keeps emails unique. |
| `PersonSchema.OwnEmailNotHeldByOther` | models/personData.js:8-12 | With unique emails, no other person holds a stored person's own email. So re-saving the person at index.js:155 never clashes. |
| `VehicleSchema.EffectiveType` | models/vehicleData.js:8-12 | The stored type is in the four-value enum exactly when the enum validator accepts. An absent type becomes the default `BIKE`. A supplied value is kept as given. |
| `VehicleSchema.Build` | models/vehicleData.js:3-23 | A document built from a draft that passes the validators passes every validator of the schema. Its owner is the supplied `personId`. |
| `VehicleSchema.InsertKeepsNumsUnique` | models/vehicleData.js:18-22 | An accepted insert under a fresh id keeps vehicle numbers unique. |
| `VehicleSchema.NoNumNoInsert` | models/vehicleData.js:18-22 | A draft without `vehicleNum` is never accepted. |
| `Scenarios.CreateThenRepeat` | index.js:17-61 | Create A/a@x.com/CAR/Sedan/N1 gives 200. The vehicle's owner is the new person and the person's list is empty. Repeating the body gives 409. |
| `Scenarios.DuplicateEmailBeforeTypeCheck` | index.js:25-34 | A stored email together with a type outside the allow-list gives 409, not 400. |
| `Scenarios.CaseVariantLeavesPerson` | index.js:31-59 | Type `bike` gives 500. The person stays readable, with no vehicle. |
| `Scenarios.DuplicateNumLeavesPerson` | index.js:41-59 | A second person with an already stored `vehicleNum` gives 500. That person stays readable, with no vehicle. |
| `Scenarios.CreatedVehicleIsNotListed` | index.js:36-56 | After a successful create, the populated `vehicles` is empty. The `personId` query still finds the new vehicle. |
| `Scenarios.AddVehicleAsWritten` | index.js:141-162 | A complete body for a stored person gives 500. The person's list stays empty. |
| `Scenarios.AddVehicleCorrected` | index.js:141-162 | With the corrected route the same request gives 201. The next read lists the new vehicle in the person's `vehicles`. |
| `Scenarios.DeleteKeepsVehicles` | index.js:121-135 | After a delete the person reads 404. Its vehicle still reads 200, still naming the deleted owner. |
| `Scenarios.RenameReadBack` | index.js:80-110 | A PUT that renames A gives 200 with the new record. The next read shows the new name, with the email unchanged. |
| `Scenarios.UpdateClashAndMalformed` | index.js:102-135 | Moving a person onto another person's email gives 500. A malformed id on delete gives 500, not 404. |
| `Scenarios.UpdateBreaksLinks` | index.js:85-110 | A PUT that sets B's `vehicles` to A's vehicle gives 200. B's populated list then shows a vehicle owned by A, which the `personId` query for B does not return. |

## Left out

- Express setup, body parsing and the `/` liveness route: HTTP plumbing.
- `mongoose.connect` and `app.listen`: process start-up and I/O.
- `console.log` and `console.error` calls: logging.
- JSON body shapes and message texts beyond the status, the message branch and the payload records: transport formatting.
- Concurrent requests: the check-then-save race between `findOne` and `save` is not modelled. Each request is atomic.
- ObjectId generation, the internals of `populate` and cast-error details: library behaviour. The model uses a counter for ids, a lookup function for `populate`, and a single malformed-id case.
- PUT bodies with update operators or an `_id` key: `PersonDraft` holds only the three schema paths, so this input cannot be written. index.js:106 hands `req.body` straight to `findByIdAndUpdate`. There, `{"$unset": {"userName": 1}}` fails `required` and gives 500, `{"$push": {"vehicles": id}}` appends, and a changed `_id` is refused as immutable and gives 500.
- PUT bodies whose `vehicles` entries are not ObjectIds: `PersonDraft.vehicles` is a list of ids, so this input cannot be written. In the source such a body raises a cast error, which gives 500 with no change, like a malformed `:id`.
- Body values that are not strings (numbers, objects, `null`): only absent, empty and non-empty strings are modelled.
- The order of query results (`find()`, `find({ personId })`): results are maps keyed by id.
- Store failures other than validation and the unique indexes (network, disk): they are outside the program.

## Findings

| source | as written | input that shows it | evidently intended | confidence | as-written member | corrected member |
|---|---|---|---|---|---|---|
| index.js:151 | The new vehicle document gets only `vehicleName`, `vehicleType` and `personId`. `vehicleNum` is required by the schema, so every save fails and the route answers 500 for every stored person (`Scenarios.AddVehicleAsWritten`). | POST `/create/<id of a stored person>` with body `{vehicleName: "Bike1", vehicleType: "BIKE", vehicleNum: "N2"}` | Take `vehicleNum` from the body too. The route then answers 201, stores the vehicle and appends its id once to the person's `vehicles` (`Scenarios.AddVehicleCorrected`). A body without `vehicleNum`, such as `{vehicleName: "Bike1", vehicleType: "BIKE"}`, still gives 500, because models/vehicleData.js:18-21 requires that path (`VehicleSchema.NoNumNoInsert`). | not executed; high | `Api.Store.CreateVehicle` | `Api.Store.CreateVehicleWithNum` |
