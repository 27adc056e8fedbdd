/** The Person record (models/personData.js) and what the store checks when a
    person document is inserted or updated. */
module PersonSchema {
  import opened Common

  /** A stored person. `vehicles` holds vehicle ids in the order they were pushed. */
  datatype Person = Person(userName: string, emailId: string, vehicles: seq<Id>)

  /** The paths a writer supplies for a person document; `None` is a path that is
      not supplied (on an insert it takes its default, on an update it is left alone). */
  datatype PersonDraft = PersonDraft(userName: Option<string>, emailId: Option<string>, vehicles: Option<seq<Id>>)

  /** A stored person passes both `required` validators. */
  predicate WellFormed(p: Person)
  {
    p.userName != "" && p.emailId != ""
  }

  /** The unique index on `emailId`: no two stored persons share an email. */
  predicate EmailsUnique(persons: map<Id, Person>)
  {
    forall i, j :: i in persons && j in persons && i != j ==> persons[i].emailId != persons[j].emailId
  }

  /** Some stored person other than `self` holds `email`. */
  predicate EmailHeldByOther(persons: map<Id, Person>, email: string, self: Option<Id>)
  {
    exists j :: j in persons && Some(j) != self && persons[j].emailId == email
  }

  /** The validators run on a new document: `userName` and `emailId` are required. */
  predicate PassesInsertValidators(d: PersonDraft)
  {
    Present(d.userName) && Present(d.emailId)
  }

  /** An insert is accepted when the validators pass and the unique index does not clash. */
  predicate AcceptsInsert(persons: map<Id, Person>, d: PersonDraft)
  {
    PassesInsertValidators(d) && !EmailHeldByOther(persons, d.emailId.value, None)
  }

  /** The document an accepted insert writes; an unsupplied `vehicles` array starts empty. */
  function Build(d: PersonDraft): (p: Person)
    requires PassesInsertValidators(d)
    ensures WellFormed(p)
    ensures d.vehicles.None? ==> p.vehicles == []
  {
    Person(d.userName.value, d.emailId.value, if d.vehicles.Some? then d.vehicles.value else [])
  }

  /** The validators an update runs (`runValidators`): only the supplied paths are
      checked, so `required` fails only on a path explicitly set to "". */
  predicate PassesUpdateValidators(d: PersonDraft)
  {
    (d.userName.Some? ==> d.userName.value != "") && (d.emailId.Some? ==> d.emailId.value != "")
  }

  /** The record after an update (`$set`): each supplied path replaces the stored
      value and each path not supplied keeps it. */
  function Merge(p: Person, d: PersonDraft): (r: Person)
    ensures WellFormed(p) && PassesUpdateValidators(d) ==> WellFormed(r)
    ensures d.userName.Some? ==> r.userName == d.userName.value
    ensures d.userName.None? ==> r.userName == p.userName
    ensures d.emailId.Some? ==> r.emailId == d.emailId.value
    ensures d.emailId.None? ==> r.emailId == p.emailId
    ensures d.vehicles.Some? ==> r.vehicles == d.vehicles.value
    ensures d.vehicles.None? ==> r.vehicles == p.vehicles
  {
    Person(if d.userName.Some? then d.userName.value else p.userName,
           if d.emailId.Some? then d.emailId.value else p.emailId,
           if d.vehicles.Some? then d.vehicles.value else p.vehicles)
  }

  /** Applying the same update twice is the same as applying it once. */
  lemma MergeIdempotent(p: Person, d: PersonDraft)
    ensures Merge(Merge(p, d), d) == Merge(p, d)
  {
  }

  /** An update that supplies nothing leaves the record as it was. */
  lemma MergeNothing(p: Person)
    ensures Merge(p, PersonDraft(None, None, None)) == p
  {
  }

  /** An accepted insert under a fresh id keeps emails unique. */
  lemma InsertKeepsEmailsUnique(persons: map<Id, Person>, id: Id, d: PersonDraft)
    requires EmailsUnique(persons) && id !in persons && AcceptsInsert(persons, d)
    ensures EmailsUnique(persons[id := Build(d)])
  {
  }

  /** Replacing one record by one whose email no other person holds keeps emails unique. */
  lemma ReplaceKeepsEmailsUnique(persons: map<Id, Person>, id: Id, p: Person)
    requires EmailsUnique(persons) && id in persons && !EmailHeldByOther(persons, p.emailId, Some(id))
    ensures EmailsUnique(persons[id := p])
  {
  }

  /** When emails are unique, a stored person's own email is held by no other person,
      so an update that keeps the email never clashes with the index. */
  lemma OwnEmailNotHeldByOther(persons: map<Id, Person>, id: Id)
    requires EmailsUnique(persons) && id in persons
    ensures !EmailHeldByOther(persons, persons[id].emailId, Some(id))
  {
  }
}
