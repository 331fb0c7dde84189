/** The alias collection: human-readable names, each bound to one identity. */
module Aliases {
  import opened Wrappers
  import opened Errors
  import opened Collection

  /** One alias document. `owner` is the ObjectId of the identity it belongs to. */
  datatype Alias = Alias(id: Id, name: string, owner: Id, created: int)

  function IdOf(a: Alias): Id { a.id }
  function NameOf(a: Alias): string { a.name }

  /** Schema validation: `name` is required, and a required string may not be empty. */
  function ValidationFailures(a: Alias): (paths: set<string>)
    ensures paths == {} <==> a.name != ""
    ensures paths <= {"name"}
  {
    if a.name == "" then {"name"} else {}
  }

  /** The error `save` reports for `a`, if any: validation first, then a
      failure of the store itself, then the unique index on `name`. */
  function SaveError(rows: seq<Alias>, a: Alias, fault: Option<Error>): (e: Option<Error>)
    ensures e.None? <==> a.name != "" && fault.None? && !Taken(rows, NameOf, a.name)
    ensures a.name == "" ==> e == Some(ValidationError({"name"}))
    ensures a.name != "" && fault.None? && Taken(rows, NameOf, a.name) ==> e == Some(DuplicateKeyError("name_1"))
  {
    if ValidationFailures(a) != {} then Some(ValidationError(ValidationFailures(a)))
    else if fault.Some? then fault
    else if Taken(rows, NameOf, a.name) then Some(DuplicateKeyError("name_1"))
    else None
  }

  /** What holds of the stored collection: every alias has a name, names are
      unique, and ObjectIds are unique and below the next one to be issued. */
  ghost predicate WellFormed(rows: seq<Alias>, nextId: Id) {
    && (forall i :: 0 <= i < |rows| ==> rows[i].name != "" && rows[i].id < nextId)
    && Unique(rows, IdOf)
    && Unique(rows, NameOf)
  }

  /** A successful save keeps the collection well formed. */
  lemma SaveKeepsWellFormed(rows: seq<Alias>, nextId: Id, a: Alias)
    requires WellFormed(rows, nextId) && a.id < nextId && !Taken(rows, IdOf, a.id)
    requires SaveError(rows, a, None).None?
    ensures WellFormed(rows + [a], nextId)
  {
  }

  /** The owner field is not unique: one identity may hold several aliases. */
  lemma OwnerNotUnique(owner: Id)
    ensures WellFormed([Alias(0, "alice", owner, 0), Alias(1, "alice2", owner, 0)], 2)
  {
  }

  class AliasTable {
    var rows: seq<Alias>
    var nextId: Id

    ghost predicate Valid()
      reads this
    {
      WellFormed(rows, nextId)
    }

    constructor ()
      ensures Valid() && rows == [] && nextId == 0
    {
      rows := [];
      nextId := 0;
    }

    /** A fresh ObjectId, as `new Alias(...)` assigns one. */
    method NewId() returns (id: Id)
      requires Valid()
      modifies this
      ensures Valid()
      ensures id == old(nextId) && nextId == id + 1 && rows == old(rows)
      ensures !Taken(rows, IdOf, id)
    {
      id := nextId;
      nextId := nextId + 1;
    }

    /** `alias.save()`: inserts `a` unless validation, the store or the unique
        index on `name` refuses it, in which case nothing changes. */
    method Save(a: Alias, fault: Option<Error>) returns (err: Option<Error>)
      requires Valid()
      requires a.id < nextId && !Taken(rows, IdOf, a.id)
      modifies this
      ensures Valid()
      ensures err == SaveError(old(rows), a, fault)
      ensures err.None? ==> rows == old(rows) + [a]
      ensures err.Some? ==> rows == old(rows)
      ensures nextId == old(nextId)
    {
      err := SaveError(rows, a, fault);
      if err.None? {
        SaveKeepsWellFormed(rows, nextId, a);
        rows := rows + [a];
      }
    }

    /** `alias.remove()` on the document at index `i`. */
    method Remove(i: nat, fault: Option<Error>) returns (err: Option<Error>)
      requires Valid() && i < |rows|
      modifies this
      ensures Valid()
      ensures err == fault
      ensures err.None? ==> rows == RemoveAt(old(rows), i)
      ensures err.Some? ==> rows == old(rows)
      ensures nextId == old(nextId)
    {
      err := fault;
      if fault.None? {
        UniqueRemoveAt(rows, IdOf, i);
        UniqueRemoveAt(rows, NameOf, i);
        rows := RemoveAt(rows, i);
      }
    }
  }
}
