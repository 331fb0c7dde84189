/** The identity collection and the operations of an identity: registering a
    public key, and adding or removing the identity's aliases. */
module Identities {
  import opened Wrappers
  import opened Errors
  import opened Collection
  import Aliases

  /** A key object as the OpenPGP library returns it; the model never looks inside. */
  datatype Key = Key(packet: string)

  /** What the OpenPGP library's `key.readArmored` reports: its errors and the keys it read. */
  datatype Imported = Imported(err: seq<Error>, keys: seq<Key>)

  /** One identity document. Times are milliseconds since the epoch. */
  datatype Identity = Identity(id: Id, pubkey: string, pubkeyhash: string, lastNonce: int, registered: int)

  function IdOf(r: Identity): Id { r.id }
  function PubkeyOf(r: Identity): string { r.pubkey }
  function PubkeyHashOf(r: Identity): string { r.pubkeyhash }

  /** What a SHA-1 digest in hex looks like: 40 lower-case hex digits. */
  predicate IsSha1Hex(s: string) {
    |s| == 40 && forall i :: 0 <= i < |s| ==> s[i] in "0123456789abcdef"
  }

  /** The document `new Identity({ pubkey, pubkeyhash })` builds: `lastNonce`
      and `registered` take their schema defaults. */
  function NewIdentity(id: Id, pubkey: string, pubkeyhash: string, now: int): (r: Identity)
    ensures r.lastNonce == 0 && r.registered == now
    ensures r.id == id && r.pubkey == pubkey && r.pubkeyhash == pubkeyhash
  {
    Identity(id, pubkey, pubkeyhash, 0, now)
  }

  /** Schema validation: both `pubkey` and `pubkeyhash` are required strings. */
  function ValidationFailures(r: Identity): (paths: set<string>)
    ensures paths == {} <==> r.pubkey != "" && r.pubkeyhash != ""
    ensures "pubkey" in paths <==> r.pubkey == ""
    ensures "pubkeyhash" in paths <==> r.pubkeyhash == ""
    ensures paths <= {"pubkey", "pubkeyhash"}
  {
    (if r.pubkey == "" then {"pubkey"} else {}) + (if r.pubkeyhash == "" then {"pubkeyhash"} else {})
  }

  /** The error `save` reports for `r`, if any: validation first, then a
      failure of the store, then the unique indexes on `pubkey` and `pubkeyhash`. */
  function SaveError(rows: seq<Identity>, r: Identity, fault: Option<Error>): (e: Option<Error>)
    ensures e.None? <==>
      && ValidationFailures(r) == {} && fault.None?
      && !Taken(rows, PubkeyOf, r.pubkey) && !Taken(rows, PubkeyHashOf, r.pubkeyhash)
    ensures ValidationFailures(r) == {} && fault.None? && Taken(rows, PubkeyOf, r.pubkey) ==>
      e == Some(DuplicateKeyError("pubkey_1"))
  {
    if ValidationFailures(r) != {} then Some(ValidationError(ValidationFailures(r)))
    else if fault.Some? then fault
    else if Taken(rows, PubkeyOf, r.pubkey) then Some(DuplicateKeyError("pubkey_1"))
    else if Taken(rows, PubkeyHashOf, r.pubkeyhash) then Some(DuplicateKeyError("pubkeyhash_1"))
    else None
  }

  /** What holds of the stored collection: every `pubkeyhash` is the digest of
      its own `pubkey`, and ObjectIds, keys and digests are each unique. */
  ghost predicate WellFormed(rows: seq<Identity>, nextId: Id, sha1Hex: string -> string) {
    && (forall i :: 0 <= i < |rows| ==>
          rows[i].id < nextId && rows[i].pubkeyhash == sha1Hex(rows[i].pubkey) && ValidationFailures(rows[i]) == {})
    && Unique(rows, IdOf)
    && Unique(rows, PubkeyOf)
    && Unique(rows, PubkeyHashOf)
  }

  /** A successful save keeps the collection well formed. */
  lemma SaveKeepsWellFormed(rows: seq<Identity>, nextId: Id, sha1Hex: string -> string, r: Identity)
    requires WellFormed(rows, nextId, sha1Hex) && r.id < nextId && !Taken(rows, IdOf, r.id)
    requires r.pubkeyhash == sha1Hex(r.pubkey)
    requires SaveError(rows, r, None).None?
    ensures WellFormed(rows + [r], nextId, sha1Hex)
  {
  }

  /** Registration is not idempotent: once a key is stored, saving it again is
      refused by the unique index on `pubkey` and the collection stays as it is. */
  lemma RegisteredKeyRefused(rows: seq<Identity>, r: Identity, again: Identity)
    requires r in rows && again.pubkey == r.pubkey && ValidationFailures(again) == {}
    ensures SaveError(rows, again, None) == Some(DuplicateKeyError("pubkey_1"))
  {
  }

  /** Since the digest is a function of the key text, equal keys give equal
      digests, and a unique digest index already makes the keys unique. */
  lemma UniqueHashGivesUniqueKey(rows: seq<Identity>, sha1Hex: string -> string)
    requires forall i :: 0 <= i < |rows| ==> rows[i].pubkeyhash == sha1Hex(rows[i].pubkey)
    requires Unique(rows, PubkeyHashOf)
    ensures Unique(rows, PubkeyOf)
  {
  }

  /** How a call of `Identity.create` ends: its callback is answered, or an
      exception is thrown before any callback runs. */
  datatype CreateEnd = Answered(result: Result<Identity, Error>) | Thrown(error: Error)

  /** `Identity.create` as written: after a successful parse it applies `new`
      to the schema object of line 16 (the model is never bound to a local
      name), which throws, so no key can ever be registered. */
  function CreateAsWritten(imported: Imported): (r: CreateEnd)
    ensures |imported.err| > 0 ==> r == Answered(Err(imported.err[0]))
    ensures r.Thrown? <==> |imported.err| == 0 && |imported.keys| > 0
  {
    if |imported.err| > 0 then Answered(Err(imported.err[0]))
    else if |imported.keys| == 0 then Answered(Err(PlainError("Failed to load key")))
    else Thrown(TypeError("Identity is not a constructor"))
  }

  /** As written, every key block that parses to at least one key throws,
      and no call ever answers with a registered identity. */
  lemma AsWrittenNeverRegisters(imported: Imported)
    ensures |imported.err| == 0 && |imported.keys| > 0 ==> CreateAsWritten(imported).Thrown?
    ensures CreateAsWritten(imported).Answered? ==> CreateAsWritten(imported).result.Err?
  {
  }

  class IdentityTable {
    /** The OpenPGP library's `key.readArmored`. */
    const readArmored: string -> Imported
    /** `crypto.createHash('sha1').update(text).digest('hex')`. */
    const sha1Hex: string -> string
    var rows: seq<Identity>
    var nextId: Id

    ghost predicate Valid()
      reads this
    {
      && (forall s :: IsSha1Hex(sha1Hex(s)))
      && WellFormed(rows, nextId, sha1Hex)
    }

    constructor (readArmored: string -> Imported, sha1Hex: string -> string)
      requires forall s :: IsSha1Hex(sha1Hex(s))
      ensures Valid() && rows == [] && nextId == 0
      ensures this.readArmored == readArmored && this.sha1Hex == sha1Hex
    {
      this.readArmored := readArmored;
      this.sha1Hex := sha1Hex;
      rows := [];
      nextId := 0;
    }

    /** `Identity.create(pubkey)`: parse the armored key, derive the digest of
        the armored text, build the document and save it. `now` is the clock
        and `saveFault` a failure of the store during the save, if any. */
    method Create(pubkey: string, now: int, saveFault: Option<Error>) returns (r: Result<Identity, Error>)
      requires Valid()
      modifies this
      ensures Valid()
      ensures r.Err? ==> rows == old(rows)
      // the parser's first error, before anything else is done
      ensures |readArmored(pubkey).err| > 0 ==>
        r == Err(readArmored(pubkey).err[0]) && nextId == old(nextId)
      // a key block that parses without errors but holds no key
      ensures |readArmored(pubkey).err| == 0 && |readArmored(pubkey).keys| == 0 ==>
        r == Err(PlainError("Failed to load key")) && nextId == old(nextId)
      // the document is built and handed to save
      ensures |readArmored(pubkey).err| == 0 && |readArmored(pubkey).keys| > 0 ==>
        var record := NewIdentity(old(nextId), pubkey, sha1Hex(pubkey), now);
        && nextId == old(nextId) + 1
        && (SaveError(old(rows), record, saveFault).Some? ==> r == Err(SaveError(old(rows), record, saveFault).value))
        && (SaveError(old(rows), record, saveFault).None? ==> r == Ok(record) && rows == old(rows) + [record])
    {
      var imported := readArmored(pubkey);
      if |imported.err| > 0 {
        return Err(imported.err[0]);
      }
      if |imported.keys| == 0 {
        return Err(PlainError("Failed to load key"));
      }
      var pubkeyhash := sha1Hex(pubkey);
      var id := nextId;
      nextId := nextId + 1;
      var identity := NewIdentity(id, pubkey, pubkeyhash, now);
      var err := SaveError(rows, identity, saveFault);
      if err.Some? {
        return Err(err.value);
      }
      SaveKeepsWellFormed(rows, nextId, sha1Hex, identity);
      rows := rows + [identity];
      r := Ok(identity);
    }
  }

  /** Registering the same key twice with the store working: the second call
      is refused with the duplicate-key error and stores nothing. */
  method RegisterTwice(table: IdentityTable, pubkey: string, now: int, later: int)
    returns (first: Result<Identity, Error>, second: Result<Identity, Error>)
    requires table.Valid()
    modifies table
    ensures first.Ok? ==> second == Err(DuplicateKeyError("pubkey_1")) && table.rows == old(table.rows) + [first.value]
  {
    first := table.Create(pubkey, now, None);
    if first.Ok? {
      RegisteredKeyRefused(table.rows, first.value, NewIdentity(table.nextId, pubkey, table.sha1Hex(pubkey), later));
    }
    second := table.Create(pubkey, later, None);
  }

  /** `identity.addAlias(name)`: builds an alias owned by `self` and saves it;
      the error of the save, if any, is returned and no alias is added. */
  method AddAlias(self: Identity, aliases: Aliases.AliasTable, name: string, now: int, saveFault: Option<Error>)
    returns (r: Result<Aliases.Alias, Error>)
    requires aliases.Valid()
    modifies aliases
    ensures aliases.Valid()
    ensures aliases.nextId == old(aliases.nextId) + 1
    ensures var alias := Aliases.Alias(old(aliases.nextId), name, self.id, now);
      && (Aliases.SaveError(old(aliases.rows), alias, saveFault).Some? ==>
            r == Err(Aliases.SaveError(old(aliases.rows), alias, saveFault).value) && aliases.rows == old(aliases.rows))
      && (Aliases.SaveError(old(aliases.rows), alias, saveFault).None? ==>
            r == Ok(alias) && aliases.rows == old(aliases.rows) + [alias])
  {
    var id := aliases.NewId();
    var alias := Aliases.Alias(id, name, self.id, now);
    var err := aliases.Save(alias, saveFault);
    if err.Some? {
      return Err(err.value);
    }
    r := Ok(alias);
  }

  /** The query `{ name: name, identity: owner }`. */
  function OwnedAlias(rows: seq<Aliases.Alias>, name: string, owner: Id): (r: Option<nat>)
    ensures r.Some? ==> r.value < |rows| && rows[r.value].name == name && rows[r.value].owner == owner
    ensures r.None? <==> forall a :: a in rows ==> !(a.name == name && a.owner == owner)
  {
    FindFirst(rows, (a: Aliases.Alias) => a.name == name && a.owner == owner)
  }

  /** `identity.removeAlias(name)`: finds the alias with this name owned by
      `self` and removes it. `findFault` and `removeFault` are failures of the
      store during the lookup and the removal. */
  method RemoveAlias(self: Identity, aliases: Aliases.AliasTable, name: string,
                     findFault: Option<Error>, removeFault: Option<Error>)
    returns (r: Result<Aliases.Alias, Error>)
    requires aliases.Valid()
    modifies aliases
    ensures aliases.Valid() && aliases.nextId == old(aliases.nextId)
    ensures r.Err? ==> aliases.rows == old(aliases.rows)
    ensures findFault.Some? ==> r == Err(findFault.value)
    ensures findFault.None? && OwnedAlias(old(aliases.rows), name, self.id).None? ==>
      r == Err(PlainError("Alias not found"))
    ensures findFault.None? && OwnedAlias(old(aliases.rows), name, self.id).Some? ==>
      var i := OwnedAlias(old(aliases.rows), name, self.id).value;
      && (removeFault.Some? ==> r == Err(removeFault.value))
      && (removeFault.None? ==> r == Ok(old(aliases.rows)[i]) && aliases.rows == RemoveAt(old(aliases.rows), i))
  {
    if findFault.Some? {
      return Err(findFault.value);
    }
    var found := OwnedAlias(aliases.rows, name, self.id);
    if found.None? {
      return Err(PlainError("Alias not found"));
    }
    var alias := aliases.rows[found.value];
    var err := aliases.Remove(found.value, removeFault);
    if err.Some? {
      return Err(err.value);
    }
    r := Ok(alias);
  }

  /** `removeAlias` removes only an alias that carries both the name and the
      owner asked for; every other alias, of this identity or another, stays. */
  lemma RemovesOnlyOwnedAlias(rows: seq<Aliases.Alias>, name: string, owner: Id)
    requires OwnedAlias(rows, name, owner).Some?
    ensures var i := OwnedAlias(rows, name, owner).value;
      && rows[i].name == name && rows[i].owner == owner
      && multiset(RemoveAt(rows, i)) + multiset{rows[i]} == multiset(rows)
  {
  }

  /** Under the unique name index, after a removal no alias with that name is
      left, so removing the same name again reports 'Alias not found'. */
  lemma RemoveAliasTwiceFails(rows: seq<Aliases.Alias>, nextId: Id, name: string, owner: Id)
    requires Aliases.WellFormed(rows, nextId)
    requires OwnedAlias(rows, name, owner).Some?
    ensures OwnedAlias(RemoveAt(rows, OwnedAlias(rows, name, owner).value), name, owner).None?
  {
  }
}
