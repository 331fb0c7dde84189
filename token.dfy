/** The token collection: single-use capabilities for one resource path,
    swept away by the store 30 seconds after issue. */
module Tokens {
  import opened Wrappers
  import opened Errors
  import opened Collection

  /** One token document; `version` is the `__v` key the document mapper adds
      and `identity` the ObjectId of the owning identity. Times are milliseconds. */
  datatype Token = Token(id: Id, version: nat, identity: Id, value: string, resource: string, httpMethod: string, issued: int)

  /** What `token.toObject()` gives: `_id`, `__v` and `identity` deleted by the
      transform; the `id` virtual, included because virtuals are on, stays. */
  datatype TokenObject = TokenObject(id: Id, value: string, resource: string, httpMethod: string, issued: int)

  function IdOf(t: Token): Id { t.id }
  function ValueOf(t: Token): string { t.value }

  /** The `expires: '30s'` of the index on `issued`, in milliseconds. */
  const LifetimeMillis := 30000

  /** The `enum` of the `method` field. */
  predicate AllowedMethod(m: string) { m == "GET" || m == "DELETE" }

  /** Schema validation: `resource` is a required string, `method` a required
      string from the enum. */
  function ValidationFailures(t: Token): (paths: set<string>)
    ensures paths == {} <==> t.resource != "" && AllowedMethod(t.httpMethod)
  {
    (if t.resource == "" then {"resource"} else {}) + (if !AllowedMethod(t.httpMethod) then {"method"} else {})
  }

  /** The document `new Token({ method, resource, identity })` builds: `issued`
      is the current time and `value` is drawn from the 256-bit rack. */
  function NewToken(id: Id, owner: Id, resource: string, httpMethod: string, now: int, value: string): (t: Token)
    ensures t.issued == now && t.value == value && t.version == 0
    ensures t.identity == owner && t.resource == resource && t.httpMethod == httpMethod && t.id == id
  {
    Token(id, 0, owner, value, resource, httpMethod, now)
  }

  function ToObject(t: Token): (o: TokenObject)
    ensures o.value == t.value && o.resource == t.resource && o.httpMethod == t.httpMethod && o.issued == t.issued
  {
    TokenObject(t.id, t.value, t.resource, t.httpMethod, t.issued)
  }

  /** The projection drops exactly `__v` and `identity` (besides renaming
      `_id` to the `id` virtual): two tokens give the same object exactly when
      they agree on everything else. */
  lemma ToObjectForgetsOwnerAndVersion(a: Token, b: Token)
    ensures ToObject(a) == ToObject(b) <==> a.(version := b.version, identity := b.identity) == b
  {
  }

  /** The query `{ value: token, resource: req.path }` for a token given as
      one string: the value must equal it and the resource the path; the
      method is not consulted. No string matches nothing, since every stored
      token has a value. */
  predicate Matches(t: Token, query: Option<string>, path: string) {
    query == Some(t.value) && t.resource == path
  }

  /** The `token` query parameter as Express's default query-string parser
      hands it over: absent, one string, several strings (`?token=a&token=b`),
      or a bracketed object (`?token[$ne]=x`), which the document mapper
      casts to the query operator `$ne`; several strings become `$in`. */
  datatype TokenParam = Absent | Text(text: string) | Several(texts: seq<string>) | NotEqual(other: string)

  /** The query as lib/middlewares/requiretoken.js builds it, with the
      parameter passed to the store unchecked. */
  predicate MatchesAsWritten(t: Token, p: TokenParam, path: string) {
    && t.resource == path
    && match p
       case Absent => false
       case Text(s) => t.value == s
       case Several(vs) => t.value in vs
       case NotEqual(x) => t.value != x
  }

  function MatchIndexAsWritten(rows: seq<Token>, p: TokenParam, path: string): (r: Option<nat>)
    ensures r.Some? ==> r.value < |rows| && MatchesAsWritten(rows[r.value], p, path)
    ensures r.None? <==> forall t :: t in rows ==> !MatchesAsWritten(t, p, path)
  {
    FindFirst(rows, (t: Token) => MatchesAsWritten(t, p, path))
  }

  /** As written, a client that knows no token value at all still redeems a
      token for the path: `?token[$ne]=guess` finds any token for that path
      whose value is not the guess. */
  lemma GuessFreeRedemption(rows: seq<Token>, path: string, guess: string, i: nat)
    requires i < |rows| && rows[i].resource == path && rows[i].value != guess
    ensures MatchIndexAsWritten(rows, NotEqual(guess), path).Some?
    ensures MatchIndexAsWritten([Token(0, 0, 0, "secret", path, "GET", 0)], NotEqual(""), path) == Some(0)
  {
    assert rows[i] in rows;
  }

  /** The intended reading of the parameter: only a single string is a token
      value; anything else is treated as no token. */
  function TokenText(p: TokenParam): (q: Option<string>)
    ensures q.Some? <==> p.Text?
    ensures q.Some? ==> p == Text(q.value)
  {
    if p.Text? then Some(p.text) else None
  }

  /** Under the intended reading a token is found only for a request that
      carries its exact value as one string, and for such a request the
      lookup is the one the code performs. */
  lemma CorrectedMatchNeedsValue(rows: seq<Token>, p: TokenParam, path: string)
    ensures var f := MatchIndex(rows, TokenText(p), path);
      f.Some? ==> p == Text(rows[f.value].value) && rows[f.value].resource == path
    ensures p.Text? ==> MatchIndex(rows, TokenText(p), path) == MatchIndexAsWritten(rows, p, path)
  {
    if p.Text? {
      FindFirstSameQuery(rows, (t: Token) => Matches(t, TokenText(p), path),
                               (t: Token) => MatchesAsWritten(t, p, path));
    }
  }

  /** The token `findOne` returns for the query. */
  function MatchIndex(rows: seq<Token>, query: Option<string>, path: string): (r: Option<nat>)
    ensures r.Some? ==> r.value < |rows| && query == Some(rows[r.value].value) && rows[r.value].resource == path
    ensures r.None? <==> forall t :: t in rows ==> !(query == Some(t.value) && t.resource == path)
  {
    FindFirst(rows, (t: Token) => Matches(t, query, path))
  }

  /** Whether the store's sweep has taken the token away at time `now`. */
  predicate Expired(t: Token, now: int) { t.issued + LifetimeMillis < now }

  /** The collection as the sweep at time `now` leaves it. */
  function Live(rows: seq<Token>, now: int): (r: seq<Token>)
    ensures |r| <= |rows|
    ensures forall t :: t in r <==> t in rows && t.issued + LifetimeMillis >= now
  {
    Keep(rows, (t: Token) => !Expired(t, now))
  }

  /** Expiry is permanent, and a token lives for its full 30 seconds: it is not
      expired at `issued + 30000` and it is one millisecond later. */
  lemma ExpiryIsPermanent(t: Token, now: int, later: int)
    requires now <= later
    ensures Expired(t, now) ==> Expired(t, later)
    ensures !Expired(t, t.issued + LifetimeMillis) && Expired(t, t.issued + LifetimeMillis + 1)
  {
  }

  /** What holds of the stored collection: every token passed validation,
      every value came from the rack (whose record is `drawn`), values and
      ObjectIds are unique. */
  ghost predicate WellFormed(rows: seq<Token>, nextId: Id, drawn: set<string>) {
    && (forall t :: t in rows ==> t.id < nextId && t.value in drawn && ValidationFailures(t) == {})
    && Unique(rows, IdOf)
    && Unique(rows, ValueOf)
  }

  /** After the sweep at time `now`, no token issued more than 30 seconds
      before `now` can be redeemed, and every younger one still can. */
  lemma ExpiredTokenNotRedeemable(rows: seq<Token>, now: int, query: Option<string>, path: string)
    ensures var found := MatchIndex(Live(rows, now), query, path);
      found.Some? ==> Live(rows, now)[found.value].issued + LifetimeMillis >= now
    ensures forall t :: t in rows && !Expired(t, now) ==> t in Live(rows, now)
  {
    var live := Live(rows, now);
    var found := MatchIndex(live, query, path);
    if found.Some? {
      assert live[found.value] in live;
    }
  }

  class TokenTable {
    var rows: seq<Token>
    var nextId: Id
    /** The rack's record of every value it has handed out. */
    var drawn: set<string>

    ghost predicate Valid()
      reads this
    {
      WellFormed(rows, nextId, drawn)
    }

    constructor ()
      ensures Valid() && rows == [] && nextId == 0 && drawn == {}
    {
      rows := [];
      nextId := 0;
      drawn := {};
    }

    /** `new Token({ method, resource, identity }).save()`. `value` is the
        rack's output, which the rack guarantees it never gave before. */
    method Issue(owner: Id, resource: string, httpMethod: string, now: int, value: string, saveFault: Option<Error>)
      returns (r: Result<Token, Error>)
      requires Valid() && value !in drawn
      modifies this
      ensures Valid()
      ensures nextId == old(nextId) + 1 && drawn == old(drawn) + {value}
      ensures var t := NewToken(old(nextId), owner, resource, httpMethod, now, value);
        && (ValidationFailures(t) != {} ==> r == Err(ValidationError(ValidationFailures(t))) && rows == old(rows))
        && (ValidationFailures(t) == {} && saveFault.Some? ==> r == Err(saveFault.value) && rows == old(rows))
        && (ValidationFailures(t) == {} && saveFault.None? ==> r == Ok(t) && rows == old(rows) + [t])
    {
      var t := NewToken(nextId, owner, resource, httpMethod, now, value);
      nextId := nextId + 1;
      drawn := drawn + {value};
      if ValidationFailures(t) != {} {
        return Err(ValidationError(ValidationFailures(t)));
      }
      if saveFault.Some? {
        return Err(saveFault.value);
      }
      UniqueAppend(rows, IdOf, t);
      UniqueAppend(rows, ValueOf, t);
      rows := rows + [t];
      r := Ok(t);
    }

    /** `token.remove()` on the document at index `i`. */
    method Remove(i: nat, fault: Option<Error>) returns (err: Option<Error>)
      requires Valid() && i < |rows|
      modifies this
      ensures Valid()
      ensures err == fault
      ensures err.None? ==> rows == RemoveAt(old(rows), i)
      ensures err.Some? ==> rows == old(rows)
      ensures nextId == old(nextId) && drawn == old(drawn)
    {
      err := fault;
      if fault.None? {
        UniqueRemoveAt(rows, IdOf, i);
        UniqueRemoveAt(rows, ValueOf, i);
        rows := RemoveAt(rows, i);
      }
    }

    /** The store's expiry sweep at time `now`: every token issued more than
        30 seconds ago is removed, every other token stays in order. */
    method Expire(now: int)
      requires Valid()
      modifies this
      ensures Valid()
      ensures rows == Live(old(rows), now)
      ensures nextId == old(nextId) && drawn == old(drawn)
    {
      UniqueKeep(rows, IdOf, (t: Token) => !Expired(t, now));
      UniqueKeep(rows, ValueOf, (t: Token) => !Expired(t, now));
      rows := Live(rows, now);
    }
  }
}
