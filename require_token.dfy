/** The requireToken middleware: redeems a single-use capability token for
    the requested path. */
module RequireToken {
  import opened Wrappers
  import opened Errors
  import opened Collection
  import opened Tokens
  import Identities

  /** The parts of an Express request the middleware reads and writes:
      the `token` query parameter as parsed, the path, and the two fields it sets. */
  class Request {
    const query: TokenParam
    const path: string
    var authorized: bool
    var identity: Option<Identities.Identity>

    constructor (query: TokenParam, path: string)
      ensures this.query == query && this.path == path
      ensures !authorized && identity.None?
    {
      this.query := query;
      this.path := path;
      authorized := false;
      identity := None;
    }
  }

  /** The identity `populate('identity')` puts in place of the ObjectId:
      the document with that ObjectId, or null when there is none. */
  function Populate(identities: seq<Identities.Identity>, owner: Id): (r: Option<Identities.Identity>)
    ensures r.Some? ==> r.value in identities && r.value.id == owner
    ensures r.None? ==> forall x :: x in identities ==> x.id != owner
  {
    match FindFirst(identities, (x: Identities.Identity) => x.id == owner)
    case None => None
    case Some(k) => Some(identities[k])
  }

  const InvalidToken := "Invalid or expired token supplied"

  /** `requireToken(req, res, callback)`; the result is the argument the
      callback receives (`None` for `callback()` with no error). The token
      parameter is read as `TokenText` does: a parameter that is not one
      string is no token.
      `lookupFault` and `removeFault` are failures of the store during the
      query and during the removal of the token. */
  method RequireToken(req: Request, tokens: TokenTable, identities: Identities.IdentityTable,
                      lookupFault: Option<Error>, removeFault: Option<Error>)
    returns (outcome: Option<Error>)
    requires tokens.Valid()
    modifies req, tokens
    ensures tokens.Valid() && tokens.nextId == old(tokens.nextId) && tokens.drawn == old(tokens.drawn)
    // a failed lookup: not authorized, identity untouched, no token removed
    ensures lookupFault.Some? ==>
      && outcome == lookupFault
      && !req.authorized && req.identity == old(req.identity) && tokens.rows == old(tokens.rows)
    // no token with this value for this path
    ensures lookupFault.None? && MatchIndex(old(tokens.rows), TokenText(req.query), req.path).None? ==>
      && outcome == Some(PlainError(InvalidToken))
      && !req.authorized && req.identity == old(req.identity) && tokens.rows == old(tokens.rows)
    // a match: its owner is attached, the request authorized, the token removed
    ensures lookupFault.None? && MatchIndex(old(tokens.rows), TokenText(req.query), req.path).Some? ==>
      var i := MatchIndex(old(tokens.rows), TokenText(req.query), req.path).value;
      && req.authorized
      && req.identity == Populate(identities.rows, old(tokens.rows)[i].identity)
      && outcome == removeFault
      && (removeFault.None? ==> tokens.rows == RemoveAt(old(tokens.rows), i))
      && (removeFault.Some? ==> tokens.rows == old(tokens.rows))
  {
    req.authorized := false;
    if lookupFault.Some? {
      return lookupFault;
    }
    var found := MatchIndex(tokens.rows, TokenText(req.query), req.path);
    if found.None? {
      return Some(PlainError(InvalidToken));
    }
    var token := tokens.rows[found.value];
    req.identity := Populate(identities.rows, token.identity);
    req.authorized := true;
    outcome := tokens.Remove(found.value, removeFault);
  }

  /** Only the query value and the path decide a match: a token is found for
      any request method, and the token found carries exactly that value and
      that path. */
  lemma MatchIgnoresMethod(rows: seq<Token>, query: Option<string>, path: string, i: nat)
    requires i < |rows| && query == Some(rows[i].value) && rows[i].resource == path
    ensures MatchIndex(rows, query, path).Some?
    ensures var k := MatchIndex(rows, query, path).value;
      Some(rows[k].value) == query && rows[k].resource == path
  {
  }

  /** Redeeming removes the matched token and nothing else, and the same value
      and path can never be redeemed a second time. */
  lemma RedeemOnce(rows: seq<Token>, nextId: Id, drawn: set<string>, query: Option<string>, path: string)
    requires WellFormed(rows, nextId, drawn)
    requires MatchIndex(rows, query, path).Some?
    ensures var i := MatchIndex(rows, query, path).value;
      && multiset(RemoveAt(rows, i)) + multiset{rows[i]} == multiset(rows)
      && MatchIndex(RemoveAt(rows, i), query, path).None?
  {
  }

  /** Two requests presenting the same token for the same path, with the
      store working: the first is authorized, the second is refused. */
  method RedeemTwice(first: Request, second: Request, tokens: TokenTable, identities: Identities.IdentityTable)
    returns (o1: Option<Error>, o2: Option<Error>)
    requires tokens.Valid() && first != second
    requires second.query == first.query && second.path == first.path
    requires MatchIndex(tokens.rows, TokenText(first.query), first.path).Some?
    modifies first, second, tokens
    ensures o1.None? && first.authorized
    ensures o2 == Some(PlainError(InvalidToken)) && !second.authorized
  {
    ghost var before := tokens.rows;
    o1 := RequireToken(first, tokens, identities, None, None);
    RedeemOnce(before, tokens.nextId, tokens.drawn, TokenText(first.query), first.path);
    o2 := RequireToken(second, tokens, identities, None, None);
  }
}
