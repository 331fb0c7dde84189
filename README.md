# muttrpod core, modelled in Dafny

muttrpod is a relay node ("pod") for an end-to-end-encrypted messaging
network. It is written in JavaScript on Express and MongoDB. This project models
the parts of the pod that hold logic:

- the three persisted collections: identities (an armored public key and
  its SHA-1 digest), aliases (a globally unique name bound to one identity)
  and capability tokens (single use, swept 30 seconds after issue);
- registering an identity, and adding and removing its aliases;
- the `requireToken` middleware, which redeems a token for the requested path;
- the five HTTP error constructors and the error-handling middleware;
- the forceSSL redirect and the MongoDB connection string built from the
  storage node list.

Layout, one module per file:

| file | module | models |
|---|---|---|
| `wrappers.dfy` | `Wrappers` | `Option` and `Result` for callback arguments |
| `errors.dfy` | `Errors` | `lib/errors.js`, plus the errors the store and the engine raise |
| `http.dfy` | `Http` | what a middleware does: `next()`, redirect, or send |
| `error_handler.dfy` | `ErrorHandler` | `lib/middlewares/errorhandler.js` |
| `js_values.dfy` | `JsValues` | configuration values and how `+` renders them |
| `force_ssl.dfy` | `ForceSsl` | `lib/middlewares/forcessl.js` |
| `server.dfy` | `Server` | `_loadConfig` and the URI list of `_connectStorage` in `lib/server.js` |
| `collection.dfy` | `Collection` | the MongoDB collection behaviour the models rely on |
| `alias.dfy` | `Aliases` | `lib/models/alias.js` |
| `identity.dfy` | `Identities` | `lib/models/identity.js` |
| `token.dfy` | `Tokens` | `lib/models/token.js` |
| `require_token.dfy` | `RequireToken` | `lib/middlewares/requiretoken.js` |

How the model works:

- **Collections.** Each collection is a class whose `rows` field is a
  sequence in natural (insertion) order. So `findOne` is the first matching
  row (`Collection.FindFirst`). ObjectIds come from a `nextId` counter.
  Each collection class has a `Valid()` invariant. It states the schema
  constraints the store enforces: required fields, unique indexes, and
  ObjectIds that are unique and already issued. `RequireToken.Request` is not
  a collection and has no invariant: it only holds the request fields the
  middleware reads and sets.
- **Saving.** A save is checked in the order the document mapper and the
  store apply: first schema validation, then a failure of the store itself,
  then the unique indexes. A required string field fails validation when it
  is missing or empty. In the model a missing field is the empty string.
  A refused save leaves the collection unchanged.
- **Store failures.** Failures of the store are explicit `Option<Error>`
  parameters, one per store call (`saveFault`, `lookupFault`, `removeFault`).
  This is how "a store error is passed to the callback unchanged" is stated.
- **Callbacks.** Each operation returns what its callback receives.
- **Foreign code.** The OpenPGP `key.readArmored` and the SHA-1 hex digest are
  function-valued constants of `Identities.IdentityTable`. They are
  uninterpreted, except that the digest is assumed to be 40 lower-case hex
  digits. Clock readings (`now`, in milliseconds) are parameters. The output
  of the `hat` rack is a parameter that must not be a value the rack handed
  out before (`drawn`), because the rack retries until it finds a new one.
- **Token expiry.** The store's sweep is the step `Tokens.TokenTable.Expire(now)`.
  It removes every token issued more than 30 000 ms before `now`.
- **Token creation.** No operation of the core creates tokens.
  `Tokens.TokenTable.Issue` models what the schema does when a token is saved:
  the `issued` and `value` defaults, and validation of `resource` and of the
  `method` enum.
- **forceSSL port.** The code compares `config.server.port === 443`, so a
  port given as the string `"443"` keeps its `:443` suffix. Ports are
  `JsValues.JsValue` values: a number, a string or undefined.
- **`toObject` and `id`.** `toObject` is called with `virtuals: true`. This
  keeps the `id` virtual, which the document mapper defines by default. So
  the projection deletes `_id`, `__v` and `identity` but still carries the
  ObjectId as `id`.

Behaviour of the code worth noting:

- Registering a key that is already stored fails with the duplicate-key
  error of the `pubkey` index. It does not return the existing record.
- Adding an alias is a plain insert. A taken name fails even when the same
  identity owns it.
- Removing a missing alias fails with a plain `Error('Alias not found')`,
  not a not-found error.
- An unmatched token fails with a plain
  `Error('Invalid or expired token supplied')`.
- The error responder always answers with status 500. It ignores the
  error's code.

## Model

| member | source | states |
|---|---|---|
| `Errors.Code` | lib/errors.js:18-57 | each of the five HTTP errors carries a code between 400 and 501; apart from them only the duplicate-key error has a code, the driver's 11000, which is no HTTP status |
| `Errors.Message` | lib/errors.js:18-57 | every HTTP error has a non-empty message; a plain error keeps the text it was built with |
| `Errors.CodeIdentifiesKind` | lib/errors.js:18-57 | two HTTP errors have equal codes iff they are of the same kind: the codes 404, 500, 501, 401 and 400 are pairwise distinct |
| `Errors.HttpMessageNonEmpty` | lib/errors.js:18-57 | every HTTP error has a non-empty message |
| `Errors.BadRequestMessage` | lib/errors.js:54-57 | a bad request keeps a non-empty given message, falls back to 'Bad Request' for a missing or empty one, and has code 400 |
| `ErrorHandler.HandleError` | lib/middlewares/errorhandler.js:15-17 | the handler always sends, with status 500 and body `{ error: message }` |
| `ErrorHandler.ResponseDeterminedByMessage` | lib/middlewares/errorhandler.js:16 | two errors get the same response iff their messages are equal, whatever their codes |
| `ErrorHandler.CodeDiscarded` | lib/middlewares/errorhandler.js:16 | an error whose code is not 500 is still answered with 500; a not-found and an authorization error yield 500 with their messages |
| `ErrorHandler.NeverCallsNext` | lib/middlewares/errorhandler.js:15-17 | the handler never hands the request on |
| `ForceSsl.PortPart` | lib/middlewares/forcessl.js:17 | the port suffix is empty iff the port is the number 443, else it is ':' followed by the port's text |
| `ForceSsl.ForceSsl` | lib/middlewares/forcessl.js:14-24 | a request is passed on iff it is secure; an insecure one is redirected |
| `ForceSsl.RedirectTarget` | lib/middlewares/forcessl.js:17-20 | the target is 'https://', then the host name, then exactly the port suffix (empty iff the port is the number 443), then the request URL unchanged |
| `ForceSsl.RedirectKeepsUrl` | lib/middlewares/forcessl.js:18 | on one host, two insecure requests are redirected to the same target iff their URLs are equal |
| `JsValues.Decimal` | lib/middlewares/forcessl.js:17 | the text of a safe-integer port is non-empty and all digits iff the number is not negative |
| `JsValues.ToJsString` | lib/middlewares/forcessl.js:17 | `+` renders a number as its decimal text (all digits iff not negative), a string as itself and undefined as the word 'undefined' |
| `JsValues.DecimalRoundTrip` | lib/server.js:93 | the rendered port reads back as the same number, so different ports give different URIs |
| `JsValues.DecimalInjective` | lib/server.js:93 | equal port texts come from equal numbers |
| `Server.LoadConfig` | lib/server.js:72-76 | the configuration is returned unchanged |
| `Server.NodeUri` | lib/server.js:92-96 | after scheme and host comes ':', then exactly the port's text, then '/' and the database name |
| `Server.Uris` | lib/server.js:91-97 | one URI per node, in node order, the i-th built from the i-th node |
| `Server.NodeUriShape` | lib/server.js:92-96 | each URI starts with 'mongodb://', then the node's host, and ends with '/' and the one configured database name |
| `Server.Join` | lib/server.js:99 | the default `join()` gives '' for no parts, starts with the first part, and puts a comma after it when more parts follow |
| `Server.SplitJoin` | lib/server.js:99 | splitting the comma-joined list at commas gives back the list when no part contains a comma |
| `Server.ConnectionStringPerNode` | lib/server.js:91-99 | the connection string splits into exactly one URI per storage node, in order |
| `Server.Connect` | lib/server.js:86-99 | the options carry the configured user and password; no nodes give an empty string and one node gives exactly that node's URI |
| `Server.CredentialsOnlyInOptions` | lib/server.js:86-89 | user and password change only the options, never the connection string |
| `Collection.FindFirst` | lib/middlewares/requiretoken.js:24 | the row found is the first that matches the query, and none is found iff no row matches |
| `Collection.RemoveAt` | lib/middlewares/requiretoken.js:36 | removing one document keeps every other document, in order |
| `Aliases.ValidationFailures` | lib/models/alias.js:14-18 | an alias fails validation iff its name is empty, and only on `name` |
| `Aliases.SaveError` | lib/models/alias.js:13-27 | a save succeeds iff the name is non-empty, the store works and the name is not taken by any alias; an empty name is a validation error on `name` and a taken name a duplicate-key error on its index |
| `Aliases.SaveKeepsWellFormed` | lib/models/alias.js:14-18 | a successful save keeps every alias named and all names unique |
| `Aliases.OwnerNotUnique` | lib/models/alias.js:19-22 | one identity may own several aliases in a valid collection |
| `Aliases.AliasTable.NewId` | lib/models/identity.js:44 | building an alias assigns an ObjectId that no stored alias has |
| `Aliases.AliasTable.Save` | lib/models/identity.js:46-52 | the alias is appended exactly when the save reports no error; otherwise the collection is unchanged |
| `Aliases.AliasTable.Remove` | lib/models/identity.js:71 | the document is removed unless the store fails, and then nothing changes |
| `Identities.NewIdentity` | lib/models/identity.js:27-34 | a freshly built identity has `lastNonce` 0 and `registered` equal to the current time |
| `Identities.ValidationFailures` | lib/models/identity.js:17-26 | validation fails on exactly the empty ones of `pubkey` and `pubkeyhash`, and passes iff both are non-empty |
| `Identities.SaveError` | lib/models/identity.js:17-26 | a save succeeds iff both fields are non-empty, the store works and neither the key nor its digest is stored yet; a stored key gives the duplicate-key error of the `pubkey` index |
| `Identities.SaveKeepsWellFormed` | lib/models/identity.js:17-26 | a successful save keeps ObjectIds, keys and digests unique and every digest the digest of its own key |
| `Identities.RegisteredKeyRefused` | lib/models/identity.js:114-117 | saving a key that is already stored fails with the duplicate-key error of the `pubkey` index |
| `Identities.UniqueHashGivesUniqueKey` | lib/models/identity.js:111 | since the digest is computed from the armored text, unique digests imply unique keys |
| `Identities.CreateAsWritten` | lib/models/identity.js:100-112 | as written, a parse error answers with the parser's first error, and the call throws iff the key block parsed with no errors and at least one key |
| `Identities.AsWrittenNeverRegisters` | lib/models/identity.js:112 | as written, every key that parses throws and no call answers with an identity |
| `Identities.IdentityTable.Create` | lib/models/identity.js:100-121 | a parse error returns the parser's first error, and no key returns 'Failed to load key', both saving nothing; otherwise the record with digest sha1Hex(pubkey), `lastNonce` 0 and `registered` now is saved, or the save's error is returned and nothing is stored |
| `Identities.RegisterTwice` | lib/models/identity.js:114-117 | after a successful registration, registering the same key again fails with the duplicate-key error and stores nothing more |
| `Identities.AddAlias` | lib/models/identity.js:43-53 | exactly one alias with the given name, this identity as owner and `created` now is inserted and returned, or the save's error is returned and no alias is added |
| `Identities.OwnedAlias` | lib/models/identity.js:62 | the alias found has the given name and owner, and none is found iff no alias has both |
| `Identities.RemoveAlias` | lib/models/identity.js:61-73 | a lookup failure is returned; with no alias of that name owned by this identity the result is 'Alias not found'; otherwise exactly that alias is removed and returned; every failure leaves the aliases unchanged |
| `Identities.RemovesOnlyOwnedAlias` | lib/models/identity.js:62 | the alias removed carries both the name and the owner asked for, and every other alias stays |
| `Identities.RemoveAliasTwiceFails` | lib/models/identity.js:61-72 | since names are unique, after removal the same name and owner match no alias |
| `Tokens.ValidationFailures` | lib/models/token.js:23-31 | a token passes validation iff its resource is non-empty and its method is GET or DELETE |
| `Tokens.NewToken` | lib/models/token.js:15-39 | a new token has `issued` equal to the current time, the rack's value, version 0, and the given owner, resource and method |
| `Tokens.ToObject` | lib/models/token.js:42-50 | the projection keeps value, resource, method and issued |
| `Tokens.ToObjectForgetsOwnerAndVersion` | lib/models/token.js:42-50 | two tokens project to the same object iff they differ at most in `__v` and `identity` |
| `Tokens.MatchIndex` | lib/middlewares/requiretoken.js:19-24 | the token found has the given string as value and the path as resource, and none is found iff no token has both; no string finds nothing |
| `Tokens.MatchIndexAsWritten` | lib/middlewares/requiretoken.js:19-24 | with the parameter passed through as parsed, the token found is one the parsed query matches, and none is found iff no token does |
| `Tokens.GuessFreeRedemption` | lib/middlewares/requiretoken.js:19-24 | as written, `?token[$ne]=guess` finds a token for the path whenever one has a value other than the guess |
| `Tokens.TokenText` | lib/middlewares/requiretoken.js:20 | the intended reading: the parameter is a token value iff it is one string |
| `Tokens.CorrectedMatchNeedsValue` | lib/middlewares/requiretoken.js:19-24 | under the intended reading a token is found only for a request carrying its exact value as one string, and for such a request the lookup is the one the code performs |
| `Tokens.Live` | lib/models/token.js:17-20 | the sweep keeps exactly the tokens issued no more than 30 s before `now` |
| `Tokens.ExpiryIsPermanent` | lib/models/token.js:17-20 | an expired token stays expired, and a token is live at `issued + 30000` and expired one millisecond later |
| `Tokens.ExpiredTokenNotRedeemable` | lib/models/token.js:15-22 | after the sweep, any token found was issued no more than 30 s ago, and every younger token is still there |
| `Tokens.TokenTable.Issue` | lib/models/token.js:14-40 | saving a new token records the rack's value as drawn; a validation or store failure stores nothing; otherwise the token with the defaults is appended |
| `Tokens.TokenTable.Remove` | lib/middlewares/requiretoken.js:36 | the token is removed unless the store fails, and then nothing changes |
| `Tokens.TokenTable.Expire` | lib/models/token.js:17-20 | the sweep leaves exactly the tokens issued within the last 30 s, in order |
| `RequireToken.Populate` | lib/middlewares/requiretoken.js:24 | the populated owner is the stored identity with that ObjectId, or null when there is none |
| `RequireToken.RequireToken` | lib/middlewares/requiretoken.js:16-38 | the parameter is read as `TokenText` does; a lookup failure is passed on unchanged; without a match the result is 'Invalid or expired token supplied'; in both cases the request is unauthorized, its identity untouched and no token removed; on a match the owner is attached, the request authorized and that token alone removed, the removal's error being the result |
| `RequireToken.MatchIgnoresMethod` | lib/middlewares/requiretoken.js:19-22 | any token whose value equals the query parameter and whose resource equals the path is found, whatever its method, and the token found has that value and path |
| `RequireToken.RedeemOnce` | lib/middlewares/requiretoken.js:36 | redeeming removes the matched token and nothing else, after which the same value and path match nothing |
| `RequireToken.RedeemTwice` | lib/middlewares/requiretoken.js:29-36 | presenting the same token for the same path twice authorizes the first request and refuses the second with 'Invalid or expired token supplied' |

## Findings

| source | as written | input that shows it | evidently intended | confidence | as-written member | corrected member |
|---|---|---|---|---|---|---|
| lib/models/identity.js:112 | `new Identity({...})` applies `new` to the schema object of line 16, because the model is never bound to a local name; this throws a TypeError before `save` runs | any armored key that `readArmored` parses with no errors and at least one key | build an identity document with the model and save it | high, not executed | `Identities.AsWrittenNeverRegisters` | `Identities.IdentityTable.Create` |
| lib/middlewares/requiretoken.js:19-24 | `req.query.token` goes into the query unchecked; Express's default query-string parser makes `?token[$ne]=x` an object the document mapper reads as the operator `$ne`, and `?token=a&token=b` an array read as `$in` | `?token[$ne]=guess` on the path of any stored token whose value is not `guess` | only a single string parameter is compared with the token value | medium, not executed | `Tokens.GuessFreeRedemption` | `Tokens.CorrectedMatchNeedsValue` |

## Left out

- `getConversations` and `getConversationByAlias` (lib/models/identity.js:80-92): their bodies are empty.
- The nonce ledger: lib/middlewares/authenticate.js and lib/middlewares/authorize.js only call `next()`, so no operation ever changes `lastNonce`.
- Server I/O: `mongoose.connect`, joining the DHT, the empty `_configureApp` and `_startServer`, and the event-emitter `start` (lib/server.js:43-132 apart from the URI list and the options).
- lib/storage.js: every adapter method is empty. lib/models/dhtentry.js and lib/models/message.js: schemas that no operation uses.
- lib/bus.js, lib/rpc.js, lib/middlewares/rawbody.js, lib/router.js, bin/muttrpod.js, index.js, www/js/lookup.js: constructors, stream buffering, wiring and front-end code with no logic of the core.
- OpenPGP parsing and SHA-1: foreign code, taken as uninterpreted functions.
- Token sweep timing: the store sweeps when it chooses. The model has an `Expire(now)` step that runs at any point.
- Concurrency: each store call is one atomic step, and callbacks run in sequence.
- `RequireToken.RequireToken`: models the intended reading of the token parameter (`Tokens.TokenText`), under which a parameter that is not one string matches nothing. The code as written passes arrays and operator objects to the store; see Findings.
- Other query operators than `$ne` and `$in` (such as `$gt` or `$regex`) are not modelled. Each is a further way of matching without knowing the value.
- `JsValues.Decimal`: ports and other configuration numbers are safe integers (magnitude below 2^53). Fractional numbers, the exponent form JavaScript uses from 1e21 on, and the loss of exactness beyond 2^53 are not modelled.
- `Errors.Code`: the store's other failures (`StoreError`) are given no code. The driver sets codes on some of them.
- The text of a duplicate-key error names only the index. The store's full text also names the collection and the duplicate value.
- The length and alphabet of the rack's 256-bit values are not modelled. Only their freshness is.
- Which unique index reports first when a key and its digest both collide: the model reports the `pubkey` index, the first one the schema declares.
- `Identities.IdentityTable.Create`: models the evident intent of line 112 (build the document, then save it), not the TypeError the code throws; see Findings.
