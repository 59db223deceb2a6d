# Profile store behind a bearer-token gate

A Dafny model of a small HTTP service. The service keeps client profiles in an
in-memory map from id to `{Id, Name, Gmail, Token}` and serves one endpoint,
`/user/profile`. The service builds its handler at start-up by wrapping the
method dispatcher in a list of middlewares. The only middleware is the token
gate, so the gate runs first on every request:

- POST passes through the gate unchecked and creates a profile.
- Any other method needs a `clientId` query value that is a key of the map. It
  also needs an `Authorization` header equal to `"Bearer "` followed by that
  profile's token. Otherwise the answer is 403 `Forbidden`, the same whichever
  check failed.
- Past the gate, GET returns the profile and PATCH merges the non-empty payload
  fields into a copy of it. DELETE removes it, and any other method gets 405.

Files:

- `decimal.dfy` (module `Decimal`): Go's `%d` rendering of a natural number,
  with its inverse and the round-trip lemma.
- `profiles.dfy` (module `Profiles`): the profile record, the seed map, the
  generated id `"user" + (size + 1)` and token `name + number`, and the
  update merge.
- `auth.dfy` (module `Auth`): the token check and the gate's three-way
  decision.
- `server.dfy` (module `Server`): the start-up loop that builds the handler
  chain. It also holds the dispatcher and handlers, both as the specification
  functions `Routed`, `Run` and `Apply` and as the `Store` class. That class
  owns the map and updates it in place.
- `properties.dfy` (module `ServerProperties`): what one request, or a short
  series of requests, does to the response and the map.

The gate hands the profile it looked up to the handler through the request
context. Here that profile is an explicit `ctx: Option<Profile>` argument. A
handler that finds no profile there stops the request (`Aborted`), as the
unchecked type assertion would. `ApplyNeverAborts` shows that this cannot
happen with the handler the service registers.

Where a reader might expect otherwise, the model follows the code:

- GET returns the token along with the other fields.
- PATCH builds and returns the merged profile but never writes it back, so the
  map is unchanged.
- Create's id is `"user" + (len + 1)`, which is not collision-free. After a
  delete it can name an existing profile, and create then overwrites that
  profile (`CreateOverwritesTakenId`, `SeedDeleteThenCreateOverwrites`).
- A method other than the four routed ones gets 405 only when the gate lets it
  through. Without valid credentials it gets 403.
- Delete removes the key named by the stored record's `Id`, not the `clientId`.
  The two agree because every request keeps each record filed under its own
  id (`ApplyKeepsIds`).
- The decoded payload is the profile record itself, so its JSON keys are
  `Name` and `Gmail` (Go matches field names case-insensitively). A body
  that carries `email` instead of `Gmail` leaves the decoded Gmail empty. The
  payload's `Id` and `Token` are decoded but ignored.

## Model

| member | source | states |
|---|---|---|
| `Decimal.NatToString` | main.go:123 | the `%d` text of a number is a non-empty string of decimal digits, with no leading zero unless it is the single digit `0` |
| `Decimal.ParseFormatRoundTrip` | main.go:123 | reading back the decimal text of `n` gives `n` |
| `Decimal.NatToStringInjective` | main.go:123 | different numbers have different decimal texts |
| `Profiles.SeedDatabase` | main.go:21-34 | the store starts with exactly the keys `user1` and `user2`, each filed under its own id, with tokens `john123` and `michael123` |
| `Profiles.UserId` | main.go:123 | every generated id starts with `"user"` |
| `Profiles.UserIdInjective` | main.go:123 | two store sizes give the same generated id only when they are equal |
| `Profiles.TokenFor` | main.go:128 | the generated token is the payload name followed by at least one decimal digit |
| `Profiles.Created` | main.go:123-129 | the new profile's id is `"user" + (size + 1)`; its name and gmail are the payload's; its token starts with the name |
| `Profiles.Merge` | main.go:161-176 | a non-empty payload field replaces the profile's; an empty one leaves it; id and token are unchanged |
| `Profiles.MergeIdempotent` | main.go:161-167 | merging the same payload twice equals merging it once |
| `Profiles.MergeNeverClears` | main.go:161-167 | an update cannot turn a non-empty name or gmail into an empty one |
| `Profiles.MergeIgnoresIdAndToken` | main.go:153-167 | the payload's id and token have no effect on the merged profile |
| `Auth.HasPrefix` | main.go:70 | `s` has the prefix if and only if `s` is the prefix followed by some rest |
| `Auth.TrimPrefix` | main.go:71 | with the prefix present, prefix plus result is the input; without it, the input comes back unchanged |
| `Auth.IsValidToken` | main.go:69-75 | a header is accepted if and only if it equals `"Bearer "` followed by the profile's token |
| `Auth.NoBearerPrefixRejected` | main.go:70-74 | a header without the `"Bearer "` prefix is refused whatever follows |
| `Auth.Authorize` | main.go:39-67 | POST and only POST passes unchecked; the profile is granted if and only if the method is not POST, `clientId` is a non-empty key and the header is `"Bearer "` plus its token; the granted profile is the stored one |
| `Server.Chain` | main.go:99-101 | wrapping adds one layer per middleware, and the last middleware of the list is the outermost, so it runs first |
| `Server.BuildHandler` | main.go:99-101 | the start-up loop wraps the dispatcher in the middlewares in list order, the last outermost |
| `Server.ServerHandler` | main.go:77-79 | the registered handler is the token gate directly around the dispatcher |
| `Server.Routed` | main.go:84-187 | the dispatcher and handlers: a request aborts exactly when GET, PATCH or DELETE finds no profile in the context; only POST and DELETE change the map; no key other than the next generated id appears; the dispatcher never answers 403. The per-method outcomes are stated by the `ServerProperties` lemmas |
| `Server.Run` | main.go:39-67 | a handler reached with a profile in the context never aborts, nor does a non-POST request that meets the gate first; only POST and DELETE change the map |
| `Server.Apply` | main.go:99-103 | the registered handler answers 403 exactly when the request is not a POST and lacks a non-empty known `clientId` with a valid header. The other properties of one request are the `ServerProperties` lemmas |
| `Server.ApplyKeepsIds` | main.go:123-131 | every request keeps each stored profile filed under its own id |
| `Server.Store.constructor` | main.go:21-34 | the store starts with the two seed profiles, and its handler is the chain start-up builds |
| `Server.Store.CreateProfile` | main.go:111-133 | an undecodable body gives 400 and no change; otherwise the new profile is stored under its id, overwriting any profile there, and returned with 200 |
| `Server.Store.GetProfile` | main.go:135-148 | the authorized profile comes back with 200, token included; with no profile in the context the request aborts |
| `Server.Store.UpdateProfile` | main.go:150-179 | with a profile in the context, an undecodable body gives 400, otherwise 200 with the merged profile; the store is not written |
| `Server.Store.DeleteProfile` | main.go:181-187 | the authorized profile's id is removed from the map and the answer is 204 with no body |
| `Server.Store.Route` | main.go:84-97 | POST, GET, PATCH and DELETE reach their handler; any other method gets 405 and no change |
| `Server.Store.Serve` | main.go:39-67 | the gate answers 403 on a refusal, passes POST on unchanged and hands the granted profile to the wrapped handler |
| `Server.Store.Handle` | main.go:84-103 | one request served by the registered handler, keeping every profile filed under its own id |
| `ServerProperties.UnknownClientForbidden` | main.go:47-54 | a non-POST request with an empty or unknown `clientId` gets 403 and leaves the map unchanged |
| `ServerProperties.WrongTokenForbidden` | main.go:56-59 | a known `clientId` with a wrong or ill-formed header gets 403 and leaves the map unchanged |
| `ServerProperties.RejectionsIndistinguishable` | main.go:51-59 | an unknown id and a bad token produce the same response and the same map |
| `ServerProperties.PostSkipsGate` | main.go:42-45 | the outcome of a POST does not depend on `clientId` or the header, and a POST always gets a reply |
| `ServerProperties.OtherMethodsGated` | main.go:94-101 | an unrouted method gets 405 if and only if the credentials are valid, and 403 otherwise; the map is unchanged |
| `ServerProperties.ApplyNeverAborts` | main.go:62-65 | with the registered chain, every handler finds its profile, so no request aborts |
| `ServerProperties.CreateStoresUnderNextId` | main.go:111-133 | POST with a decodable body adds key `"user" + (size + 1)` holding a profile with that id, the payload's name and gmail and a token starting with the name; it returns that profile and keeps every other key; an undecodable body gives 400 and no change |
| `ServerProperties.CreateOverwritesTakenId` | main.go:123-131 | when the next id is already a key, create replaces that profile, the map does not grow, and the next create targets the same id |
| `ServerProperties.CreateAdvancesFreeId` | main.go:123-131 | when the next id is free, the map grows by one and the following create targets a different id |
| `ServerProperties.GetReturnsStoredRecord` | main.go:135-148 | GET never changes the map; with valid credentials it returns the stored record, token included, and otherwise 403 |
| `ServerProperties.GetIdempotent` | main.go:135-148 | repeating a GET gives the same outcome |
| `ServerProperties.PatchNeverPersists` | main.go:150-179 | PATCH never changes the map; past the gate it answers with the merged profile, or 400 for an undecodable body, and otherwise 403 |
| `ServerProperties.PatchThenGetSeesOldRecord` | main.go:150-179 | a GET after any PATCH still returns the record as it was before the PATCH |
| `ServerProperties.DeleteRemovesExactly` | main.go:181-187 | an authorized DELETE removes exactly the `clientId` key and answers 204; otherwise 403 with no change |
| `ServerProperties.DeletedClientForbidden` | main.go:49-53 | after a successful DELETE, any non-POST request for that id gets 403 |
| `ServerProperties.DeleteFollowsStoredId` | main.go:181-187 | for every map, an authorized DELETE answers 204 and removes the key `db[clientId].Id`, so when that id differs from `clientId` the record at `clientId` stays |
| `ServerProperties.SeedCredentials` | main.go:21-34 | on the seed map, `user1` with `Bearer john123` gets 200 and the record; `Bearer john12` and the unknown `user3` get 403 |
| `ServerProperties.SeedDeleteThenCreateOverwrites` | main.go:123-131 | from the seed map, deleting `user1` and then creating files the new profile under `user2`, replacing the existing profile |

## Left out

- Server start-up, route registration and logging (`http.HandleFunc`, `ListenAndServe`, `log`): process I/O with no decision logic.
- JSON decoding and encoding: a request body is either a decoded profile record or a decode failure, and a response carries a profile value instead of its JSON text.
- `http.ResponseWriter`: a response is a status and a body (profile, message text or nothing). The `Content-Type` header is not modelled, nor is the newline that `http.Error` appends to the message.
- `rand.Int()`: the random number in the token is the request's `tokenSuffix`, an arbitrary natural number. Its 63-bit bound plays no part in any property.
- `context.WithValue` and the type assertion: the authorized profile is the explicit `ctx` argument, and a failed assertion is the `Aborted` response. Go's recovery from the panic is not modelled.
- Concurrent requests: the map has no locking, and the model serves one request at a time.
- Go strings are bytes, while the model uses `seq<char>`. Every comparison the service makes is exact equality or a prefix test, which mean the same on both.
- `database.go` repeats the record type and seed map of `main.go` and is not part of this model.
