/**
 * The single `/user/profile` endpoint: the middleware chain built at start-up,
 * the method dispatcher, the four handlers, and the store they share.
 *
 * A request is served by the handler chain. `Run` is its specification as a
 * function of the store's contents; `Store.Serve` executes it and updates the
 * store in place. The profile the gate authorizes travels to the handler as
 * the explicit `ctx` argument; a handler that finds no profile there stops
 * the request (`Aborted`), as the unchecked type assertion does.
 */
module Server {
  import opened Profiles
  import opened Auth

  const METHOD_GET := "GET"
  const METHOD_PATCH := "PATCH"
  const METHOD_DELETE := "DELETE"

  const STATUS_OK := 200
  const STATUS_NO_CONTENT := 204
  const STATUS_BAD_REQUEST := 400
  const STATUS_FORBIDDEN := 403
  const STATUS_METHOD_NOT_ALLOWED := 405

  /**
   * What the service reads from one request: its method, the `clientId`
   * query value and the `Authorization` header ("" when absent), the decoded
   * body, and the number `rand.Int()` would return if create ran.
   */
  datatype Request = Request(
    verb: string,
    clientId: string,
    authorization: string,
    body: Body,
    tokenSuffix: nat)

  datatype Content = ProfileJson(profile: Profile) | Text(message: string) | NoContent

  /** A status with a body, or a request stopped by a failed context lookup. */
  datatype Response = Reply(status: nat, content: Content) | Aborted

  const FORBIDDEN := Reply(STATUS_FORBIDDEN, Text("Forbidden"))
  const INVALID_JSON := Reply(STATUS_BAD_REQUEST, Text("Invalid JSON"))
  const NOT_ALLOWED := Reply(STATUS_METHOD_NOT_ALLOWED, Text("Method not allowed"))

  /** The response together with the store's contents afterwards. */
  datatype Outcome = Outcome(response: Response, db: Database)

  datatype Middleware = TokenAuth

  /** A handler: the method dispatcher, or a middleware wrapped around a handler. */
  datatype Handler = Mux | Wrapped(middleware: Middleware, next: Handler)

  /** The middleware list the service is configured with. */
  const MIDDLEWARES: seq<Middleware> := [TokenAuth]

  /** The number of middlewares wrapped around the dispatcher. */
  function Depth(h: Handler): nat {
    match h
    case Mux => 0
    case Wrapped(_, next) => 1 + Depth(next)
  }

  /**
   * Each middleware in turn wraps the handler built so far: every middleware
   * adds one layer, and the last one in the list is the outermost, so it runs first.
   */
  function Chain(ms: seq<Middleware>, base: Handler): (h: Handler)
    ensures Depth(h) == Depth(base) + |ms|
    ensures ms != [] ==> h.Wrapped? && h.middleware == ms[|ms| - 1]
  {
    if ms == [] then base else Wrapped(ms[|ms| - 1], Chain(ms[..|ms| - 1], base))
  }

  /** Start-up: the loop that wraps the dispatcher in every configured middleware. */
  method BuildHandler(ms: seq<Middleware>) returns (h: Handler)
    ensures h == Chain(ms, Mux)
  {
    h := Mux;
    for i := 0 to |ms|
      invariant h == Chain(ms[..i], Mux)
    {
      assert ms[..i + 1][..i] == ms[..i];
      h := Wrapped(ms[i], h);
    }
    assert ms[..|ms|] == ms;
  }

  /** The handler the service registers: the gate directly around the dispatcher. */
  function ServerHandler(): (h: Handler)
    ensures h == Wrapped(TokenAuth, Mux)
  {
    assert MIDDLEWARES[..|MIDDLEWARES| - 1] == [];
    Chain(MIDDLEWARES, Mux)
  }

  /**
   * The dispatcher and the four handlers, given the profile the context
   * carries. Only GET, PATCH and DELETE read the context, so only they abort
   * without one; only create and delete write; the only key that can appear
   * is the next generated id.
   */
  function Routed(db: Database, req: Request, ctx: Option<Profile>): (r: Outcome)
    ensures r.response.Aborted? <==>
      ctx.None? && (req.verb == METHOD_GET || req.verb == METHOD_PATCH || req.verb == METHOD_DELETE)
    ensures req.verb != METHOD_POST && req.verb != METHOD_DELETE ==> r.db == db
    ensures r.db.Keys <= db.Keys + {UserId(|db| + 1)}
    ensures r.response != FORBIDDEN
  {
    if req.verb == METHOD_POST then
      match req.body
      case Malformed => Outcome(INVALID_JSON, db)
      case Json(payload) =>
        var p := Created(|db|, payload, req.tokenSuffix);
        Outcome(Reply(STATUS_OK, ProfileJson(p)), db[p.id := p])
    else if req.verb == METHOD_GET then
      match ctx
      case None => Outcome(Aborted, db)
      case Some(p) => Outcome(Reply(STATUS_OK, ProfileJson(p)), db)
    else if req.verb == METHOD_PATCH then
      match ctx
      case None => Outcome(Aborted, db)
      case Some(p) =>
        match req.body
        case Malformed => Outcome(INVALID_JSON, db)
        case Json(payload) => Outcome(Reply(STATUS_OK, ProfileJson(Merge(p, payload))), db)
    else if req.verb == METHOD_DELETE then
      match ctx
      case None => Outcome(Aborted, db)
      case Some(p) => Outcome(Reply(STATUS_NO_CONTENT, NoContent), db - {p.id})
    else
      Outcome(NOT_ALLOWED, db)
  }

  /**
   * Serving a request with handler `h`. A handler reached with a profile in
   * the context never aborts, and neither does a non-create request that
   * meets a gate first; the store changes only through create or delete.
   */
  function Run(h: Handler, db: Database, req: Request, ctx: Option<Profile>): (r: Outcome)
    decreases h
    ensures ctx.Some? ==> r.response.Reply?
    ensures h.Wrapped? && req.verb != METHOD_POST ==> r.response.Reply?
    ensures req.verb != METHOD_POST && req.verb != METHOD_DELETE ==> r.db == db
    ensures r.db.Keys <= db.Keys + {UserId(|db| + 1)}
  {
    match h
    case Mux => Routed(db, req, ctx)
    case Wrapped(TokenAuth, next) =>
      match Authorize(db, req.verb, req.clientId, req.authorization)
      case Pass => Run(next, db, req, ctx)
      case Deny => Outcome(FORBIDDEN, db)
      case Grant(p) => Run(next, db, req, Some(p))
  }

  /**
   * Serving a request with the registered handler; a request starts with an
   * empty context. The answer is 403 exactly when the gate refuses: a
   * non-create request without a non-empty known `clientId` and its valid header.
   */
  function Apply(db: Database, req: Request): (r: Outcome)
    ensures r.response == FORBIDDEN <==>
      req.verb != METHOD_POST &&
      !(req.clientId != "" && req.clientId in db && IsValidToken(db[req.clientId], req.authorization))
  {
    Run(ServerHandler(), db, req, None)
  }

  /** Every request keeps each profile filed under its own id. */
  lemma ApplyKeepsIds(db: Database, req: Request)
    requires KeysMatchIds(db)
    ensures KeysMatchIds(Apply(db, req).db)
  {
  }

  /** The service's state: the profile map, and the handler registered at start-up. */
  class Store {
    var db: Database
    var handler: Handler

    ghost predicate Valid()
      reads this
    {
      KeysMatchIds(db) && handler == ServerHandler()
    }

    /** Start-up: the seed profiles, and the dispatcher wrapped in the middlewares. */
    constructor ()
      ensures Valid() && db == SeedDatabase()
    {
      var h := BuildHandler(MIDDLEWARES);
      db := SeedDatabase();
      handler := h;
    }

    /** Create: stores the new profile under `"user" + (size + 1)`, overwriting any profile there. */
    method CreateProfile(body: Body, suffix: nat) returns (resp: Response)
      modifies this`db
      ensures body.Malformed? ==> resp == INVALID_JSON && db == old(db)
      ensures body.Json? ==>
        var p := Created(|old(db)|, body.payload, suffix);
        resp == Reply(STATUS_OK, ProfileJson(p)) && db == old(db)[p.id := p]
    {
      if body.Malformed? {
        return INVALID_JSON;
      }
      var payload := body.payload;
      var userId := UserId(|db| + 1);
      var response := Profile(userId, payload.name, payload.gmail, TokenFor(payload.name, suffix));
      db := db[userId := response];
      resp := Reply(STATUS_OK, ProfileJson(response));
    }

    /** Read: the authorized profile, token included. */
    method GetProfile(ctx: Option<Profile>) returns (resp: Response)
      ensures ctx.None? ==> resp == Aborted
      ensures ctx.Some? ==> resp == Reply(STATUS_OK, ProfileJson(ctx.value))
    {
      if ctx.None? {
        return Aborted;
      }
      var profile := ctx.value;
      resp := Reply(STATUS_OK, ProfileJson(Profile(profile.id, profile.name, profile.gmail, profile.token)));
    }

    /** Update: merges the payload into a copy of the authorized profile; the store is not written. */
    method UpdateProfile(ctx: Option<Profile>, body: Body) returns (resp: Response)
      ensures ctx.None? ==> resp == Aborted
      ensures ctx.Some? && body.Malformed? ==> resp == INVALID_JSON
      ensures ctx.Some? && body.Json? ==>
        resp == Reply(STATUS_OK, ProfileJson(Merge(ctx.value, body.payload)))
    {
      if ctx.None? {
        return Aborted;
      }
      var profile := ctx.value;
      if body.Malformed? {
        return INVALID_JSON;
      }
      var payload := body.payload;
      if payload.gmail != "" {
        profile := profile.(gmail := payload.gmail);
      }
      if payload.name != "" {
        profile := profile.(name := payload.name);
      }
      resp := Reply(STATUS_OK, ProfileJson(Profile(profile.id, profile.name, profile.gmail, profile.token)));
    }

    /** Delete: removes the key named by the authorized profile's id. */
    method DeleteProfile(ctx: Option<Profile>) returns (resp: Response)
      modifies this`db
      ensures ctx.None? ==> resp == Aborted && db == old(db)
      ensures ctx.Some? ==> resp == Reply(STATUS_NO_CONTENT, NoContent) && db == old(db) - {ctx.value.id}
    {
      if ctx.None? {
        return Aborted;
      }
      db := db - {ctx.value.id};
      resp := Reply(STATUS_NO_CONTENT, NoContent);
    }

    /** The dispatcher: one handler per method, 405 for any other. */
    method Route(req: Request, ctx: Option<Profile>) returns (resp: Response)
      modifies this`db
      ensures Outcome(resp, db) == Routed(old(db), req, ctx)
    {
      if req.verb == METHOD_POST {
        resp := CreateProfile(req.body, req.tokenSuffix);
      } else if req.verb == METHOD_GET {
        resp := GetProfile(ctx);
      } else if req.verb == METHOD_PATCH {
        resp := UpdateProfile(ctx, req.body);
      } else if req.verb == METHOD_DELETE {
        resp := DeleteProfile(ctx);
      } else {
        resp := NOT_ALLOWED;
      }
    }

    /** Runs handler `h` on the request, the gate first when `h` is wrapped in it. */
    method Serve(h: Handler, req: Request, ctx: Option<Profile>) returns (resp: Response)
      modifies this`db
      decreases h
      ensures Outcome(resp, db) == Run(h, old(db), req, ctx)
    {
      match h
      case Mux =>
        resp := Route(req, ctx);
      case Wrapped(TokenAuth, next) =>
        match Authorize(db, req.verb, req.clientId, req.authorization)
        case Pass =>
          resp := Serve(next, req, ctx);
        case Deny =>
          resp := FORBIDDEN;
        case Grant(p) =>
          resp := Serve(next, req, Some(p));
    }

    /** One request to `/user/profile`. */
    method Handle(req: Request) returns (resp: Response)
      requires Valid()
      modifies this`db
      ensures Valid()
      ensures Outcome(resp, db) == Apply(old(db), req)
    {
      resp := Serve(handler, req, None);
      ApplyKeepsIds(old(db), req);
    }
  }
}
