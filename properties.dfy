/**
 * What the service guarantees, stated over `Apply`: the outcome of one
 * request (response and resulting store) from the store's contents before it.
 */
module ServerProperties {
  import opened Decimal
  import opened Profiles
  import opened Auth
  import opened Server

  predicate HasCredentials(db: Database, req: Request) {
    req.clientId != "" && req.clientId in db &&
    req.authorization == BEARER_PREFIX + db[req.clientId].token
  }

  predicate IsRoutedVerb(verb: string) {
    verb == METHOD_POST || verb == METHOD_GET || verb == METHOD_PATCH || verb == METHOD_DELETE
  }

  /** What the gate does before the dispatcher sees a request. */
  lemma ApplyUnfold(db: Database, req: Request)
    ensures req.verb == METHOD_POST ==> Apply(db, req) == Routed(db, req, None)
    ensures req.verb != METHOD_POST && !HasCredentials(db, req) ==> Apply(db, req) == Outcome(FORBIDDEN, db)
    ensures req.verb != METHOD_POST && HasCredentials(db, req) ==>
      Apply(db, req) == Routed(db, req, Some(db[req.clientId]))
  {
  }

  /** A non-create request without a known, non-empty `clientId` is refused and changes nothing. */
  lemma UnknownClientForbidden(db: Database, req: Request)
    requires req.verb != METHOD_POST
    requires req.clientId == "" || req.clientId !in db
    ensures Apply(db, req) == Outcome(FORBIDDEN, db)
  {
  }

  /** A known client with a wrong or ill-formed header is refused and changes nothing. */
  lemma WrongTokenForbidden(db: Database, req: Request)
    requires req.verb != METHOD_POST
    requires req.clientId in db
    requires !IsValidToken(db[req.clientId], req.authorization)
    ensures Apply(db, req) == Outcome(FORBIDDEN, db)
  {
  }

  /** An unknown id and a bad token cannot be told apart from the outcome. */
  lemma RejectionsIndistinguishable(db: Database, unknown: Request, badToken: Request)
    requires unknown.verb != METHOD_POST && unknown.clientId !in db
    requires badToken.verb != METHOD_POST && badToken.clientId in db
    requires !IsValidToken(db[badToken.clientId], badToken.authorization)
    ensures Apply(db, unknown) == Apply(db, badToken)
  {
  }

  /** Create is public: its outcome does not depend on `clientId` or the header. */
  lemma PostSkipsGate(db: Database, req: Request, clientId: string, authorization: string)
    requires req.verb == METHOD_POST
    ensures Apply(db, req) == Apply(db, req.(clientId := clientId, authorization := authorization))
    ensures Apply(db, req).response.Reply?
  {
  }

  /**
   * Because the gate wraps the dispatcher, a method the dispatcher does not
   * know gets 405 only with valid credentials, and 403 without them.
   */
  lemma OtherMethodsGated(db: Database, req: Request)
    requires !IsRoutedVerb(req.verb)
    ensures HasCredentials(db, req) ==> Apply(db, req) == Outcome(NOT_ALLOWED, db)
    ensures !HasCredentials(db, req) ==> Apply(db, req) == Outcome(FORBIDDEN, db)
  {
  }

  /** With the registered chain, every handler finds the profile it expects: nothing aborts. */
  lemma ApplyNeverAborts(db: Database, req: Request)
    ensures Apply(db, req).response.Reply?
  {
  }

  /**
   * Create with a decodable body stores a profile under `"user" + (|db| + 1)`
   * carrying the payload's name and gmail and a token that starts with the
   * name, returns it, and leaves every other key as it was; an undecodable
   * body changes nothing.
   */
  lemma CreateStoresUnderNextId(db: Database, req: Request)
    requires req.verb == METHOD_POST
    ensures req.body.Malformed? ==> Apply(db, req) == Outcome(INVALID_JSON, db)
    ensures req.body.Json? ==>
      var id := UserId(|db| + 1);
      var out := Apply(db, req);
      && out.db.Keys == db.Keys + {id}
      && out.db[id].id == id
      && out.db[id].name == req.body.payload.name
      && out.db[id].gmail == req.body.payload.gmail
      && HasPrefix(out.db[id].token, req.body.payload.name)
      && out.response == Reply(STATUS_OK, ProfileJson(out.db[id]))
      && (forall k :: k in db && k != id ==> out.db[k] == db[k])
  {
  }

  /**
   * When the next id is already taken, create overwrites that profile and the
   * store does not grow, so the next create targets the very same id again.
   */
  lemma CreateOverwritesTakenId(db: Database, req: Request)
    requires req.verb == METHOD_POST && req.body.Json?
    requires UserId(|db| + 1) in db
    ensures var out := Apply(db, req).db;
      && |out| == |db|
      && out[UserId(|db| + 1)] == Created(|db|, req.body.payload, req.tokenSuffix)
      && UserId(|out| + 1) == UserId(|db| + 1)
  {
  }

  /** When the next id is free, create grows the store by one, so the following create targets a different id. */
  lemma CreateAdvancesFreeId(db: Database, req: Request)
    requires req.verb == METHOD_POST && req.body.Json?
    requires UserId(|db| + 1) !in db
    ensures var out := Apply(db, req).db;
      && |out| == |db| + 1
      && UserId(|out| + 1) != UserId(|db| + 1)
  {
    ApplyUnfold(db, req);
    var out := Apply(db, req).db;
    assert out.Keys == db.Keys + {UserId(|db| + 1)};
    if UserId(|out| + 1) == UserId(|db| + 1) {
      UserIdInjective(|out| + 1, |db| + 1);
      assert false;
    }
  }

  /** Read returns the stored record unchanged, token included, and writes nothing. */
  lemma GetReturnsStoredRecord(db: Database, req: Request)
    requires req.verb == METHOD_GET
    ensures Apply(db, req).db == db
    ensures HasCredentials(db, req) ==>
      Apply(db, req).response == Reply(STATUS_OK, ProfileJson(db[req.clientId]))
    ensures !HasCredentials(db, req) ==> Apply(db, req).response == FORBIDDEN
  {
  }

  /** Repeating a read gives the same outcome. */
  lemma GetIdempotent(db: Database, req: Request)
    requires req.verb == METHOD_GET
    ensures Apply(Apply(db, req).db, req) == Apply(db, req)
  {
  }

  /**
   * Update answers with the merged profile but never writes it back: the
   * store is the same after any PATCH.
   */
  lemma PatchNeverPersists(db: Database, req: Request)
    requires req.verb == METHOD_PATCH
    ensures Apply(db, req).db == db
    ensures HasCredentials(db, req) && req.body.Json? ==>
      Apply(db, req).response == Reply(STATUS_OK, ProfileJson(Merge(db[req.clientId], req.body.payload)))
    ensures HasCredentials(db, req) && req.body.Malformed? ==> Apply(db, req).response == INVALID_JSON
    ensures !HasCredentials(db, req) ==> Apply(db, req).response == FORBIDDEN
  {
  }

  /** A read after an update still sees the record as it was before the update. */
  lemma PatchThenGetSeesOldRecord(db: Database, patch: Request, get: Request)
    requires patch.verb == METHOD_PATCH && get.verb == METHOD_GET
    requires HasCredentials(db, get)
    ensures Apply(Apply(db, patch).db, get).response == Reply(STATUS_OK, ProfileJson(db[get.clientId]))
  {
  }

  /** Delete removes exactly the authorized id and nothing else. */
  lemma DeleteRemovesExactly(db: Database, req: Request)
    requires KeysMatchIds(db)
    requires req.verb == METHOD_DELETE
    ensures HasCredentials(db, req) ==>
      Apply(db, req) == Outcome(Reply(STATUS_NO_CONTENT, NoContent), db - {req.clientId})
    ensures !HasCredentials(db, req) ==> Apply(db, req) == Outcome(FORBIDDEN, db)
  {
  }

  /** After a delete, any non-create request for the same id is refused. */
  lemma DeletedClientForbidden(db: Database, del: Request, next: Request)
    requires KeysMatchIds(db)
    requires del.verb == METHOD_DELETE && HasCredentials(db, del)
    requires next.verb != METHOD_POST && next.clientId == del.clientId
    ensures Apply(Apply(db, del).db, next) == Outcome(FORBIDDEN, Apply(db, del).db)
  {
  }

  /**
   * Delete removes the key named by the stored record's id, not the
   * `clientId`: in a store where the two differed, the record would stay.
   * The service never builds such a store (`ApplyKeepsIds`).
   */
  lemma DeleteFollowsStoredId(db: Database, req: Request)
    requires req.verb == METHOD_DELETE && HasCredentials(db, req)
    ensures Apply(db, req) == Outcome(Reply(STATUS_NO_CONTENT, NoContent), db - {db[req.clientId].id})
    ensures db[req.clientId].id != req.clientId ==> Apply(db, req).db[req.clientId] == db[req.clientId]
  {
  }

  /** The seed profile `user1` with token `john123`: the right header passes, a near miss and an absent id do not. */
  lemma SeedCredentials()
    ensures var db := SeedDatabase();
      && Apply(db, Request(METHOD_GET, "user1", "Bearer john123", Malformed, 0)).response
           == Reply(STATUS_OK, ProfileJson(db["user1"]))
      && Apply(db, Request(METHOD_GET, "user1", "Bearer john12", Malformed, 0)).response == FORBIDDEN
      && Apply(db, Request(METHOD_GET, "user3", "Bearer john123", Malformed, 0)).response == FORBIDDEN
  {
  }

  /**
   * From the seed store, deleting `user1` and then creating a profile files
   * the new profile under `user2`, replacing Michael's profile.
   */
  lemma SeedDeleteThenCreateOverwrites(payload: Profile, suffix: nat)
    ensures var db1 := Apply(SeedDatabase(), Request(METHOD_DELETE, "user1", "Bearer john123", Malformed, 0)).db;
      var db2 := Apply(db1, Request(METHOD_POST, "", "", Json(payload), suffix)).db;
      && db2.Keys == {"user2"}
      && db2["user2"] == Created(1, payload, suffix)
  {
    var db0 := SeedDatabase();
    var del := Request(METHOD_DELETE, "user1", "Bearer john123", Malformed, 0);
    DeleteRemovesExactly(db0, del);
    var db1 := Apply(db0, del).db;
    assert db1 == db0 - {"user1"};
    assert db1.Keys == {"user2"};
    assert |db1| == |db1.Keys| == 1;
    assert UserId(2) == "user2" by {
      assert NatToString(2) == "2";
    }
    var post := Request(METHOD_POST, "", "", Json(payload), suffix);
    ApplyUnfold(db1, post);
    assert Apply(db1, post).db == db1["user2" := Created(1, payload, suffix)];
  }
}
