/**
 * The credential gate that runs in front of every request: the bearer-token
 * check and the three-way decision (let through unchecked, reject, or hand
 * the looked-up profile on).
 */
module Auth {
  import opened Profiles

  const BEARER_PREFIX := "Bearer "
  const METHOD_POST := "POST"

  /** `strings.HasPrefix`: `s` is `prefix` followed by some rest. */
  predicate HasPrefix(s: string, prefix: string): (b: bool)
    ensures b <==> exists rest :: s == prefix + rest
  {
    if |prefix| <= |s| && s[..|prefix|] == prefix then
      assert s == prefix + s[|prefix|..];
      true
    else
      assert forall rest :: |prefix| <= |prefix + rest| && (prefix + rest)[..|prefix|] == prefix;
      false
  }

  /** `strings.TrimPrefix`: drops `prefix` when `s` starts with it, else returns `s`. */
  function TrimPrefix(s: string, prefix: string): (r: string)
    ensures HasPrefix(s, prefix) ==> prefix + r == s
    ensures !HasPrefix(s, prefix) ==> r == s
  {
    if HasPrefix(s, prefix) then s[|prefix|..] else s
  }

  /**
   * The token check on an `Authorization` header value: it is accepted
   * exactly when it is the literal `"Bearer "` followed by the profile's
   * whole token, nothing more and nothing less.
   */
  function IsValidToken(profile: Profile, header: string): (ok: bool)
    ensures ok <==> header == BEARER_PREFIX + profile.token
  {
    if HasPrefix(header, BEARER_PREFIX) then
      assert header == BEARER_PREFIX + TrimPrefix(header, BEARER_PREFIX);
      TrimPrefix(header, BEARER_PREFIX) == profile.token
    else
      false
  }

  /** A header that does not start with `"Bearer "` is refused, whatever follows. */
  lemma NoBearerPrefixRejected(profile: Profile, header: string)
    requires !HasPrefix(header, BEARER_PREFIX)
    ensures !IsValidToken(profile, header)
  {
  }

  /** What the gate decides for one request. */
  datatype Gate =
    | Pass                  // creation is public: no check at all
    | Deny                  // 403 Forbidden, whichever check failed
    | Grant(profile: Profile) // the looked-up profile goes to the handler

  /**
   * The gate's decision from the request method (`verb`), the `clientId` query value
   * (empty when absent) and the `Authorization` header (empty when absent).
   */
  function Authorize(db: Database, verb: string, clientId: string, header: string): (g: Gate)
    ensures g.Pass? <==> verb == METHOD_POST
    ensures g.Grant? <==>
      verb != METHOD_POST && clientId != "" && clientId in db &&
      header == BEARER_PREFIX + db[clientId].token
    ensures g.Grant? ==> clientId in db && g.profile == db[clientId]
  {
    if verb == METHOD_POST then Pass
    else if clientId !in db || clientId == "" then Deny
    else if !IsValidToken(db[clientId], header) then Deny
    else Grant(db[clientId])
  }
}
