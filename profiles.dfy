/**
 * The profile record, the seed contents of the store, and the pure pieces
 * of the handlers: how create names and keys a new profile, and how update
 * merges a payload into a profile.
 */
module Profiles {
  import opened Decimal

  datatype Option<T> = None | Some(value: T)

  /** One client profile: `ClientProfile` in the service. */
  datatype Profile = Profile(id: string, name: string, gmail: string, token: string)

  /**
   * A request body as the JSON decoder leaves it: either a decoded profile
   * (fields absent from the JSON are empty strings) or a decode failure.
   */
  datatype Body = Json(payload: Profile) | Malformed

  type Database = map<string, Profile>

  /** The store's contents when the process starts: two profiles, each filed under its own id. */
  function SeedDatabase(): (db: Database)
    ensures db.Keys == {"user1", "user2"} && |db| == 2
    ensures KeysMatchIds(db)
    ensures db["user1"].token == "john123" && db["user2"].token == "michael123"
  {
    assert "user1" != "user2" by { assert "user1"[4] != "user2"[4]; }
    map[
      "user1" := Profile("user1", "John Doe", "johndoe@gmail.com", "john123"),
      "user2" := Profile("user2", "Michael", "michael@gmail.com", "michael123")
    ]
  }

  /** Every stored profile is filed under its own id. */
  predicate KeysMatchIds(db: Database) {
    forall k :: k in db ==> db[k].id == k
  }

  const USER_ID_PREFIX := "user"

  /** The id create assigns when the store holds `n - 1` profiles: `"user%d"` of `n`. */
  function UserId(n: nat): (id: string)
    ensures |id| > |USER_ID_PREFIX| && id[..|USER_ID_PREFIX|] == USER_ID_PREFIX
  {
    USER_ID_PREFIX + NatToString(n)
  }

  /** Two sizes give the same generated id only when they are equal. */
  lemma UserIdInjective(n: nat, m: nat)
    requires UserId(n) == UserId(m)
    ensures n == m
  {
    var p := |USER_ID_PREFIX|;
    assert NatToString(n) == UserId(n)[p..];
    assert NatToString(m) == UserId(m)[p..];
    NatToStringInjective(n, m);
  }

  /** The generated token: the payload name followed by the random number in decimal. */
  function TokenFor(name: string, suffix: nat): (token: string)
    ensures |token| > |name| && token[..|name|] == name
    ensures forall i :: |name| <= i < |token| ==> IsDigit(token[i])
  {
    name + NatToString(suffix)
  }

  /**
   * The profile create builds when the store holds `size` profiles: only the
   * payload's name and gmail are used; its id and token are ignored.
   */
  function Created(size: nat, payload: Profile, suffix: nat): (p: Profile)
    ensures p.id == UserId(size + 1)
    ensures p.name == payload.name && p.gmail == payload.gmail
    ensures |p.token| > |p.name| && p.token[..|p.name|] == p.name
  {
    Profile(UserId(size + 1), payload.name, payload.gmail, TokenFor(payload.name, suffix))
  }

  /**
   * Update's merge: a non-empty payload field replaces the profile's field,
   * an empty one leaves it; id and token are never touched.
   */
  function Merge(p: Profile, payload: Profile): (r: Profile)
    ensures r.id == p.id && r.token == p.token
    ensures payload.name != "" ==> r.name == payload.name
    ensures payload.name == "" ==> r.name == p.name
    ensures payload.gmail != "" ==> r.gmail == payload.gmail
    ensures payload.gmail == "" ==> r.gmail == p.gmail
  {
    var withGmail := if payload.gmail != "" then p.(gmail := payload.gmail) else p;
    if payload.name != "" then withGmail.(name := payload.name) else withGmail
  }

  /** Merging the same payload twice is the same as merging it once. */
  lemma MergeIdempotent(p: Profile, payload: Profile)
    ensures Merge(Merge(p, payload), payload) == Merge(p, payload)
  {
  }

  /** A field cannot be cleared by update: a non-empty field stays non-empty. */
  lemma MergeNeverClears(p: Profile, payload: Profile)
    ensures p.name != "" ==> Merge(p, payload).name != ""
    ensures p.gmail != "" ==> Merge(p, payload).gmail != ""
  {
  }

  /** The payload's id and token play no part in the merge. */
  lemma MergeIgnoresIdAndToken(p: Profile, a: Profile, b: Profile)
    requires a.name == b.name && a.gmail == b.gmail
    ensures Merge(p, a) == Merge(p, b)
  {
  }
}
