/**
 * The decision logic of the playground's room module: resolving room
 * credentials (`prepare`), reusing the per-session user id (`joinRoom`) and
 * clearing generated attributes (`reset`). Browser storage, the network, the
 * confirmation dialog and the id generator appear as inputs.
 */
module Room {
  import opened Js

  // ---------------------------------------------------------------------------
  // Credential resolution (`prepare`)
  // ---------------------------------------------------------------------------

  /** The pair of locals `uuid`/`roomToken`; also the shape of a stored room and of createRoom's answer. */
  datatype Creds = Creds(uuid: Option<string>, roomToken: Option<string>)

  /** What `prepare` hands to `joinRoom`. */
  datatype RoomInfo = RoomInfo(uuid: string, roomToken: string)

  /** Compiled-in environment: default room and the optional admin token gating room creation. */
  datatype Env = Env(roomUuid: Option<string>, roomToken: Option<string>, adminToken: Option<string>)

  /** Both fields are truthy, so the pair can be used to join a room. */
  predicate Complete(c: Creds)
  {
    Truthy(c.uuid) && Truthy(c.roomToken)
  }

  function Info(c: Creds): RoomInfo
    requires Complete(c)
  {
    RoomInfo(c.uuid.value, c.roomToken.value)
  }

  /** The query pair; it is read only when both parameters are present. */
  function QueryCreds(query: map<string, string>): Creds
    requires "uuid" in query && "roomToken" in query
  {
    Creds(Some(query["uuid"]), Some(query["roomToken"]))
  }

  /** The sources consulted without asking the user, in order of precedence. */
  function Sources(query: map<string, string>, rooms: seq<Creds>, env: Env): seq<Creds>
  {
    (if "uuid" in query && "roomToken" in query then [QueryCreds(query)] else [])
    + (if |rooms| > 0 then [rooms[0]] else [])
    + [Creds(env.roomUuid, env.roomToken)]
  }

  /** All sources, the created room last; it exists only when gated open and confirmed. */
  function Candidates(query: map<string, string>, rooms: seq<Creds>, env: Env, confirmed: bool, created: Creds): seq<Creds>
  {
    Sources(query, rooms, env) + (if Truthy(env.adminToken) && confirmed then [created] else [])
  }

  /**
   * The reference definition of the precedence: the first candidate whose two
   * fields are both truthy, or nothing when there is none.
   */
  function FirstComplete(cs: seq<Creds>): (r: Option<RoomInfo>)
    ensures r.None? <==> forall i :: 0 <= i < |cs| ==> !Complete(cs[i])
    ensures forall i :: 0 <= i < |cs| && Complete(cs[i]) && (forall j :: 0 <= j < i ==> !Complete(cs[j]))
              ==> r == Some(Info(cs[i]))
    ensures r.Some? ==> r.value.uuid != "" && r.value.roomToken != ""
  {
    if cs == [] then None
    else if Complete(cs[0]) then Some(Info(cs[0]))
    else FirstComplete(cs[1..])
  }

  /** Resolving over a concatenation: the right part is consulted only when the left has no complete pair. */
  lemma {:induction false} FirstCompleteAppend(a: seq<Creds>, b: seq<Creds>)
    ensures FirstComplete(a + b) == if FirstComplete(a).Some? then FirstComplete(a) else FirstComplete(b)
  {
    if a != [] {
      assert (a + b)[1..] == a[1..] + b;
      FirstCompleteAppend(a[1..], b);
    } else {
      assert a + b == b;
    }
  }

  /**
   * `prepare`: the locals are reassigned step by step, as the source does.
   * `asked` says whether the user was asked to create a room, `reload`
   * whether a room was created (and the page reload requested).
   */
  method Prepare(query: map<string, string>, rooms: seq<Creds>, env: Env, confirmed: bool, created: Creds)
    returns (info: Option<RoomInfo>, asked: bool, reload: bool)
    ensures info == FirstComplete(Candidates(query, rooms, env, confirmed, created))
    ensures asked <==> Truthy(env.adminToken) && FirstComplete(Sources(query, rooms, env)).None?
    ensures reload <==> asked && confirmed
  {
    var uuid: Option<string> := None;
    var roomToken: Option<string> := None;
    ghost var tried: seq<Creds> := [];

    if "uuid" in query && "roomToken" in query {
      uuid, roomToken := Some(query["uuid"]), Some(query["roomToken"]);
      tried := [QueryCreds(query)];
    }
    assert FirstComplete(tried) == if Complete(Creds(uuid, roomToken)) then Some(Info(Creds(uuid, roomToken))) else None;

    if !Truthy(uuid) || !Truthy(roomToken) {
      if |rooms| > 0 {
        uuid, roomToken := rooms[0].uuid, rooms[0].roomToken;
      }
    }
    FirstCompleteAppend(tried, if |rooms| > 0 then [rooms[0]] else []);
    tried := tried + (if |rooms| > 0 then [rooms[0]] else []);
    assert FirstComplete(tried) == if Complete(Creds(uuid, roomToken)) then Some(Info(Creds(uuid, roomToken))) else None;

    if !Truthy(uuid) || !Truthy(roomToken) {
      uuid, roomToken := env.roomUuid, env.roomToken;
    }
    FirstCompleteAppend(tried, [Creds(env.roomUuid, env.roomToken)]);
    tried := tried + [Creds(env.roomUuid, env.roomToken)];
    assert tried == Sources(query, rooms, env);
    assert FirstComplete(tried) == if Complete(Creds(uuid, roomToken)) then Some(Info(Creds(uuid, roomToken))) else None;

    asked, reload := false, false;
    if (!Truthy(uuid) || !Truthy(roomToken)) && Truthy(env.adminToken) {
      asked := true;
      if confirmed {
        uuid, roomToken := created.uuid, created.roomToken;
        reload := true;
      }
    }
    FirstCompleteAppend(tried, if Truthy(env.adminToken) && confirmed then [created] else []);

    if !Truthy(uuid) || !Truthy(roomToken) {
      return None, asked, reload;
    }
    return Some(RoomInfo(uuid.value, roomToken.value)), asked, reload;
  }

  /** A query carrying both parameters, both non-empty, wins; stored rooms and defaults are ignored. */
  lemma QueryWins(query: map<string, string>, rooms: seq<Creds>, env: Env, confirmed: bool, created: Creds)
    requires "uuid" in query && "roomToken" in query
    requires query["uuid"] != "" && query["roomToken"] != ""
    ensures FirstComplete(Candidates(query, rooms, env, confirmed, created))
            == Some(RoomInfo(query["uuid"], query["roomToken"]))
  {
  }

  /** Otherwise a complete first stored room wins, even when the query held one of the two values. */
  lemma StoredRoomWins(query: map<string, string>, rooms: seq<Creds>, env: Env, confirmed: bool, created: Creds)
    requires !("uuid" in query && "roomToken" in query && query["uuid"] != "" && query["roomToken"] != "")
    requires |rooms| > 0 && Complete(rooms[0])
    ensures FirstComplete(Candidates(query, rooms, env, confirmed, created)) == Some(Info(rooms[0]))
  {
  }

  /**
   * With no complete query pair and no complete stored room, the environment
   * defaults win; the query's own values are then lost even if one was set.
   */
  lemma EnvDefaultsWin(query: map<string, string>, rooms: seq<Creds>, env: Env, confirmed: bool, created: Creds)
    requires !("uuid" in query && "roomToken" in query && query["uuid"] != "" && query["roomToken"] != "")
    requires |rooms| == 0 || !Complete(rooms[0])
    requires Truthy(env.roomUuid) && Truthy(env.roomToken)
    ensures FirstComplete(Candidates(query, rooms, env, confirmed, created))
            == Some(RoomInfo(env.roomUuid.value, env.roomToken.value))
  {
    var cs := Candidates(query, rooms, env, confirmed, created);
    var k := |Sources(query, rooms, env)| - 1;
    assert cs[k] == Creds(env.roomUuid, env.roomToken);
  }

  /**
   * The created room is used exactly when no source is complete, the admin
   * token is set and the user confirmed; without the admin token or the
   * confirmation, nothing complete means no room at all.
   */
  lemma CreatedRoomOnlyAsFallback(query: map<string, string>, rooms: seq<Creds>, env: Env, confirmed: bool, created: Creds)
    requires FirstComplete(Sources(query, rooms, env)).None?
    ensures FirstComplete(Candidates(query, rooms, env, confirmed, created))
            == if Truthy(env.adminToken) && confirmed && Complete(created) then Some(Info(created)) else None
  {
    FirstCompleteAppend(Sources(query, rooms, env), if Truthy(env.adminToken) && confirmed then [created] else []);
  }

  // ---------------------------------------------------------------------------
  // Per-session user id (`joinRoom`)
  // ---------------------------------------------------------------------------

  const UidKey: string := "uid"

  /** The session already holds a usable (truthy) user id. */
  predicate HasUid(items: map<string, string>)
  {
    UidKey in items && items[UidKey] != ""
  }

  /** The id `joinRoom` uses and the session storage it leaves behind. */
  datatype UidOutcome = UidOutcome(uid: string, items: map<string, string>)

  /** Get-or-create: a stored id is reused, otherwise the generated one is stored. */
  function SessionUid(items: map<string, string>, generated: string): (r: UidOutcome)
    ensures HasUid(items) ==> r.uid == items[UidKey] && r.items == items
    ensures !HasUid(items) ==> r.uid == generated && r.items == items[UidKey := generated]
    ensures UidKey in r.items && r.items[UidKey] == r.uid
    ensures r.items.Keys == items.Keys + {UidKey}
    ensures forall k :: k in items && k != UidKey ==> r.items[k] == items[k]
  {
    if HasUid(items) then UidOutcome(items[UidKey], items)
    else UidOutcome(generated, items[UidKey := generated])
  }

  /** A second join in the same session uses the id of the first and changes nothing. */
  lemma SecondJoinReusesUid(items: map<string, string>, generated1: string, generated2: string)
    requires generated1 != ""
    ensures SessionUid(SessionUid(items, generated1).items, generated2) == SessionUid(items, generated1)
  {
  }

  /** The browser's `sessionStorage`. */
  class SessionStorage {
    var items: map<string, string>

    constructor (items: map<string, string>)
      ensures this.items == items
    {
      this.items := items;
    }

    /** The uid part of `joinRoom`; `generated` is the generated uuid, which is never empty. */
    method JoinUid(generated: string) returns (uid: string)
      requires generated != ""
      modifies this
      ensures uid == SessionUid(old(items), generated).uid
      ensures items == SessionUid(old(items), generated).items
      ensures uid != ""
    {
      var stored: Option<string> := if UidKey in items then Some(items[UidKey]) else None;
      if !Truthy(stored) {
        uid := generated;
        items := items[UidKey := uid];
      } else {
        uid := stored.value;
      }
    }
  }

  // ---------------------------------------------------------------------------
  // Attribute cleanup (`reset`)
  // ---------------------------------------------------------------------------

  /** The character class `[-_a-zA-Z0-9]` (the alphabet of the generated suffix). */
  predicate IdChar(c: char)
  {
    c == '-' || c == '_' || 'a' <= c <= 'z' || 'A' <= c <= 'Z' || '0' <= c <= '9'
  }

  /** `[-_a-zA-Z0-9]{n}` matches the n characters of `key` from position i. */
  function RunOfIdChars(key: string, i: nat, n: nat): (r: bool)
    requires i <= |key|
    ensures r <==> i + n <= |key| && forall j :: i <= j < i + n ==> IdChar(key[j])
    decreases n
  {
    if n == 0 then true
    else i < |key| && IdChar(key[i]) && RunOfIdChars(key, i + 1, n - 1)
  }

  /** `-[-_a-zA-Z0-9]{8}$` matches with its `-` at position i. */
  predicate MatchesAt(key: string, i: nat)
    requires i <= |key|
  {
    i < |key| && key[i] == '-' && RunOfIdChars(key, i + 1, 8) && i + 9 == |key|
  }

  /** The unanchored search of `RegExp.prototype.test`: try every start position from i on. */
  function SearchFrom(key: string, i: nat): (r: bool)
    requires i <= |key|
    ensures r <==> exists j :: i <= j <= |key| && MatchesAt(key, j)
    decreases |key| - i
  {
    MatchesAt(key, i) || (i < |key| && SearchFrom(key, i + 1))
  }

  /** `/-[-_a-zA-Z0-9]{8}$/.test(key)`: the key has the `{kind}-{nanoid(8)}` shape. */
  predicate IsGeneratedKey(key: string)
  {
    SearchFrom(key, 0)
  }

  /** The pattern holds exactly of keys ending in `-` and eight characters of the class. */
  lemma GeneratedKeyShape(key: string)
    ensures IsGeneratedKey(key) <==>
            |key| >= 9 && key[|key| - 9] == '-' && forall j :: |key| - 8 <= j < |key| ==> IdChar(key[j])
  {
    if |key| >= 9 && key[|key| - 9] == '-' && forall j :: |key| - 8 <= j < |key| ==> IdChar(key[j]) {
      assert MatchesAt(key, |key| - 9);
    }
  }

  /** The reserved `"apps"` bucket is never taken for a generated key. */
  lemma AppsIsNotGenerated()
    ensures !IsGeneratedKey("apps")
  {
  }

  /** The table `reset` leaves behind: generated keys gone, `"apps"` emptied, the rest untouched. */
  function Cleaned(attrs: map<string, Json>): (r: map<string, Json>)
    ensures forall k :: k in r <==> k in attrs && !IsGeneratedKey(k)
    ensures "apps" in attrs ==> "apps" in r && r["apps"] == EmptyObject
    ensures forall k :: k in r && k != "apps" ==> r[k] == attrs[k]
  {
    AppsIsNotGenerated();
    map k | k in attrs && !IsGeneratedKey(k) :: if k == "apps" then EmptyObject else attrs[k]
  }

  /** The table after the keys outside `pending` have been visited by the cleanup loop. */
  ghost function CleanedOutside(attrs: map<string, Json>, pending: set<string>): map<string, Json>
  {
    map k | k in attrs && (k in pending || !IsGeneratedKey(k)) ::
      if k == "apps" && k !in pending then EmptyObject else attrs[k]
  }

  /** The window manager's shared attribute table. */
  class Manager {
    var attributes: map<string, Json>

    constructor (attributes: map<string, Json>)
      ensures this.attributes == attributes
    {
      this.attributes := attributes;
    }

    /** `updateAttributes([key], value)`: `undefined` removes the key, anything else replaces it. */
    method UpdateAttribute(key: string, value: Option<Json>)
      modifies this
      ensures value.None? ==> attributes == old(attributes) - {key}
      ensures value.Some? ==> attributes == old(attributes)[key := value.value]
    {
      if value.None? {
        attributes := attributes - {key};
      } else {
        attributes := attributes[key := value.value];
      }
    }

    /** The attribute part of `reset`, visiting the snapshot of keys in any order. */
    method ClearAttributes()
      modifies this
      ensures attributes == Cleaned(old(attributes))
    {
      ghost var original := attributes;
      var pending := attributes.Keys;
      while pending != {}
        invariant pending <= original.Keys
        invariant attributes == CleanedOutside(original, pending)
        decreases pending
      {
        var key :| key in pending;
        if IsGeneratedKey(key) {
          UpdateAttribute(key, None);
        } else if key == "apps" {
          UpdateAttribute(key, Some(EmptyObject));
        }
        pending := pending - {key};
        assert attributes == CleanedOutside(original, pending);
      }
      assert attributes == Cleaned(original);
    }
  }
}
