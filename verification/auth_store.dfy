/** The session store: the current user and token cached in memory and persisted in
    the browser's key-value storage, read back lazily by the `user` and `token` getters. */
module AuthStore {
  import opened Entities
  import opened Permissions

  const USER_KEY: string := "OA_USER_KEY"
  const TOKEN_KEY: string := "OA_TOKEN_KEY"

  /** The durable key-value store (localStorage) the session is persisted in. */
  type Storage = map<string, string>

  /** localStorage.getItem: the stored text, or None (null) when the key is absent. */
  function GetItem(st: Storage, key: string): (r: Option<string>)
    ensures r.Some? <==> key in st
    ensures r.Some? ==> r.value == st[key]
  {
    if key in st then Some(st[key]) else None
  }

  /** True iff the text is truthy: present and not the empty string. */
  predicate Truthy(text: Option<string>) {
    text.Some? && text.value != ""
  }

  /** The store's whole state: the two cached fields and the backing storage. */
  datatype State = State(user: User, token: string, storage: Storage)

  /** What a getter returns, together with the state it leaves behind. */
  datatype Read<T> = Read(result: T, after: State)

  /** A store just created over `storage`: nothing cached yet. */
  function Fresh(storage: Storage): State {
    State(EMPTY_USER, "", storage)
  }

  /** setUserToken: cache both values and persist them under the two keys. */
  function WithUserToken(s: State, c: Codec, u: User, t: string): State {
    State(u, t, s.storage[USER_KEY := c.encode(u)][TOKEN_KEY := t])
  }

  /** clearUserToken: reset the cache and remove both keys. */
  function Cleared(s: State): State {
    State(EMPTY_USER, "", s.storage - {USER_KEY, TOKEN_KEY})
  }

  /** The `user` getter. While the cached record is empty it consults storage; truthy
      text there is parsed and cached (a parse failure escapes as a SyntaxError and
      leaves the state alone). It returns the cached record. */
  function ReadUser(s: State, c: Codec): Read<Result<User>> {
    if !IsEmpty(s.user) then Read(Ok(s.user), s)
    else
      var text := GetItem(s.storage, USER_KEY);
      if !Truthy(text) then Read(Ok(s.user), s)
      else match c.decode(text.value)
        case None => Read(Err(SyntaxError), s)
        case Some(v) => Read(Ok(v), s.(user := v))
  }

  /** The `token` getter. While the cached token is empty it consults storage and
      caches truthy text found there. It returns the cached token. */
  function ReadToken(s: State): Read<string> {
    if s.token != "" then Read(s.token, s)
    else
      var text := GetItem(s.storage, TOKEN_KEY);
      if Truthy(text) then Read(text.value, s.(token := text.value))
      else Read(s.token, s)
  }

  /** `is_logined`: the user read has an attribute and the token read is non-empty.
      The `&&` short-circuits, so the token is not read when the user is empty. */
  function ReadLogined(s: State, c: Codec): Read<Result<bool>> {
    var ru := ReadUser(s, c);
    match ru.result
    case Err(f) => Read(Err(f), ru.after)
    case Ok(u) =>
      if IsEmpty(u) then Read(Ok(false), ru.after)
      else
        var rt := ReadToken(ru.after);
        Read(Ok(rt.result != ""), rt.after)
  }

  /** `own_permissions`: the mask for the is_logined value and the user. When logged
      in, the user is read again from the now non-empty cache, which returns the
      cached record and changes nothing (ReadUserCached), so the cache is used here. */
  function ReadOwnPermissions(s: State, c: Codec): Read<Result<Mask>> {
    var rl := ReadLogined(s, c);
    match rl.result
    case Err(f) => Read(Err(f), rl.after)
    case Ok(logined) => Read(OwnPermissions(logined, rl.after.user), rl.after)
  }

  /** `permissions.map(p => (p & own_permissions.value) == p)`: the callback reads
      own_permissions once per element, so an empty list reads nothing. A fault in a
      read escapes from the map. Every read after the first repeats it
      (ReadsAreStable), so the whole map reads once (ReadResultsOnce). */
  function ReadResults(s: State, c: Codec, ps: seq<Mask>): Read<Result<seq<bool>>>
    decreases |ps|
  {
    if ps == [] then Read(Ok([]), s)
    else
      var ro := ReadOwnPermissions(s, c);
      match ro.result
      case Err(f) => Read(Err(f), ro.after)
      case Ok(own) =>
        var rest := ReadResults(ro.after, c, ps[1..]);
        match rest.result
        case Err(f) => Read(Err(f), rest.after)
        case Ok(bs) => Read(Ok([Satisfies(ps[0], own)] + bs), rest.after)
  }

  /** `has_permission`: map the requirements, then combine the answers. */
  function ReadHasPermission(s: State, c: Codec, ps: seq<Mask>, opt: string := "|"): Read<Result<bool>> {
    var rr := ReadResults(s, c, ps);
    match rr.result
    case Err(f) => Read(Err(f), rr.after)
    case Ok(results) => Read(Ok(Combine(results, opt)), rr.after)
  }

  // Properties of the writes

  /** setUserToken puts `u` and `t` in memory, the serialised `u` and `t` under the two
      keys, and changes no other key. */
  lemma SetUserTokenWrites(s: State, c: Codec, u: User, t: string)
    ensures var r := WithUserToken(s, c, u, t);
      r.user == u && r.token == t &&
      GetItem(r.storage, USER_KEY) == Some(c.encode(u)) &&
      GetItem(r.storage, TOKEN_KEY) == Some(t) &&
      forall k :: k != USER_KEY && k != TOKEN_KEY ==> GetItem(r.storage, k) == GetItem(s.storage, k)
  {
  }

  /** clearUserToken empties memory, removes exactly the two keys, and leaves the
      session logged out. */
  lemma ClearUserTokenLogsOut(s: State, c: Codec)
    ensures var r := Cleared(s);
      r.user == EMPTY_USER && r.token == "" &&
      GetItem(r.storage, USER_KEY) == None && GetItem(r.storage, TOKEN_KEY) == None &&
      (forall k :: k != USER_KEY && k != TOKEN_KEY ==> GetItem(r.storage, k) == GetItem(s.storage, k)) &&
      ReadUser(r, c) == Read(Ok(EMPTY_USER), r) &&
      ReadToken(r) == Read("", r) &&
      ReadLogined(r, c) == Read(Ok(false), r)
  {
  }

  /** Clearing twice leaves the same state as clearing once. */
  lemma ClearUserTokenIdempotent(s: State)
    ensures Cleared(Cleared(s)) == Cleared(s)
  {
  }

  // Properties of the reads

  /** No getter writes to storage. */
  lemma ReadsKeepStorage(s: State, c: Codec, ps: seq<Mask>, opt: string)
    ensures ReadUser(s, c).after.storage == s.storage
    ensures ReadToken(s).after.storage == s.storage
    ensures ReadLogined(s, c).after.storage == s.storage
    ensures ReadOwnPermissions(s, c).after.storage == s.storage
    ensures ReadHasPermission(s, c, ps, opt).after.storage == s.storage
  {
    if ps != [] {
      ReadResultsOnce(s, c, ps);
    }
  }

  /** A non-empty cached user is returned as it is, whatever storage holds. */
  lemma ReadUserCached(s: State, c: Codec)
    requires !IsEmpty(s.user)
    ensures ReadUser(s, c) == Read(Ok(s.user), s)
  {
  }

  /** A non-empty cached token is returned as it is, whatever storage holds. */
  lemma ReadTokenCached(s: State)
    requires s.token != ""
    ensures ReadToken(s) == Read(s.token, s)
  {
  }

  /** With an empty cache the user getter returns what storage holds: the parsed record
      when the text is truthy and parses, which is then cached; a SyntaxError when it
      does not parse; the empty record when there is no truthy text. */
  lemma ReadUserLoads(s: State, c: Codec)
    requires IsEmpty(s.user)
    ensures var text := GetItem(s.storage, USER_KEY);
      var r := ReadUser(s, c);
      (!Truthy(text) ==> r == Read(Ok(EMPTY_USER), s)) &&
      (Truthy(text) && c.decode(text.value).None? ==> r == Read(Err(SyntaxError), s)) &&
      (Truthy(text) && c.decode(text.value).Some? ==>
        r.result == Ok(c.decode(text.value).value) && r.after == s.(user := r.result.value))
  {
  }

  /** With an empty cache the token getter returns and caches truthy stored text,
      and otherwise returns "". */
  lemma ReadTokenLoads(s: State)
    requires s.token == ""
    ensures var text := GetItem(s.storage, TOKEN_KEY);
      (Truthy(text) ==> ReadToken(s) == Read(text.value, s.(token := text.value))) &&
      (!Truthy(text) ==> ReadToken(s) == Read("", s))
  {
  }

  /** Reading again right after a read gives the same answer and changes nothing more. */
  lemma ReadsAreStable(s: State, c: Codec)
    ensures var r := ReadUser(s, c); ReadUser(r.after, c) == Read(r.result, r.after)
    ensures var r := ReadToken(s); ReadToken(r.after) == Read(r.result, r.after)
    ensures var r := ReadLogined(s, c); ReadLogined(r.after, c) == Read(r.result, r.after)
    ensures var r := ReadOwnPermissions(s, c); ReadOwnPermissions(r.after, c) == Read(r.result, r.after)
  {
  }

  /** Mapping a non-empty list reads own_permissions as a single read would: it faults
      as that read does, and otherwise yields the pure answers for the mask it reads. */
  lemma {:induction false} ReadResultsOnce(s: State, c: Codec, ps: seq<Mask>)
    requires ps != []
    decreases |ps|
    ensures var ro := ReadOwnPermissions(s, c);
      ReadResults(s, c, ps) ==
        if ro.result.Err? then Read(Err(ro.result.fault), ro.after)
        else Read(Ok(Results(ps, ro.result.value)), ro.after)
  {
    var ro := ReadOwnPermissions(s, c);
    if ro.result.Ok? && |ps| > 1 {
      ReadsAreStable(s, c);
      ReadResultsOnce(ro.after, c, ps[1..]);
    }
  }

  /** is_logined is true exactly when, after the reads, the cached user has an attribute
      and the cached token is non-empty. */
  lemma LoginedMeansBoth(s: State, c: Codec)
    requires ReadLogined(s, c).result.Ok?
    ensures var r := ReadLogined(s, c);
      r.result.value <==> !IsEmpty(r.after.user) && r.after.token != ""
  {
  }

  // Round trips

  /** After setUserToken, the same store reads back the user and token from its cache,
      and a store created afresh over the same storage (a page reload) reads them back
      from storage. */
  lemma ReloadRoundTrip(s: State, c: Codec, u: User, t: string)
    requires ValidCodec(c)
    ensures var r := WithUserToken(s, c, u, t);
      ReadUser(r, c).result == Ok(u) && ReadToken(r).result == t
    ensures var reloaded := Fresh(WithUserToken(s, c, u, t).storage);
      ReadUser(reloaded, c).result == Ok(u) && ReadToken(reloaded).result == t
  {
  }

  /** After setUserToken with a non-empty user and token, the session is logged in and
      its mask is the one derived from `u`, both in the same store and after a reload. */
  lemma LoginRoundTrip(s: State, c: Codec, u: User, t: string)
    requires ValidCodec(c)
    requires !IsEmpty(u) && t != ""
    ensures var r := WithUserToken(s, c, u, t);
      ReadLogined(r, c) == Read(Ok(true), r) &&
      ReadOwnPermissions(r, c) == Read(OwnPermissions(true, u), r)
    ensures var reloaded := Fresh(WithUserToken(s, c, u, t).storage);
      ReadLogined(reloaded, c).result == Ok(true) &&
      ReadOwnPermissions(reloaded, c).result == OwnPermissions(true, u)
  {
  }

  /** An empty requirement list is answered without reading anything, even when the
      persisted user text is malformed. */
  lemma HasPermissionEmptyReadsNothing(s: State, c: Codec, opt: string)
    ensures ReadHasPermission(s, c, [], opt) == Read(Ok(opt != "|"), s)
    ensures ReadHasPermission(s, c, []) == Read(Ok(false), s)
  {
  }

  /** has_permission faults exactly when own_permissions does on a non-empty list, and
      otherwise combines the requirements with the mask own_permissions derives. */
  lemma HasPermissionUsesOwnPermissions(s: State, c: Codec, ps: seq<Mask>, opt: string)
    requires ps != []
    ensures var ro := ReadOwnPermissions(s, c);
      var rh := ReadHasPermission(s, c, ps, opt);
      rh.after == ro.after &&
      (ro.result.Err? ==> rh.result == Err(ro.result.fault)) &&
      (ro.result.Ok? ==> rh.result == Ok(HasPermission(ps, ro.result.value, opt)))
  {
    ReadResultsOnce(s, c, ps);
  }

  /** The store object: the `_user` and `_token` cache fields, the storage they are
      persisted in, and the codec standing for JSON. */
  class Store {
    var user: User
    var token: string
    var storage: Storage
    const codec: Codec

    function Snapshot(): State
      reads this
    {
      State(user, token, storage)
    }

    constructor (storage: Storage, codec: Codec)
      ensures Snapshot() == Fresh(storage) && this.codec == codec
    {
      user := EMPTY_USER;
      token := "";
      this.storage := storage;
      this.codec := codec;
    }

    method SetUserToken(u: User, t: string)
      modifies this
      ensures Snapshot() == WithUserToken(old(Snapshot()), codec, u, t)
    {
      user := u;
      token := t;
      storage := storage[USER_KEY := codec.encode(u)];
      storage := storage[TOKEN_KEY := t];
    }

    method ClearUserToken()
      modifies this
      ensures Snapshot() == Cleared(old(Snapshot()))
    {
      user := EMPTY_USER;
      token := "";
      storage := storage - {USER_KEY};
      storage := storage - {TOKEN_KEY};
    }

    method GetUser() returns (r: Result<User>)
      modifies this
      ensures Read(r, Snapshot()) == ReadUser(old(Snapshot()), codec)
    {
      if IsEmpty(user) {
        var text := GetItem(storage, USER_KEY);
        if Truthy(text) {
          var parsed := codec.decode(text.value);
          if parsed.None? {
            return Err(SyntaxError);
          }
          user := parsed.value;
        }
      }
      r := Ok(user);
    }

    method GetToken() returns (r: string)
      modifies this
      ensures Read(r, Snapshot()) == ReadToken(old(Snapshot()))
    {
      if token == "" {
        var text := GetItem(storage, TOKEN_KEY);
        if Truthy(text) {
          token := text.value;
        }
      }
      r := token;
    }

    method IsLogined() returns (r: Result<bool>)
      modifies this
      ensures Read(r, Snapshot()) == ReadLogined(old(Snapshot()), codec)
    {
      var u :- GetUser();
      if IsEmpty(u) {
        return Ok(false);
      }
      var t := GetToken();
      r := Ok(t != "");
    }

    method OwnPermissions() returns (r: Result<Mask>)
      modifies this
      ensures Read(r, Snapshot()) == ReadOwnPermissions(old(Snapshot()), codec)
    {
      var logined :- IsLogined();
      var u := user;
      if logined {
        u :- GetUser();
      }
      r := Permissions.OwnPermissions(logined, u);
    }

    method HasPermission(ps: seq<Mask>, opt: string := "|") returns (r: Result<bool>)
      modifies this
      ensures Read(r, Snapshot()) == ReadHasPermission(old(Snapshot()), codec, ps, opt)
    {
      ghost var first := ReadOwnPermissions(Snapshot(), codec);
      var results: seq<bool> := [];
      var i := 0;
      while i < |ps|
        invariant 0 <= i <= |ps|
        invariant i == 0 ==> Snapshot() == old(Snapshot()) && results == []
        invariant i > 0 ==>
          first.result.Ok? && Snapshot() == first.after && results == Results(ps[..i], first.result.value)
      {
        ReadsAreStable(old(Snapshot()), codec);
        var own := OwnPermissions();
        if own.Err? {
          ReadResultsOnce(old(Snapshot()), codec, ps);
          return Err(own.fault);
        }
        assert ps[..i + 1] == ps[..i] + [ps[i]];
        results := results + [Satisfies(ps[i], own.value)];
        i := i + 1;
      }
      if ps != [] {
        assert ps[..i] == ps;
        ReadResultsOnce(old(Snapshot()), codec, ps);
      }
      r := Ok(Combine(results, opt));
    }
  }

  /** A page reload: a second store over the first one's storage reads back what the
      first one persisted. */
  method Reload(c: Codec, storage: Storage, u: User, t: string) returns (ru: Result<User>, rt: string)
    requires ValidCodec(c)
    ensures ru == Ok(u) && rt == t
  {
    var before := new Store(storage, c);
    before.SetUserToken(u, t);
    var after := new Store(before.storage, c);
    ru := after.GetUser();
    rt := after.GetToken();
    ReloadRoundTrip(Fresh(storage), c, u, t);
  }
}
