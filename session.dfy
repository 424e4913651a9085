/**
 * The session state holder (`AuthService`, utils/authService.js): the signed-in
 * user record, the authentication and admin flags, the registered listeners,
 * and the four local-storage keys that mirror the session. Backend answers
 * (profile lookup, profile creation, sign-out, profile update) are parameters
 * of the methods; every listener invocation is recorded in `calls`.
 */
module Session {
  import opened JsValues

  /** A value kept in local storage; `Serialized(r)` stands for `JSON.stringify(r)`. */
  datatype Stored = Text(s: string) | Serialized(user: Record)

  type ListenerId = nat

  /** What every listener receives: `{user, isAuthenticated, isAdmin}`. */
  datatype Snapshot = Snapshot(user: Option<Record>, isAuthenticated: bool, isAdmin: bool)

  /** One listener invocation; `threw` records that the callback raised, which
      the holder catches and only logs. */
  datatype Call = Call(listener: ListenerId, snapshot: Snapshot, threw: bool)

  /** The error of the profile lookup, with its PostgREST code if any. */
  datatype FetchError = FetchError(code: Option<string>)

  /** The answer of `from('users').select('*').eq('id', user.id).single()`,
      or `LookupThrew` when that call raises instead of answering. */
  datatype ProfileFetch = ProfileFetch(error: Option<FetchError>, profile: Option<Record>) | LookupThrew

  /** The answer of the profile insert. */
  datatype CreateOutcome = Created(row: Record) | CreateError | CreateThrew

  /** A backend insert `setUser` issues. */
  datatype Insert = Insert(table: string, row: Record)

  const NoRowsCode := "PGRST116"

  const UserAuthenticatedKey := "userAuthenticated"
  const CurrentUserKey := "currentUser"
  const AdminAuthenticatedKey := "adminAuthenticated"
  const AdminUserKey := "adminUser"

  const SessionKeys: set<string> :=
    {UserAuthenticatedKey, CurrentUserKey, AdminAuthenticatedKey, AdminUserKey}

  /** `record.role === 'admin'` */
  predicate HasAdminRole(r: Record)
  {
    "role" in r && r["role"] == Str("admin")
  }

  /** `user.user_metadata?.<k>`, `None` for `undefined`. */
  function Metadata(user: Record, k: string): Option<Value>
  {
    if "user_metadata" in user && user["user_metadata"].Obj? && k in user["user_metadata"].fields
    then Some(user["user_metadata"].fields[k])
    else None
  }

  /** `a || b` over possibly-undefined values. */
  function OrElse(a: Option<Value>, b: Option<Value>): Option<Value>
  {
    if a.Some? && Truthy(a.value) then a else b
  }

  /** The columns that the inserted profile row and the fallback profile
      both set: the metadata's account type or else `individual`, role
      `user` and status `active`. */
  function WithPlainDefaults(r: Record, user: Record): (r': Record)
    ensures r'.Keys == r.Keys + {"account_type", "role", "status"}
    ensures r'["account_type"] == OrElse(Metadata(user, "account_type"), Some(Str("individual"))).value
    ensures r'["role"] == Str("user") && r'["status"] == Str("active")
    ensures forall k :: k != "account_type" && k != "role" && k != "status" ==> Field(r', k) == Field(r, k)
  {
    var accountType := OrElse(Metadata(user, "account_type"), Some(Str("individual")));
    r["account_type" := accountType.value]["role" := Str("user")]["status" := Str("active")]
  }

  /** The in-memory profile used when creating the profile row fails. */
  function FallbackUser(user: Record): (u: Record)
  {
    WithPlainDefaults(SetField(user, "name", DisplayName(user)), user)
  }

  /** `setUser` stops early: the lookup raised (caught by its outer `catch`)
      or answered with an error other than "no rows". */
  predicate GivesUp(fetch: ProfileFetch)
  {
    fetch.LookupThrew? || (fetch.error.Some? && fetch.error.value.code != Some(NoRowsCode))
  }

  // ---------------------------------------------------------------------
  // The profile row `setUser` inserts for a new user
  // ---------------------------------------------------------------------

  const AvatarPrefix := "https://ui-avatars.com/api/?name="
  const AvatarSuffix := "&background=random"

  /** The columns of the inserted profile row. */
  const ProfileColumns: set<string> :=
    {"id", "email", "name", "account_type", "avatar_url", "role", "status"}

  /** The characters `encodeURIComponent` leaves as they are. */
  predicate IsUnreserved(c: char)
  {
    || ('A' <= c <= 'Z') || ('a' <= c <= 'z') || ('0' <= c <= '9')
    || c == '-' || c == '_' || c == '.' || c == '!' || c == '~' || c == '*' || c == '\'' || c == '(' || c == ')'
  }

  function HexDigit(d: nat): (c: char)
    requires d < 16
    ensures IsUnreserved(c)
  {
    if d < 10 then '0' + d as char else 'A' + (d - 10) as char
  }

  /** The UTF-8 bytes of a character. */
  function Utf8(c: char): (bs: seq<nat>)
    ensures 1 <= |bs| <= 4
    ensures forall k :: 0 <= k < |bs| ==> bs[k] < 256
  {
    var v := c as int;
    if v < 0x80 then [v]
    else if v < 0x800 then [0xC0 + v / 0x40, 0x80 + v % 0x40]
    else if v < 0x1_0000 then [0xE0 + v / 0x1000, 0x80 + (v / 0x40) % 0x40, 0x80 + v % 0x40]
    else [0xF0 + v / 0x4_0000, 0x80 + (v / 0x1000) % 0x40, 0x80 + (v / 0x40) % 0x40, 0x80 + v % 0x40]
  }

  /** `%XX` for each byte, upper-case hexadecimal. */
  function PercentBytes(bs: seq<nat>): (e: string)
    requires forall k :: 0 <= k < |bs| ==> bs[k] < 256
    ensures |e| == 3 * |bs|
    ensures forall k :: 0 <= k < |e| ==> e[k] == '%' || IsUnreserved(e[k])
  {
    if bs == [] then []
    else ['%', HexDigit(bs[0] / 16), HexDigit(bs[0] % 16)] + PercentBytes(bs[1..])
  }

  /** `encodeURIComponent(s)`: unreserved characters stay, every other
      character becomes the percent-escapes of its UTF-8 bytes. */
  function EncodeUriComponent(s: string): (e: string)
    ensures |e| >= |s|
    ensures forall k :: 0 <= k < |e| ==> e[k] == '%' || IsUnreserved(e[k])
  {
    if s == [] then []
    else (if IsUnreserved(s[0]) then [s[0]] else PercentBytes(Utf8(s[0]))) + EncodeUriComponent(s[1..])
  }

  /** Text made only of unreserved characters is left unchanged. */
  lemma {:induction false} EncodeKeepsUnreserved(s: string)
    requires forall k :: 0 <= k < |s| ==> IsUnreserved(s[k])
    ensures EncodeUriComponent(s) == s
  {
    if s != [] {
      EncodeKeepsUnreserved(s[1..]);
    }
  }

  /** Encoding works character by character: an unreserved character is kept
      and any other becomes the percent-escapes of its UTF-8 bytes. */
  lemma EncodeFirstChar(c: char, t: string)
    ensures EncodeUriComponent([c] + t)
      == (if IsUnreserved(c) then [c] else PercentBytes(Utf8(c))) + EncodeUriComponent(t)
  {
    assert ([c] + t)[1..] == t;
  }

  /** Encoding distributes over concatenation. */
  lemma {:induction false} EncodeAppend(s: string, t: string)
    ensures EncodeUriComponent(s + t) == EncodeUriComponent(s) + EncodeUriComponent(t)
    decreases |s|
  {
    if s == [] {
      assert s + t == t;
    } else {
      var head := if IsUnreserved(s[0]) then [s[0]] else PercentBytes(Utf8(s[0]));
      assert s + t == [s[0]] + (s[1..] + t);
      assert s == [s[0]] + s[1..];
      calc {
        EncodeUriComponent(s + t);
        { EncodeFirstChar(s[0], s[1..] + t); }
        head + EncodeUriComponent(s[1..] + t);
        { EncodeAppend(s[1..], t); }
        head + (EncodeUriComponent(s[1..]) + EncodeUriComponent(t));
        (head + EncodeUriComponent(s[1..])) + EncodeUriComponent(t);
        { EncodeFirstChar(s[0], s[1..]); }
        EncodeUriComponent(s) + EncodeUriComponent(t);
      }
    }
  }

  function IntegerText(i: int): string
  {
    if i < 0 then "-" + Decimal(-i) else Decimal(i)
  }

  /** `${v}` for a value read from the auth user (`None` is `undefined`). */
  function TemplateText(v: Option<Value>): string
  {
    match v
    case None => "undefined"
    case Some(Null) => "null"
    case Some(Bool(b)) => if b then "true" else "false"
    case Some(Num(n)) => IntegerText(n.Floor)
    case Some(Str(t)) => t
    case Some(Obj(_)) => "[object Object]"
    case Some(File(_)) => "[object File]"
  }

  /** `user.user_metadata?.name || user.email` */
  function DisplayName(user: Record): Option<Value>
  {
    OrElse(Metadata(user, "name"), Field(user, "email"))
  }

  /** The generated avatar URL for a user without one. */
  function GeneratedAvatar(user: Record): string
  {
    AvatarPrefix + EncodeUriComponent(TemplateText(DisplayName(user))) + AvatarSuffix
  }

  /** The `id`, `email` and `name` columns of the inserted row. */
  function IdentityColumns(user: Record): (r: Record)
    ensures r.Keys <= {"id", "email", "name"}
    ensures Field(r, "id") == Field(user, "id") && Field(r, "email") == Field(user, "email")
    ensures Field(r, "name") == DisplayName(user)
  {
    SetField(SetField(SetField(map[], "id", Field(user, "id")), "email", Field(user, "email")), "name", DisplayName(user))
  }

  /** The row inserted into `users` when no profile exists; `undefined`
      columns are left out, as serialisation drops them. */
  function NewProfileRow(user: Record): Record
  {
    var avatar := OrElse(Metadata(user, "avatar_url"), Some(Str(GeneratedAvatar(user))));
    WithPlainDefaults(IdentityColumns(user)["avatar_url" := avatar.value], user)
  }

  /** The `user_stats` row inserted after the profile row was created. */
  function StatsRow(user: Record): Record
  {
    SetField(map["total_donations" := Num(0.0), "total_trades" := Num(0.0),
                 "total_food_saved" := Num(0.0), "total_impact_score" := Num(0.0)],
             "user_id", Field(user, "id"))
  }

  /** The generated avatar names a string display name by its encoding, and a
      user with neither a truthy metadata name nor an e-mail as `undefined`. */
  lemma AvatarNameText(user: Record)
    ensures DisplayName(user).Some? && DisplayName(user).value.Str? ==>
      GeneratedAvatar(user) == AvatarPrefix + EncodeUriComponent(DisplayName(user).value.s) + AvatarSuffix
    ensures DisplayName(user).None? ==> GeneratedAvatar(user) == AvatarPrefix + "undefined" + AvatarSuffix
  {
    if DisplayName(user).None? {
      EncodeKeepsUnreserved("undefined");
    }
  }

  /** The stats row starts every total at zero and belongs to the auth user. */
  lemma StatsRowStartsAtZero(user: Record)
    ensures var row := StatsRow(user);
      && row.Keys == {"total_donations", "total_trades", "total_food_saved", "total_impact_score"}
                     + (if "id" in user then {"user_id"} else {})
      && row["total_donations"] == Num(0.0) && row["total_trades"] == Num(0.0)
      && row["total_food_saved"] == Num(0.0) && row["total_impact_score"] == Num(0.0)
      && Field(row, "user_id") == Field(user, "id")
  {
  }

  /** The inserts `setUser` issues, in order. */
  function SetUserInserts(user: Record, fetch: ProfileFetch, create: CreateOutcome): seq<Insert>
  {
    if GivesUp(fetch) || fetch.profile.Some? then []
    else [Insert("users", NewProfileRow(user))] + (if create.Created? then [Insert("user_stats", StatsRow(user))] else [])
  }

  /** The user record `setUser` settles on, or `None` when it gives up early. */
  function ResolvedUser(user: Record, fetch: ProfileFetch, create: CreateOutcome): Option<Record>
  {
    if GivesUp(fetch) then None
    else if fetch.profile.None? then
      match create
      case Created(row) => Some(user + row)
      case _ => Some(FallbackUser(user))
    else Some(user + fetch.profile.value)
  }

  /** The storage writes of `setUser`. */
  function StoreSession(storage: map<string, Stored>, u: Record): map<string, Stored>
  {
    var st := storage[UserAuthenticatedKey := Text("true")][CurrentUserKey := Serialized(u)];
    if HasAdminRole(u) then st[AdminAuthenticatedKey := Text("true")][AdminUserKey := Serialized(u)]
    else st
  }

  /** The invocations of one broadcast, in registration order. */
  function Broadcast(ls: seq<ListenerId>, snap: Snapshot, throwing: set<ListenerId>): (cs: seq<Call>)
    ensures |cs| == |ls|
    ensures forall i :: 0 <= i < |ls| ==> cs[i] == Call(ls[i], snap, ls[i] in throwing)
  {
    if ls == [] then []
    else Broadcast(ls[..|ls| - 1], snap, throwing) + [Call(ls[|ls| - 1], snap, ls[|ls| - 1] in throwing)]
  }

  /** The listener list after the function returned by `addListener` runs:
      every occurrence of `l` goes, the others stay in order. */
  function Without(ls: seq<ListenerId>, l: ListenerId): (r: seq<ListenerId>)
    ensures forall x :: x in r <==> x in ls && x != l
    ensures |r| <= |ls|
  {
    if ls == [] then []
    else (if ls[0] == l then [] else [ls[0]]) + Without(ls[1..], l)
  }

  class AuthService {
    var currentUser: Option<Record>
    var isAuthenticated: bool
    var isAdmin: bool
    var listeners: seq<ListenerId>
    var storage: map<string, Stored>
    var calls: seq<Call>
    var inserts: seq<Insert>

    ghost predicate Valid()
      reads this
    {
      && (isAuthenticated <==> currentUser.Some?)
      && (isAdmin ==> isAuthenticated)
    }

    function Current(): Snapshot
      reads this
    {
      Snapshot(currentUser, isAuthenticated, isAdmin)
    }

    /** The holder starts signed out; local storage keeps what an earlier
        visit left there. */
    constructor (initialStorage: map<string, Stored>)
      ensures Valid()
      ensures currentUser == None && !isAuthenticated && !isAdmin
      ensures listeners == [] && storage == initialStorage && calls == [] && inserts == []
    {
      currentUser := None;
      isAuthenticated := false;
      isAdmin := false;
      listeners := [];
      storage := initialStorage;
      calls := [];
      inserts := [];
    }

    function GetCurrentUser(): Option<Record>
      reads this
    {
      currentUser
    }

    function IsUserAuthenticated(): bool
      reads this
    {
      isAuthenticated
    }

    function IsUserAdmin(): bool
      reads this
    {
      isAdmin
    }

    method NotifyListeners(throwing: set<ListenerId>)
      modifies this`calls
      ensures calls == old(calls) + Broadcast(listeners, Current(), throwing)
    {
      var snap := Current();
      var i := 0;
      while i < |listeners|
        invariant 0 <= i <= |listeners|
        invariant calls == old(calls) + Broadcast(listeners[..i], snap, throwing)
      {
        assert listeners[..i + 1][..i] == listeners[..i];
        calls := calls + [Call(listeners[i], snap, listeners[i] in throwing)];
        i := i + 1;
      }
      assert listeners[..i] == listeners;
    }

    method AddListener(l: ListenerId)
      modifies this`listeners
      ensures listeners == old(listeners) + [l]
    {
      listeners := listeners + [l];
    }

    /** Runs the unsubscribe function `addListener(l)` returned. */
    method RemoveListener(l: ListenerId)
      modifies this`listeners
      ensures listeners == Without(old(listeners), l)
    {
      listeners := Without(listeners, l);
    }

    method SetUser(user: Record, fetch: ProfileFetch, create: CreateOutcome, throwing: set<ListenerId>)
      requires Valid()
      modifies this
      ensures Valid()
      ensures listeners == old(listeners)
      ensures inserts == old(inserts) + SetUserInserts(user, fetch, create)
      ensures ResolvedUser(user, fetch, create).None? ==>
        && currentUser == old(currentUser) && isAuthenticated == old(isAuthenticated)
        && isAdmin == old(isAdmin) && storage == old(storage) && calls == old(calls)
      ensures ResolvedUser(user, fetch, create).Some? ==>
        var u := ResolvedUser(user, fetch, create).value;
        && currentUser == Some(u) && isAuthenticated && isAdmin == HasAdminRole(u)
        && storage == StoreSession(old(storage), u)
        && calls == old(calls) + Broadcast(listeners, Snapshot(Some(u), true, HasAdminRole(u)), throwing)
    {
      var resolved := ResolvedUser(user, fetch, create);
      if resolved.None? {
        return;
      }
      inserts := inserts + SetUserInserts(user, fetch, create);
      var u := resolved.value;
      currentUser := Some(u);
      isAuthenticated := true;
      isAdmin := HasAdminRole(u);
      storage := storage[UserAuthenticatedKey := Text("true")][CurrentUserKey := Serialized(u)];
      if isAdmin {
        storage := storage[AdminAuthenticatedKey := Text("true")][AdminUserKey := Serialized(u)];
      }
      NotifyListeners(throwing);
    }

    method ClearUser(throwing: set<ListenerId>)
      modifies this
      ensures Valid()
      ensures currentUser == None && !isAuthenticated && !isAdmin
      ensures storage == old(storage) - SessionKeys
      ensures listeners == old(listeners) && inserts == old(inserts)
      ensures calls == old(calls) + Broadcast(listeners, Snapshot(None, false, false), throwing)
    {
      currentUser := None;
      isAuthenticated := false;
      isAdmin := false;
      storage := storage - {UserAuthenticatedKey} - {CurrentUserKey} - {AdminAuthenticatedKey} - {AdminUserKey};
      NotifyListeners(throwing);
    }

    /** `signOut`: `backendError` is the error of the backend's sign-out call. */
    method SignOut(backendError: Option<string>, throwing: set<ListenerId>) returns (r: Result<(), string>)
      requires Valid()
      modifies this
      ensures Valid()
      ensures listeners == old(listeners) && inserts == old(inserts)
      ensures backendError.Some? ==>
        && r == Failure(backendError.value)
        && currentUser == old(currentUser) && isAuthenticated == old(isAuthenticated)
        && isAdmin == old(isAdmin) && storage == old(storage) && calls == old(calls)
      ensures backendError.None? ==>
        && r == Success(())
        && currentUser == None && !isAuthenticated && !isAdmin
        && storage == old(storage) - SessionKeys
        && calls == old(calls) + Broadcast(listeners, Snapshot(None, false, false), throwing)
    {
      if backendError.Some? {
        return Failure(backendError.value);
      }
      ClearUser(throwing);
      r := Success(());
    }

    /** `updateProfile`: `backendError` is the error of the backend's update. */
    method UpdateProfile(updates: Record, backendError: Option<string>, throwing: set<ListenerId>)
      returns (r: Result<(), string>)
      requires Valid()
      modifies this
      ensures Valid()
      ensures listeners == old(listeners) && inserts == old(inserts)
      ensures isAuthenticated == old(isAuthenticated) && isAdmin == old(isAdmin)
      ensures old(currentUser).None? ==>
        && r == Failure("No user logged in")
        && currentUser == old(currentUser) && storage == old(storage) && calls == old(calls)
      ensures old(currentUser).Some? && backendError.Some? ==>
        && r == Failure(backendError.value)
        && currentUser == old(currentUser) && storage == old(storage) && calls == old(calls)
      ensures old(currentUser).Some? && backendError.None? ==>
        var u := old(currentUser).value + updates;
        && r == Success(())
        && currentUser == Some(u)
        && storage == old(storage)[CurrentUserKey := Serialized(u)]
        && calls == old(calls) + Broadcast(listeners, Snapshot(Some(u), isAuthenticated, isAdmin), throwing)
    {
      if currentUser.None? {
        return Failure("No user logged in");
      }
      if backendError.Some? {
        return Failure(backendError.value);
      }
      var u := currentUser.value + updates;
      currentUser := Some(u);
      storage := storage[CurrentUserKey := Serialized(u)];
      NotifyListeners(throwing);
      r := Success(());
    }
  }

  // ---------------------------------------------------------------------
  // Properties of the specification functions
  // ---------------------------------------------------------------------

  /** A lookup error other than "no rows" makes `setUser` give up. */
  lemma OnlyNoRowsErrorProceeds(user: Record, fetch: ProfileFetch, create: CreateOutcome)
    ensures ResolvedUser(user, fetch, create).None? <==>
      fetch.LookupThrew? || (fetch.error.Some? && fetch.error.value.code != Some(NoRowsCode))
  {
  }

  /** A found profile overrides the auth user's fields; the others are kept. */
  lemma ProfileOverridesAuthUser(user: Record, fetch: ProfileFetch, create: CreateOutcome, k: string)
    requires fetch.ProfileFetch? && fetch.error.None? && fetch.profile.Some?
    ensures ResolvedUser(user, fetch, create).Some?
    ensures var u := ResolvedUser(user, fetch, create).value;
      && (k in fetch.profile.value ==> k in u && u[k] == fetch.profile.value[k])
      && (k !in fetch.profile.value ==> (k in u <==> k in user) && (k in user ==> u[k] == user[k]))
  {
  }

  /** When creating the profile fails, the fallback is an active, non-admin
      user whose name defaults to the e-mail and account type to `individual`. */
  lemma FallbackIsPlainUser(user: Record, fetch: ProfileFetch, create: CreateOutcome)
    requires fetch.ProfileFetch? && (fetch.error.None? || fetch.error.value.code == Some(NoRowsCode))
    requires fetch.profile.None? && !create.Created?
    ensures ResolvedUser(user, fetch, create).Some?
    ensures var u := ResolvedUser(user, fetch, create).value;
      && u["role"] == Str("user") && u["status"] == Str("active")
      && !HasAdminRole(u)
      && u["account_type"] == (if Metadata(user, "account_type").Some? && Truthy(Metadata(user, "account_type").value)
                               then Metadata(user, "account_type").value else Str("individual"))
      && ("name" in u <==> (Metadata(user, "name").Some? && Truthy(Metadata(user, "name").value)) || "email" in user)
      && (Metadata(user, "name").None? && "email" in user ==> u["name"] == user["email"])
  {
  }

  /** The inserted profile row is an active, non-admin user with the auth
      user's id and e-mail, and no other columns than the seven listed. */
  lemma NewProfileRowDefaults(user: Record)
    ensures var row := NewProfileRow(user);
      && row.Keys <= ProfileColumns
      && row["role"] == Str("user") && row["status"] == Str("active") && !HasAdminRole(row)
      && Field(row, "id") == Field(user, "id") && Field(row, "email") == Field(user, "email")
  {
  }

  /** The inserted row and the in-memory fallback share the name and
      account-type defaults, and are both plain active users. */
  lemma NewProfileMatchesFallback(user: Record)
    ensures var row := NewProfileRow(user);
      var fallback := FallbackUser(user);
      && Field(row, "name") == Field(fallback, "name")
      && "account_type" in fallback && row["account_type"] == fallback["account_type"]
      && "role" in fallback && row["role"] == fallback["role"]
      && "status" in fallback && row["status"] == fallback["status"]
  {
    var avatar := OrElse(Metadata(user, "avatar_url"), Some(Str(GeneratedAvatar(user)))).value;
    var identity := IdentityColumns(user);
    assert "name" != "role" by { assert "name"[0] != "role"[0]; }
    assert Field(FallbackUser(user), "name") == Field(SetField(user, "name", DisplayName(user)), "name");
    assert Field(NewProfileRow(user), "name") == Field(identity["avatar_url" := avatar], "name") == Field(identity, "name");
  }

  /** The avatar is the one in the metadata when truthy, else the generated
      one, whose name parameter holds only unreserved characters and escapes
      and so cannot break out of the query. */
  lemma NewProfileAvatar(user: Record)
    ensures var avatar := Metadata(user, "avatar_url");
      NewProfileRow(user)["avatar_url"] ==
        if avatar.Some? && Truthy(avatar.value) then avatar.value else Str(GeneratedAvatar(user))
    ensures var e := EncodeUriComponent(TemplateText(DisplayName(user)));
      && GeneratedAvatar(user) == AvatarPrefix + e + AvatarSuffix
      && forall k :: 0 <= k < |e| ==> e[k] == '%' || IsUnreserved(e[k])
  {
  }

  /** A profile row is inserted exactly when the lookup found none and did not
      fail; the stats row follows only when that insert succeeded. */
  lemma InsertsOnlyForNewUser(user: Record, fetch: ProfileFetch, create: CreateOutcome)
    ensures var ins := SetUserInserts(user, fetch, create);
      && (|ins| > 0 <==> !GivesUp(fetch) && fetch.profile.None?)
      && (|ins| > 0 ==> ins[0] == Insert("users", NewProfileRow(user)))
      && (|ins| == 2 <==> |ins| > 0 && create.Created?)
      && (|ins| == 2 ==> ins[1].table == "user_stats" && Field(ins[1].row, "user_id") == Field(user, "id"))
      && |ins| <= 2
  {
  }

  /** `setUser` writes the two user keys, writes the two admin keys only for
      an admin, and never removes a key. */
  lemma StoreSessionKeys(storage: map<string, Stored>, u: Record)
    ensures var st := StoreSession(storage, u);
      && st[UserAuthenticatedKey] == Text("true") && st[CurrentUserKey] == Serialized(u)
      && storage.Keys <= st.Keys
      && (HasAdminRole(u) ==> st[AdminAuthenticatedKey] == Text("true") && st[AdminUserKey] == Serialized(u))
      && (!HasAdminRole(u) ==> forall k :: k in SessionKeys - {UserAuthenticatedKey, CurrentUserKey} ==>
            (k in st <==> k in storage) && (k in storage ==> st[k] == storage[k]))
  {
  }

  /** Every registered listener is called once, in order, with one snapshot,
      whether or not any of them throws. */
  lemma {:induction false} BroadcastAppend(a: seq<ListenerId>, b: seq<ListenerId>, snap: Snapshot, throwing: set<ListenerId>)
    ensures Broadcast(a + b, snap, throwing) == Broadcast(a, snap, throwing) + Broadcast(b, snap, throwing)
    decreases |b|
  {
    if b == [] {
      assert a + b == a;
    } else {
      var b' := b[..|b| - 1];
      assert (a + b)[..|a + b| - 1] == a + b';
      BroadcastAppend(a, b', snap, throwing);
    }
  }

  lemma {:induction false} WithoutAbsent(ls: seq<ListenerId>, l: ListenerId)
    requires l !in ls
    ensures Without(ls, l) == ls
    decreases |ls|
  {
    if ls != [] {
      WithoutAbsent(ls[1..], l);
    }
  }

  lemma {:induction false} WithoutAppend(a: seq<ListenerId>, b: seq<ListenerId>, l: ListenerId)
    ensures Without(a + b, l) == Without(a, l) + Without(b, l)
    decreases |a|
  {
    if a == [] {
      assert a + b == b;
    } else {
      assert (a + b)[1..] == a[1..] + b;
      WithoutAppend(a[1..], b, l);
    }
  }

  /** Adding a new listener and running its unsubscribe function restores the
      list exactly; the others keep their order. */
  lemma AddThenRemoveRestores(ls: seq<ListenerId>, l: ListenerId)
    requires l !in ls
    ensures Without(ls + [l], l) == ls
  {
    WithoutAppend(ls, [l], l);
    WithoutAbsent(ls, l);
  }
}
