/** The authentication context: the role claim carried by the access token,
    the `canAccess` privilege map, and the session fields `isAuthenticated`,
    `userType` and `userInfo` that `login`, `logout` and the restore effect
    set. Token storage and JWT decoding are outside the model: what decoding
    a token yields is passed in. */
module Auth {
  import opened Common

  /** The token's `user_type` claim: either one role or a list of roles. */
  datatype RoleClaim = Single(role: string) | Many(roles: seq<string>)

  datatype User = User(id: int, email: string, firstName: string, lastName: string, username: string)
  datatype Student = Student(id: int, cms: int, batch: int, classSection: string, studentClass: string, user: int)

  datatype TokenPayload = TokenPayload(userType: RoleClaim, user: User, student: Option<Student>)

  /** What `decodeToken` does with a token: returns its payload or throws. */
  datatype Decoded = Payload(payload: TokenPayload) | DecodeError(message: string)

  /** `{ user, student }` as `getUserInfo` returns it. */
  datatype UserInfo = UserInfo(user: User, student: Option<Student>)

  /** `Array.isArray(c) ? c : [c]`. */
  function Normalize(c: RoleClaim): seq<string>
  {
    match c
    case Single(role) => [role]
    case Many(roles) => roles
  }

  /** A list claim is kept as it is; a single role becomes a one-element list
      holding just that role. */
  lemma NormalizeSpec(c: RoleClaim)
    ensures c.Many? ==> Normalize(c) == c.roles
    ensures c.Single? ==> |Normalize(c)| == 1 && Normalize(c)[0] == c.role
    ensures forall x :: x in Normalize(c) <==> (c.Single? && x == c.role) || (c.Many? && x in c.roles)
  {
  }

  // -------------------------------------------------------------- canAccess

  /** The access map: the roles allowed onto each of the four known targets;
      `None` for any other target. */
  function AllowList(target: string): Option<seq<string>>
  {
    if target == "Student" then Some(["Student", "CR", "BP", "NSFT"])
    else if target == "CR" then Some(["CR", "BP", "NSFT"])
    else if target == "BP" then Some(["BP", "NSFT"])
    else if target == "NSFT" then Some(["NSFT"])
    else None
  }

  /** `roles.some(role => allowed.includes(role))`. */
  function SomeIn(roles: seq<string>, allowed: seq<string>): bool
  {
    roles != [] && (roles[0] in allowed || SomeIn(roles[1..], allowed))
  }

  lemma {:induction false} SomeInSpec(roles: seq<string>, allowed: seq<string>)
    ensures SomeIn(roles, allowed) <==> exists i :: 0 <= i < |roles| && roles[i] in allowed
  {
    if roles != [] {
      SomeInSpec(roles[1..], allowed);
      if exists i :: 0 <= i < |roles| && roles[i] in allowed {
        var i :| 0 <= i < |roles| && roles[i] in allowed;
        if i > 0 {
          assert roles[1..][i - 1] in allowed;
        }
      }
      if SomeIn(roles[1..], allowed) {
        var i :| 0 <= i < |roles[1..]| && roles[1..][i] in allowed;
        assert roles[i + 1] in allowed;
      }
    }
  }

  /** The value `canAccess(target)` returns for the session's `userType`
      whenever it returns at all (see `CanAccessCall` for the targets on
      which it throws). */
  function CanAccess(userType: Option<seq<string>>, target: string): bool
  {
    if userType.None? || |userType.value| == 0 then false
    else if AllowList(target).None? then false
    else SomeIn(userType.value, AllowList(target).value)
  }

  /** The names a plain object literal inherits from `Object.prototype`.
      Looking one of them up in the access map yields a function (or, for
      `__proto__`, the prototype itself): a truthy value that has no
      `includes` method. */
  predicate InheritedKey(target: string)
  {
    target in {"constructor", "hasOwnProperty", "isPrototypeOf", "propertyIsEnumerable",
               "toLocaleString", "toString", "valueOf", "__proto__",
               "__defineGetter__", "__defineSetter__", "__lookupGetter__", "__lookupSetter__"}
  }

  /** One call of `canAccess(target)`: `Some(b)` when it returns `b`, `None`
      when it throws. An inherited key passes the unknown-target guard, and
      the first role's `includes` call then throws a `TypeError`. */
  function CanAccessCall(userType: Option<seq<string>>, target: string): Option<bool>
  {
    if userType.None? || |userType.value| == 0 then Some(false)
    else if AllowList(target).Some? then Some(SomeIn(userType.value, AllowList(target).value))
    else if InheritedKey(target) then None
    else Some(false)
  }

  /** The call throws exactly when roles are present and the target is an
      inherited key; otherwise it returns `CanAccess`. */
  lemma CanAccessCallSpec(userType: Option<seq<string>>, target: string)
    ensures CanAccessCall(userType, target).None? <==>
              userType.Some? && |userType.value| > 0 && InheritedKey(target)
    ensures CanAccessCall(userType, target).Some? ==>
              CanAccessCall(userType, target).value == CanAccess(userType, target)
  {
  }

  /** The privilege order behind the map: NSFT above BP above CR above
      Student; 0 for a string that is no role. */
  function Rank(role: string): nat
  {
    if role == "NSFT" then 4
    else if role == "BP" then 3
    else if role == "CR" then 2
    else if role == "Student" then 1
    else 0
  }

  lemma AllowListByRank(target: string, role: string)
    ensures AllowList(target).Some? <==> Rank(target) > 0
    ensures AllowList(target).Some? ==> (role in AllowList(target).value <==> Rank(role) >= Rank(target))
  {
  }

  /** `canAccess(t)` holds exactly when the target is one of the four roles
      and the user holds a role at least as privileged: NSFT opens all four
      targets, BP opens BP, CR and Student, CR opens CR and Student, and
      Student opens only Student. Null or empty role lists open nothing. */
  lemma CanAccessByRank(userType: Option<seq<string>>, target: string)
    ensures CanAccess(userType, target) <==>
              userType.Some? && Rank(target) > 0 &&
              exists i :: 0 <= i < |userType.value| && Rank(userType.value[i]) >= Rank(target)
  {
    if userType.Some? {
      var roles := userType.value;
      SomeInSpec(roles, if AllowList(target).Some? then AllowList(target).value else []);
      forall i | 0 <= i < |roles|
        ensures AllowList(target).Some? ==> (roles[i] in AllowList(target).value <==> Rank(roles[i]) >= Rank(target))
      {
        AllowListByRank(target, roles[i]);
      }
      AllowListByRank(target, "");
    }
  }

  /** No role list and no unknown target is ever granted access: a null or
      empty role list returns false for every target, an unknown target
      returns false unless it is an inherited key, on which the call throws
      as soon as roles are present. */
  lemma CanAccessRejects(userType: Option<seq<string>>, target: string)
    ensures userType.None? ==> CanAccessCall(userType, target) == Some(false)
    ensures userType == Some([]) ==> CanAccessCall(userType, target) == Some(false)
    ensures target !in {"Student", "CR", "BP", "NSFT"} && !InheritedKey(target) ==>
              CanAccessCall(userType, target) == Some(false)
    ensures target !in {"Student", "CR", "BP", "NSFT"} && InheritedKey(target) ==>
              CanAccessCall(userType, target) == (if userType.Some? && |userType.value| > 0 then None else Some(false))
    ensures CanAccessCall(userType, target) == Some(true) ==> target in {"Student", "CR", "BP", "NSFT"}
  {
  }

  /** Holding more roles never takes access away. */
  lemma CanAccessMonotone(a: seq<string>, b: seq<string>, target: string)
    requires forall i :: 0 <= i < |a| ==> a[i] in b
    ensures CanAccess(Some(a), target) ==> CanAccess(Some(b), target)
  {
    CanAccessByRank(Some(a), target);
    CanAccessByRank(Some(b), target);
    if CanAccess(Some(a), target) {
      var i :| 0 <= i < |a| && Rank(a[i]) >= Rank(target);
      var j :| 0 <= j < |b| && b[j] == a[i];
    }
  }

  /** Matching is exact: a role list none of whose entries is spelt exactly
      as one of the four roles opens no target. */
  lemma CanAccessNeedsExactRole(roles: seq<string>, target: string)
    requires forall i :: 0 <= i < |roles| ==> roles[i] !in {"Student", "CR", "BP", "NSFT"}
    ensures !CanAccess(Some(roles), target)
  {
    CanAccessByRank(Some(roles), target);
  }

  /** Matching is case-sensitive: roles spelt in lowercase open no target. */
  lemma CanAccessIsExactCase(target: string)
    ensures !CanAccess(Some(["nsft", "bp", "cr", "student"]), target)
  {
    CanAccessNeedsExactRole(["nsft", "bp", "cr", "student"], target);
  }

  // -------------------------------------------------------------- session

  /** A token is present when it is stored and not the empty string. */
  predicate Present(token: Option<string>)
  {
    token.Some? && token.value != ""
  }

  /** `getUserInfo()` for the stored token and what decoding it yields. */
  function StoredUserInfo(token: Option<string>, decoded: Decoded): Option<UserInfo>
  {
    if !Present(token) then None
    else if decoded.DecodeError? then None
    else Some(UserInfo(decoded.payload.user, decoded.payload.student))
  }

  /** The role list decoded from the stored token, or null. */
  function StoredUserType(token: Option<string>, decoded: Decoded): Option<seq<string>>
  {
    if !Present(token) then None
    else if decoded.DecodeError? then None
    else Some(Normalize(decoded.payload.userType))
  }

  /** The session a fresh `StoredUserInfo`/`StoredUserType` pair describes:
      user info and roles are known exactly when the token is present and
      decodes, and they come from that payload. */
  lemma StoredSessionSpec(token: Option<string>, decoded: Decoded)
    ensures StoredUserType(token, decoded).Some? <==> Present(token) && decoded.Payload?
    ensures StoredUserInfo(token, decoded).Some? <==> StoredUserType(token, decoded).Some?
    ensures StoredUserType(token, decoded).Some? ==>
              StoredUserType(token, decoded).value == Normalize(decoded.payload.userType) &&
              StoredUserInfo(token, decoded).value.user == decoded.payload.user
  {
  }

  datatype SessionState = SessionState(
    accessToken: Option<string>,
    refreshToken: Option<string>,
    isAuthenticated: bool,
    userType: Option<seq<string>>,
    userInfo: Option<UserInfo>)

  /** The provider's state together with the two stored tokens. */
  class AuthSession {
    var accessToken: Option<string>
    var refreshToken: Option<string>
    var isAuthenticated: bool
    var userType: Option<seq<string>>
    var userInfo: Option<UserInfo>

    function State(): SessionState
      reads this
    {
      SessionState(accessToken, refreshToken, isAuthenticated, userType, userInfo)
    }

    /** The provider's initial state: authenticated iff a token is stored,
        with the roles and user info decoded from it (null when decoding
        fails). */
    constructor (access: Option<string>, refresh: Option<string>, decoded: Decoded)
      ensures accessToken == access && refreshToken == refresh
      ensures isAuthenticated == Present(access)
      ensures userType == StoredUserType(access, decoded)
      ensures userInfo == StoredUserInfo(access, decoded)
    {
      accessToken := access;
      refreshToken := refresh;
      isAuthenticated := Present(access);
      userType := StoredUserType(access, decoded);
      userInfo := StoredUserInfo(access, decoded);
    }

    /** `canAccess` on the current roles: `None` when the call throws. */
    function CanAccessTarget(target: string): Option<bool>
      reads this
    {
      CanAccessCall(userType, target)
    }

    /** The mount effect: with a stored token, reloads user info and roles
        (roles null when the token does not decode) and marks the session
        authenticated even then; without one, changes nothing. */
    method Restore(decoded: Decoded)
      modifies this
      ensures !Present(old(accessToken)) ==> State() == old(State())
      ensures Present(old(accessToken)) ==>
                State() == old(State()).(isAuthenticated := true,
                                         userType := StoredUserType(accessToken, decoded),
                                         userInfo := StoredUserInfo(accessToken, decoded))
      ensures Present(old(accessToken)) && decoded.DecodeError? ==> isAuthenticated && userType.None?
    {
      if Present(accessToken) {
        userInfo := StoredUserInfo(accessToken, decoded);
        if decoded.Payload? {
          userType := Some(Normalize(decoded.payload.userType));
        } else {
          userType := None;
        }
        isAuthenticated := true;
      }
    }

    /** `login(access, refresh)`: stores both tokens and reloads user info;
        when the access token decodes, sets the normalised roles and marks
        the session authenticated; when it does not, `decodeToken` throws
        after the tokens and user info were written, and roles and the
        authenticated flag stay as they were. */
    method Login(access: string, refresh: string, decoded: Decoded) returns (thrown: Option<string>)
      modifies this
      ensures decoded.Payload? ==>
                thrown.None? &&
                State() == SessionState(Some(access), Some(refresh), true,
                                        Some(Normalize(decoded.payload.userType)),
                                        StoredUserInfo(Some(access), decoded))
      ensures decoded.DecodeError? ==>
                thrown == Some(decoded.message) &&
                State() == old(State()).(accessToken := Some(access), refreshToken := Some(refresh),
                                         userInfo := StoredUserInfo(Some(access), decoded))
    {
      accessToken := Some(access);
      refreshToken := Some(refresh);
      userInfo := StoredUserInfo(accessToken, decoded);
      if decoded.DecodeError? {
        thrown := Some(decoded.message);
        return;
      }
      userType := Some(Normalize(decoded.payload.userType));
      isAuthenticated := true;
      thrown := None;
    }

    /** `logout()`: forgets the tokens and the whole session, then goes to
        the login page. */
    method Logout() returns (navigateTo: string)
      modifies this
      ensures State() == SessionState(None, None, false, None, None)
      ensures navigateTo == "/login"
    {
      accessToken := None;
      refreshToken := None;
      isAuthenticated := false;
      userInfo := None;
      userType := None;
      navigateTo := "/login";
    }
  }
}
