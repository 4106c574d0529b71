/** The route guard (`ProtectedRoute`) and the landing page chosen after a
    login: both compare lowercased roles and fall back on the same
    "highest role wins" ladder nsft > bp > cr > student/personal > '/'. */
module Routing {
  import opened Common
  import opened Auth

  /** `roles.map(r => r.toLowerCase())`. */
  function LowerAll(roles: seq<string>): (r: seq<string>)
    ensures |r| == |roles|
    ensures forall i :: 0 <= i < |roles| ==> r[i] == Lower(roles[i])
  {
    if roles == [] then []
    else [Lower(roles[0])] + LowerAll(roles[1..])
  }

  /** The dashboard a user with the given lowercased roles is sent to. */
  function Dashboard(lowered: seq<string>): string
  {
    if "nsft" in lowered then "/nsft/dashboard"
    else if "bp" in lowered then "/bp/dashboard"
    else if "cr" in lowered then "/cr/dashboard"
    else if "student" in lowered || "personal" in lowered then "/student/dashboard"
    else "/"
  }

  /** The rank order the ladder follows, one role at a time. */
  function LandingRank(role: string): nat
  {
    if role == "nsft" then 4
    else if role == "bp" then 3
    else if role == "cr" then 2
    else if role == "student" || role == "personal" then 1
    else 0
  }

  function RankTarget(rank: nat): string
  {
    if rank == 4 then "/nsft/dashboard"
    else if rank == 3 then "/bp/dashboard"
    else if rank == 2 then "/cr/dashboard"
    else if rank == 1 then "/student/dashboard"
    else "/"
  }

  /** The highest `LandingRank` among the roles (0 for none). */
  function TopRank(lowered: seq<string>): (r: nat)
    ensures forall i :: 0 <= i < |lowered| ==> LandingRank(lowered[i]) <= r
    ensures r == 0 || exists i :: 0 <= i < |lowered| && LandingRank(lowered[i]) == r
  {
    if lowered == [] then 0
    else
      var rest := TopRank(lowered[1..]);
      assert forall i :: 1 <= i < |lowered| ==> lowered[i] == lowered[1..][i - 1];
      if LandingRank(lowered[0]) >= rest then LandingRank(lowered[0]) else rest
  }

  /** The top rank reaches `k` exactly when some role's rank does. */
  lemma RankAtLeast(lowered: seq<string>, k: nat)
    requires k >= 1
    ensures TopRank(lowered) >= k <==> exists i :: 0 <= i < |lowered| && LandingRank(lowered[i]) >= k
  {
  }

  /** The ladder sends a user to the dashboard of their most privileged
      recognised role: nsft over bp over cr over student or personal, and to
      '/' when no role is recognised. */
  lemma DashboardIsHighestRole(lowered: seq<string>)
    ensures Dashboard(lowered) == RankTarget(TopRank(lowered))
  {
    RankAtLeast(lowered, 4);
    RankAtLeast(lowered, 3);
    RankAtLeast(lowered, 2);
    RankAtLeast(lowered, 1);
    if "nsft" in lowered {
      var i :| 0 <= i < |lowered| && lowered[i] == "nsft";
      assert LandingRank(lowered[i]) >= 4;
    } else if "bp" in lowered {
      var i :| 0 <= i < |lowered| && lowered[i] == "bp";
      assert LandingRank(lowered[i]) >= 3;
      assert forall j :: 0 <= j < |lowered| ==> LandingRank(lowered[j]) < 4;
    } else if "cr" in lowered {
      var i :| 0 <= i < |lowered| && lowered[i] == "cr";
      assert LandingRank(lowered[i]) >= 2;
      assert forall j :: 0 <= j < |lowered| ==> LandingRank(lowered[j]) < 3;
    } else if "student" in lowered || "personal" in lowered {
      var i :| 0 <= i < |lowered| && (lowered[i] == "student" || lowered[i] == "personal");
      assert LandingRank(lowered[i]) >= 1;
      assert forall j :: 0 <= j < |lowered| ==> LandingRank(lowered[j]) < 2;
    } else {
      assert forall j :: 0 <= j < |lowered| ==> LandingRank(lowered[j]) < 1;
    }
  }

  /** The target depends only on which roles are held, not on their order
      or repetition. */
  lemma DashboardIgnoresOrder(a: seq<string>, b: seq<string>)
    requires forall x :: x in a <==> x in b
    ensures Dashboard(a) == Dashboard(b)
  {
  }

  /** What `ProtectedRoute` renders. */
  datatype Outcome = Render | Redirect(to: string)

  /** `ProtectedRoute` for the session's `isAuthenticated` and `userType` and
      the route's `allowedUserType`. */
  function Guard(isAuthenticated: bool, userType: Option<seq<string>>, allowedUserType: string): Outcome
  {
    if !isAuthenticated then Redirect("/login")
    else
      var lowered := if userType.Some? then LowerAll(userType.value) else [];
      if Lower(allowedUserType) in lowered then Render
      else Redirect(Dashboard(lowered))
  }

  /** Signed-out users go to /login whatever their roles; signed-in users see
      the page exactly when one of their roles equals the route's role up to
      case, and are otherwise sent to their own dashboard. */
  lemma GuardSpec(isAuthenticated: bool, userType: Option<seq<string>>, allowedUserType: string)
    ensures !isAuthenticated ==> Guard(isAuthenticated, userType, allowedUserType) == Redirect("/login")
    ensures isAuthenticated ==>
              (Guard(isAuthenticated, userType, allowedUserType) == Render <==>
               userType.Some? && exists i :: 0 <= i < |userType.value| && Lower(userType.value[i]) == Lower(allowedUserType))
    ensures isAuthenticated && userType.None? ==> Guard(isAuthenticated, userType, allowedUserType) == Redirect("/")
  {
    if isAuthenticated && userType.Some? {
      var lowered := LowerAll(userType.value);
      if Lower(allowedUserType) in lowered {
        var i :| 0 <= i < |lowered| && lowered[i] == Lower(allowedUserType);
        assert Lower(userType.value[i]) == Lower(allowedUserType);
      }
    }
  }

  /** The guard checks membership, not privilege: an NSFT member is turned
      away from a CR route and sent to the NSFT dashboard, although
      `canAccess` would let them in. */
  lemma GuardIsNotHierarchical()
    ensures Guard(true, Some(["NSFT"]), "CR") == Redirect("/nsft/dashboard")
    ensures CanAccess(Some(["NSFT"]), "CR")
  {
    LowerLiterals();
    assert LowerAll(["NSFT"]) == ["nsft"];
    assert "cr" !in ["nsft"];
  }

  // ------------------------------------------------------------------ login

  /** The page `handleSubmit` navigates to for a decoded `user_type` claim:
      the login form's own copy of the redirect ladder, over the claim's
      roles lowercased with `toLocaleLowerCase`. */
  function LoginTarget(claim: RoleClaim): string
  {
    var userTypesLowerCase := LowerAll(Normalize(claim));
    if "nsft" in userTypesLowerCase then "/nsft/dashboard"
    else if "bp" in userTypesLowerCase then "/bp/dashboard"
    else if "cr" in userTypesLowerCase then "/cr/dashboard"
    else if "student" in userTypesLowerCase || "personal" in userTypesLowerCase then "/student/dashboard"
    else "/"
  }

  /** After a login the user lands exactly where the route guard redirects a
      signed-in user with the same roles. */
  lemma LoginMatchesGuard(claim: RoleClaim, route: string)
    ensures Guard(true, Some(Normalize(claim)), route).Redirect? ==>
              Guard(true, Some(Normalize(claim)), route).to == LoginTarget(claim)
  {
  }

  lemma LowerLiterals()
    ensures Lower("NSFT") == "nsft" && Lower("CR") == "cr"
    ensures Lower("Student") == "student" && Lower("personal") == "personal"
  {
    LowerAt("NSFT");
    LowerAt("CR");
    LowerAt("Student");
    LowerAt("personal");
  }

  lemma LandsOnStudent(role: string)
    requires Lower(role) == "student" || Lower(role) == "personal"
    ensures LoginTarget(Single(role)) == "/student/dashboard"
  {
    assert LowerAll(Normalize(Single(role))) == [Lower(role)];
  }

  /** 'Student' and 'personal' claims land on the same page. */
  lemma StudentAndPersonalLandTogether()
    ensures LoginTarget(Single("personal")) == "/student/dashboard"
    ensures LoginTarget(Single("Student")) == "/student/dashboard"
  {
    LowerLiterals();
    LandsOnStudent("personal");
    LandsOnStudent("Student");
  }

  /** Of two roles the higher one decides, and a claim with no role lands on '/'. */
  lemma HigherRoleWins()
    ensures LoginTarget(Many(["Student", "NSFT"])) == "/nsft/dashboard"
    ensures LoginTarget(Many([])) == "/"
  {
    LowerLiterals();
    var both := LowerAll(["Student", "NSFT"]);
    assert both[1] == "nsft";
    assert "nsft" in both;
  }

  /** The server's reply to the credentials. */
  datatype LoginResponse = LoginResponse(ok: bool, detail: Option<string>, access: string, refresh: string)

  /** What `handleSubmit` ends with: a navigation, or an error message shown
      on the form. */
  datatype SubmitResult = Navigated(to: string) | Failed(error: string)

  /** `handleSubmit` after the reply arrives: a refused reply throws before the
      session is touched; a token that does not decode throws too; otherwise
      the session logs in and the user is sent to their dashboard. */
  method HandleSubmit(session: AuthSession, response: LoginResponse, decoded: Decoded) returns (result: SubmitResult)
    modifies session
    ensures !response.ok ==>
              result == Failed(if response.detail.Some? && response.detail.value != "" then response.detail.value else "Login failed") &&
              session.State() == old(session.State())
    ensures response.ok && decoded.DecodeError? ==>
              result == Failed(decoded.message) && session.State() == old(session.State())
    ensures response.ok && decoded.Payload? ==>
              result == Navigated(LoginTarget(decoded.payload.userType)) &&
              session.State() == SessionState(Some(response.access), Some(response.refresh), true,
                                              Some(Normalize(decoded.payload.userType)),
                                              StoredUserInfo(Some(response.access), decoded))
  {
    if !response.ok {
      var message := if response.detail.Some? && response.detail.value != "" then response.detail.value else "Login failed";
      return Failed(message);
    }
    if decoded.DecodeError? {
      return Failed(decoded.message);
    }
    var thrown := session.Login(response.access, response.refresh, decoded);
    result := Navigated(LoginTarget(decoded.payload.userType));
  }
}
