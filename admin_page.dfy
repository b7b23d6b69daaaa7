/** The admin dashboard of `app/admin/page.jsx`: who counts as an administrator,
    the access gate in front of the dashboard, the status badge colours of the
    recent orders and the direction of the month-on-month trend markers. */
module AdminPage {
  import opened Wrappers
  import Text
  import Auth

  /** What the page renders. */
  datatype View = AccessDenied | Dashboard

  /** The trend marker: a rising green arrow or a falling red one. */
  datatype Trend = Up | Down

  const Gray := "text-gray-600 bg-gray-100"

  /** `user?.email?.includes("admin")`: the email is text that contains "admin",
      with the case as written. */
  predicate EmailMentionsAdmin(u: Auth.User) {
    "email" in u && u["email"].Str? && Text.Contains(u["email"].s, "admin")
  }

  /** `user?.firstName === "Admin"`. */
  predicate NamedAdmin(u: Auth.User) {
    "firstName" in u && u["firstName"] == Auth.Str("Admin")
  }

  /** `isAdmin`; no signed-in user is never an administrator. */
  predicate IsAdmin(user: Option<Auth.User>) {
    user.Some? && (EmailMentionsAdmin(user.value) || NamedAdmin(user.value))
  }

  /** `!isAuthenticated || !isAdmin` shows "Access Denied"; otherwise the dashboard. */
  function Gate(s: Auth.AuthState): (v: View)
    ensures v == Dashboard <==> s.isAuthenticated && IsAdmin(s.user)
  {
    if !s.isAuthenticated || !IsAdmin(s.user) then AccessDenied else Dashboard
  }

  /** `getStatusColor` of the recent-orders list. */
  function StatusColor(status: string): (r: string)
    ensures status == "completed" ==> r == "text-green-600 bg-green-100"
    ensures status == "processing" ==> r == "text-blue-600 bg-blue-100"
    ensures status == "shipped" ==> r == "text-purple-600 bg-purple-100"
    ensures status == "pending" ==> r == "text-yellow-600 bg-yellow-100"
    ensures r == Gray <==> status !in {"completed", "processing", "shipped", "pending"}
  {
    match status
    case "completed" => "text-green-600 bg-green-100"
    case "processing" => "text-blue-600 bg-blue-100"
    case "shipped" => "text-purple-600 bg-purple-100"
    case "pending" => "text-yellow-600 bg-yellow-100"
    case _ => Gray
  }

  /** The icon chosen by `change > 0`. */
  function TrendOf(change: real): (t: Trend)
    ensures t == Up <==> change > 0.0
  {
    if change > 0.0 then Up else Down
  }

  /** The colour of the percentage, chosen by the same test as the icon. */
  function TrendClass(change: real): (r: string)
    ensures r == "text-green-600" <==> TrendOf(change) == Up
    ensures r == "text-red-600" <==> TrendOf(change) == Down
  {
    if change > 0.0 then "text-green-600" else "text-red-600"
  }

  /** `Math.abs(change)`, the figure shown next to the marker. */
  function Magnitude(change: real): (r: real)
    ensures r >= 0.0 && (r == change || r == -change)
  {
    if change < 0.0 then -change else change
  }

  // ---------------------------------------------------------------- lemmas

  /** No visitor who is signed out, and no signed-in user without an admin email or
      first name, reaches the dashboard; signing out always closes it. */
  lemma GateSpec(s: Auth.AuthState)
    ensures !s.isAuthenticated ==> Gate(s) == AccessDenied
    ensures s.user.None? ==> Gate(s) == AccessDenied
    ensures Gate(Auth.Reduce(s, Auth.AuthAction.Logout)) == AccessDenied
  {
  }

  /** A successful login with an email that contains "admin" opens the dashboard. */
  lemma AdminEmailLogin(s: Auth.AuthState, email: string, password: string, now: int,
                        joinDate: string)
    requires Auth.CredentialsAccepted(email, password) && Text.Contains(email, "admin")
    ensures var after := Auth.Reduce(Auth.Reduce(s, Auth.SetLoading(true)),
                                     Auth.Login(Auth.LoginUser(email, now, joinDate)));
            Gate(after) == Dashboard
  {
    var u := Auth.LoginUser(email, now, joinDate);
    assert EmailMentionsAdmin(u);
  }

  /** A login whose name part is "Admin" also opens the dashboard, although "Admin"
      does not contain "admin": the first-name test catches what the case-sensitive
      email test misses. */
  lemma CapitalAdminLogin(s: Auth.AuthState, rest: string, password: string, now: int,
                          joinDate: string)
    requires password != ""
    ensures var email := "Admin@" + rest;
            var after := Auth.Reduce(Auth.Reduce(s, Auth.SetLoading(true)),
                                     Auth.Login(Auth.LoginUser(email, now, joinDate)));
            Gate(after) == Dashboard
  {
    var email := "Admin@" + rest;
    var u := Auth.LoginUser(email, now, joinDate);
    assert email[..5] == "Admin";
    Text.FirstPieceUpTo(email, '@', 5);
    assert NamedAdmin(u);
  }

  /** Text without a lower-case "a" never contains "admin". */
  lemma {:induction false} NoLowerANoAdmin(e: string)
    requires 'a' !in e
    ensures !Text.Contains(e, "admin")
    decreases |e|
  {
    if |e| >= 5 {
      assert e[..5][0] == e[0];
    }
    if |e| > 0 {
      assert forall c :: c in e[1..] ==> c in e;
      NoLowerANoAdmin(e[1..]);
    }
  }

  /** The email test is case-sensitive: an email with no lower-case "a", such as
      "Admin@shop.com", never passes it, so such a user is turned away unless the
      first name is exactly "Admin". */
  lemma EmailTestIsCaseSensitive(u: Auth.User)
    requires "email" in u && u["email"].Str? && 'a' !in u["email"].s
    requires !NamedAdmin(u)
    ensures !IsAdmin(Some(u))
    ensures 'a' !in "Admin@shop.com"
  {
    NoLowerANoAdmin(u["email"].s);
  }

  /** Signing up with the first name "Admin" opens the dashboard whatever the email. */
  lemma AdminNameSignup(s: Auth.AuthState, data: Auth.SignupData, now: int, joinDate: string)
    requires data.firstName == "Admin"
    ensures Gate(Auth.Reduce(s, Auth.Login(Auth.SignupUser(data, now, joinDate)))) == Dashboard
  {
    var u := Auth.SignupUser(data, now, joinDate);
    assert u["firstName"] == Auth.Str(data.firstName);
    assert NamedAdmin(u);
  }

  /** A fall and no change both show the red downward marker; the figure shown is
      the size of the change. */
  lemma TrendSpec(change: real)
    ensures change <= 0.0 ==> TrendOf(change) == Down && TrendClass(change) == "text-red-600"
    ensures TrendOf(0.0) == Down
    ensures TrendOf(12.5) == Up && TrendOf(-2.3) == Down && Magnitude(-2.3) == 2.3
  {
  }
}
