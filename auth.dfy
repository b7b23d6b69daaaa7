/** The authentication store of `contexts/auth-context.jsx`: the reducer over
    `{ user, isAuthenticated, isLoading }`, the provider's `login`, `signup`,
    `logout` and `updateProfile`, and the mount effect that restores a saved user.
    The user is a plain JSON object, modelled as a map from field names to values so
    that `{ ...user, ...updates }` is map union. The clock (`Date.now()` and the ISO
    join date) is passed in; the simulated one-second delay is not modelled. */
module Auth {
  import opened Wrappers
  import Text

  /** A JSON value as the user object holds it. */
  datatype Value =
    | Str(s: string)
    | Number(n: int)
    | Flag(b: bool)
    | List(elems: seq<Value>)
    | Record(fields: map<string, Value>)

  type User = map<string, Value>

  datatype AuthState = AuthState(user: Option<User>, isAuthenticated: bool, isLoading: bool)

  /** The reducer's actions; `Unrecognised` stands for any other `type`. */
  datatype AuthAction =
    | Login(payload: User)
    | Logout
    | SetLoading(loading: bool)
    | UpdateProfile(updates: User)
    | Unrecognised(kind: string)

  /** What `login` and `signup` resolve to. */
  datatype AuthResult = AuthResult(success: bool, error: Option<string>)

  /** The fields of the signup form that `signup` reads. */
  datatype SignupData = SignupData(firstName: string, lastName: string, email: string,
                                   newsletter: Option<bool>)

  const InitialState := AuthState(None, false, true)
  const InvalidCredentials := "Invalid credentials"

  // ---------------------------------------------------------------- reducer

  /** `authReducer`. UPDATE_PROFILE spreads the current user (nothing, when there is
      none) and then the updates, which win on shared fields. */
  function Reduce(s: AuthState, a: AuthAction): AuthState {
    match a
    case Login(u) => s.(user := Some(u), isAuthenticated := true, isLoading := false)
    case Logout => s.(user := None, isAuthenticated := false, isLoading := false)
    case SetLoading(b) => s.(isLoading := b)
    case UpdateProfile(updates) => s.(user := Some(s.user.GetOr(map[]) + updates))
    case Unrecognised(_) => s
  }

  /** Every authenticated state has a user. */
  predicate Consistent(s: AuthState) {
    s.isAuthenticated ==> s.user.Some?
  }

  // ---------------------------------------------------------------- user construction

  /** `https://ui-avatars.com/api/?name=<name>&background=6366f1&color=fff`. */
  function AvatarUrl(name: string): string {
    "https://ui-avatars.com/api/?name=" + name + "&background=6366f1&color=fff"
  }

  /** The user `login` builds: names from the part of the email before the first
      "@", a fixed last name, empty orders and addresses, both preferences on. */
  function LoginUser(email: string, now: int, joinDate: string): (u: User)
    ensures "name" in u && "firstName" in u && "lastName" in u && "email" in u
    ensures u["name"] == u["firstName"] && u["name"].Str?
    ensures Text.StartsWith(email, u["name"].s) && '@' !in u["name"].s
    ensures |u["name"].s| < |email| ==> email[|u["name"].s|] == '@'
    ensures u["lastName"] == Str("User") && u["email"] == Str(email)
  {
    var prefix := Text.FirstPiece(email, '@');
    map[
      "id" := Number(now),
      "email" := Str(email),
      "name" := Str(prefix),
      "firstName" := Str(prefix),
      "lastName" := Str("User"),
      "avatar" := Str(AvatarUrl(prefix)),
      "joinDate" := Str(joinDate),
      "orders" := List([]),
      "addresses" := List([]),
      "preferences" := Record(map["newsletter" := Flag(true), "notifications" := Flag(true)])
    ]
  }

  /** The user `signup` builds: the display name is first and last name joined by a
      space, and the newsletter preference is what the form said, false when absent. */
  function SignupUser(data: SignupData, now: int, joinDate: string): (u: User)
    ensures "name" in u && "preferences" in u && "email" in u
    ensures u["name"] == Str(data.firstName + " " + data.lastName)
    ensures u["email"] == Str(data.email)
    ensures u["preferences"] == Record(map["newsletter" := Flag(data.newsletter == Some(true)),
                                           "notifications" := Flag(true)])
  {
    map[
      "id" := Number(now),
      "email" := Str(data.email),
      "name" := Str(data.firstName + " " + data.lastName),
      "firstName" := Str(data.firstName),
      "lastName" := Str(data.lastName),
      "avatar" := Str(AvatarUrl(data.firstName + "+" + data.lastName)),
      "joinDate" := Str(joinDate),
      "orders" := List([]),
      "addresses" := List([]),
      "preferences" := Record(map["newsletter" := Flag(data.newsletter.GetOr(false)),
                                  "notifications" := Flag(true)])
    ]
  }

  /** `login`'s mock credential rule: both fields are non-empty strings. */
  predicate CredentialsAccepted(email: string, password: string) {
    email != "" && password != ""
  }

  // ---------------------------------------------------------------- provider

  /** `AuthProvider`'s state, which every operation replaces through the reducer. */
  class AuthStore {
    var user: Option<User>
    var isAuthenticated: bool
    var isLoading: bool

    function State(): AuthState
      reads this
    {
      AuthState(user, isAuthenticated, isLoading)
    }

    method Dispatch(a: AuthAction)
      modifies this
      ensures State() == Reduce(old(State()), a)
    {
      var s := Reduce(State(), a);
      user, isAuthenticated, isLoading := s.user, s.isAuthenticated, s.isLoading;
    }

    /** `useReducer(authReducer, { user: null, isAuthenticated: false, isLoading: true })`. */
    constructor ()
      ensures State() == InitialState
    {
      user, isAuthenticated, isLoading := None, false, true;
    }

    /** The mount effect: a saved user that parsed (`Some`) logs in; loading then ends. */
    method Restore(saved: Option<User>)
      modifies this
      ensures saved.Some? ==> State() == Reduce(Reduce(old(State()), AuthAction.Login(saved.value)), SetLoading(false))
      ensures saved.None? ==> State() == Reduce(old(State()), SetLoading(false))
      ensures !isLoading
    {
      if saved.Some? {
        Dispatch(AuthAction.Login(saved.value));
      }
      Dispatch(SetLoading(false));
    }

    /** `login(email, password)`: loading, then either LOGIN with the mock user or the
        "Invalid credentials" failure with loading switched off again. */
    method Login(email: string, password: string, now: int, joinDate: string)
      returns (result: AuthResult)
      modifies this
      ensures result.success <==> CredentialsAccepted(email, password)
      ensures result.success ==>
                result.error == None &&
                State() == Reduce(Reduce(old(State()), SetLoading(true)),
                                  AuthAction.Login(LoginUser(email, now, joinDate)))
      ensures !result.success ==>
                result.error == Some(InvalidCredentials) &&
                State() == Reduce(Reduce(old(State()), SetLoading(true)), SetLoading(false))
    {
      Dispatch(SetLoading(true));
      if CredentialsAccepted(email, password) {
        Dispatch(AuthAction.Login(LoginUser(email, now, joinDate)));
        result := AuthResult(true, None);
      } else {
        Dispatch(SetLoading(false));
        result := AuthResult(false, Some(InvalidCredentials));
      }
    }

    /** `signup(userData)`: always succeeds and logs the new user in. */
    method Signup(data: SignupData, now: int, joinDate: string) returns (result: AuthResult)
      modifies this
      ensures result == AuthResult(true, None)
      ensures State() == Reduce(Reduce(old(State()), SetLoading(true)),
                                AuthAction.Login(SignupUser(data, now, joinDate)))
    {
      Dispatch(SetLoading(true));
      Dispatch(AuthAction.Login(SignupUser(data, now, joinDate)));
      result := AuthResult(true, None);
    }

    /** `logout()`. */
    method Logout()
      modifies this
      ensures State() == Reduce(old(State()), AuthAction.Logout)
    {
      Dispatch(AuthAction.Logout);
    }

    /** `updateProfile(updates)`. */
    method UpdateProfile(updates: User)
      modifies this
      ensures State() == Reduce(old(State()), AuthAction.UpdateProfile(updates))
    {
      Dispatch(AuthAction.UpdateProfile(updates));
    }
  }

  // ---------------------------------------------------------------- lemmas

  /** LOGIN installs the payload as the user and ends loading; LOGOUT clears the user
      and both flags; SET_LOADING changes the loading flag and nothing else; an unknown
      action changes nothing. */
  lemma ReduceActions(s: AuthState, u: User, b: bool, kind: string)
    ensures Reduce(s, Login(u)) == AuthState(Some(u), true, false)
    ensures Reduce(s, AuthAction.Logout) == AuthState(None, false, false)
    ensures Reduce(s, SetLoading(b)).isLoading == b
    ensures Reduce(s, SetLoading(b)).user == s.user
    ensures Reduce(s, SetLoading(b)).isAuthenticated == s.isAuthenticated
    ensures Reduce(s, Unrecognised(kind)) == s
  {
  }

  /** UPDATE_PROFILE overlays the updates: every updated field takes the new value,
      every other field of the current user is kept, no other field appears, and the
      two flags do not change. */
  lemma UpdateProfileOverlay(s: AuthState, updates: User)
    ensures var r := Reduce(s, AuthAction.UpdateProfile(updates));
      && r.user.Some?
      && (forall k :: k in updates ==> k in r.user.value && r.user.value[k] == updates[k])
      && (forall k :: s.user.Some? && k in s.user.value && k !in updates ==>
            k in r.user.value && r.user.value[k] == s.user.value[k])
      && (forall k :: k in r.user.value ==> k in updates || (s.user.Some? && k in s.user.value))
      && r.isAuthenticated == s.isAuthenticated && r.isLoading == s.isLoading
  {
  }

  /** Every action keeps "authenticated implies a user". */
  lemma ReducePreservesConsistent(s: AuthState, a: AuthAction)
    requires Consistent(s)
    ensures Consistent(Reduce(s, a))
  {
  }

  /** The converse does not hold in general: an update while logged out creates a
      user record although nobody is authenticated. */
  lemma UpdateWhileLoggedOut(updates: User)
    ensures var r := Reduce(AuthState(None, false, false), AuthAction.UpdateProfile(updates));
            r.user == Some(updates) && !r.isAuthenticated
  {
    assert map[] + updates == updates;
  }

  /** The outcome of `login` on a state: success iff both fields are filled, and in
      every case loading has ended. */
  lemma LoginOutcome(s: AuthState, email: string, password: string, now: int, joinDate: string)
    ensures var after := if CredentialsAccepted(email, password)
                         then Reduce(Reduce(s, SetLoading(true)), Login(LoginUser(email, now, joinDate)))
                         else Reduce(Reduce(s, SetLoading(true)), SetLoading(false));
      && !after.isLoading
      && (after.isAuthenticated <==> CredentialsAccepted(email, password) || s.isAuthenticated)
      && (CredentialsAccepted(email, password) ==> after.user == Some(LoginUser(email, now, joinDate)))
      && (!CredentialsAccepted(email, password) ==> after.user == s.user)
  {
  }

  /** An email without "@" is its own name; "jane@shop.com" gives "jane". */
  lemma LoginUserNames(email: string, now: int, joinDate: string)
    ensures '@' !in email ==> LoginUser(email, now, joinDate)["firstName"] == Str(email)
    ensures LoginUser("jane@shop.com", now, joinDate)["name"] == Str("jane")
  {
    if '@' !in email {
      Text.FirstPieceUpTo(email, '@', |email|);
      assert email[..|email|] == email;
    }
    var e := "jane@shop.com";
    assert e[..4] == "jane";
    Text.FirstPieceUpTo(e, '@', 4);
  }
}
