/**
 * src/components/auth/AuthProvider.tsx: the in-memory user context and its
 * three transitions. `login` picks the sign-in endpoint from the role, accepts
 * only a reply with a truthy `success` and a non-empty `accessToken`, stores
 * the session and navigates to the dashboard; every failure wipes the session,
 * resets the user and re-raises. `logout` wipes both; `switchRole` fabricates
 * a demo user without touching the session store.
 */
module AuthProvider {
  import opened Wrappers
  import opened Text
  import opened Storage
  import opened AuthApi
  import opened Http

  datatype Role = Doctor | Patient | Admin | Hr | Nurse | Receptionist

  function RoleName(r: Role): string {
    match r
    case Doctor => "doctor"
    case Patient => "patient"
    case Admin => "admin"
    case Hr => "hr"
    case Nurse => "nurse"
    case Receptionist => "receptionist"
  }

  /** The user held in the context. The role is whatever string the backend sent, or the fallback. */
  datatype User = User(
    id: Option<string>,
    name: Option<string>,
    username: Option<string>,
    email: Option<string>,
    phone: Option<string>,
    role: string,
    permissions: Option<seq<string>>,
    department: Option<string>)

  /** The credential object posted to the sign-in endpoint. */
  datatype Credentials =
    | ByUsername(username: string, password: string)
    | ByEmail(email: string, password: string)

  /** Which sign-in function `login` calls, and with what. */
  datatype SignInCall = SignInCall(account: Account, credentials: Credentials)

  /** How the sign-in call settled: a resolved body (possibly empty) or a thrown error. */
  datatype SignInReply = Resolved(body: Option<Envelope>) | Threw(error: HttpError)

  /** The error `login` raises. */
  datatype LoginError =
    | Invalid(message: string)      // `new Error(message)` for a rejected envelope
    | Rethrown(error: HttpError)    // the sign-in call's own error, re-raised unchanged

  datatype LoginOutcome = SignedIn | Failed(error: LoginError)

  const DashboardRoute: string := "/dashboard"
  const DefaultFailure: string := "Invalid credentials"

  /**
   * The endpoint choice: `'admin'` signs in at the admin router and `'doctor'`
   * at the doctor router, both with the identifier as `username`; every other
   * role, and no role, signs in at the user router with the identifier as `email`.
   */
  function SignInRequest(identifier: string, password: string, role: Option<Role>): (c: SignInCall)
    ensures c.account == AdminAccount <==> role == Some(Admin)
    ensures c.account == DoctorAccount <==> role == Some(Doctor)
    ensures c.account == UserAccount <==> role != Some(Admin) && role != Some(Doctor)
    ensures c.credentials.ByUsername? <==> c.account != UserAccount
    ensures c.credentials.password == password
    ensures c.credentials.ByUsername? ==> c.credentials.username == identifier
    ensures c.credentials.ByEmail? ==> c.credentials.email == identifier
  {
    if role == Some(Admin) then SignInCall(AdminAccount, ByUsername(identifier, password))
    else if role == Some(Doctor) then SignInCall(DoctorAccount, ByUsername(identifier, password))
    else SignInCall(UserAccount, ByEmail(identifier, password))
  }

  /** `res && res.success && res.accessToken`. */
  predicate Accepted(reply: SignInReply) {
    reply.Resolved? && reply.body.Some? && reply.body.value.success && Truthy(reply.body.value.accessToken)
  }

  /** `res.user?.role || (role || 'patient')`. */
  function SignedInRole(sent: Option<string>, requested: Option<Role>): (r: string)
    ensures r != ""
    ensures Truthy(sent) ==> r == sent.value
    ensures !Truthy(sent) && requested.Some? ==> r == RoleName(requested.value)
    ensures !Truthy(sent) && requested.None? ==> r == "patient"
  {
    if Truthy(sent) then sent.value
    else if requested.Some? then RoleName(requested.value)
    else "patient"
  }

  /**
   * `{ ...res.user, role: ... }`: the context's user is the backend's user with
   * the role replaced by the fallback chain; every other field is copied.
   */
  function SignedInUser(env: Envelope, requested: Option<Role>): (u: User)
    ensures u.role == SignedInRole(if env.user.Some? then env.user.value.role else None, requested)
    ensures env.user.Some? ==>
      && u.id == env.user.value.id && u.email == env.user.value.email
      && u.username == env.user.value.username && u.name == env.user.value.name
      && u.phone == env.user.value.phone && u.permissions == env.user.value.permissions
      && u.department == env.user.value.department
    ensures env.user.None? ==>
      && u.id.None? && u.email.None? && u.username.None? && u.name.None?
      && u.phone.None? && u.permissions.None? && u.department.None?
  {
    match env.user
    case Some(p) =>
      User(p.id, p.name, p.username, p.email, p.phone,
           SignedInRole(p.role, requested), p.permissions, p.department)
    case None =>
      User(None, None, None, None, None, SignedInRole(None, requested), None, None)
  }

  /**
   * The error a failed login raises: the call's own error when it threw,
   * otherwise the envelope's `message` when truthy, else `'Invalid credentials'`.
   */
  function FailureOf(reply: SignInReply): (e: LoginError)
    requires !Accepted(reply)
    ensures reply.Threw? <==> e.Rethrown?
    ensures reply.Threw? ==> e.error == reply.error
    ensures e.Invalid? ==> e.message != ""
    ensures reply.Resolved? && reply.body.Some? && Truthy(reply.body.value.message) ==>
      e == Invalid(reply.body.value.message.value)
    ensures reply.Resolved? && (reply.body.None? || !Truthy(reply.body.value.message)) ==>
      e == Invalid(DefaultFailure)
  {
    match reply
    case Threw(err) => Rethrown(err)
    case Resolved(body) =>
      if body.Some? && Truthy(body.value.message) then Invalid(body.value.message.value)
      else Invalid(DefaultFailure)
  }

  /**
   * The store after `login`: the session of an accepted reply, otherwise the
   * store with the session keys removed.
   */
  function SessionAfterLogin(items: map<string, string>, reply: SignInReply, serialize: Option<Profile> -> string)
    : (r: map<string, string>)
    ensures AccessTokenKey in r <==> Accepted(reply)
    ensures Accepted(reply) ==> r[AccessTokenKey] == reply.body.value.accessToken.value
    ensures !Accepted(reply) ==> RefreshTokenKey !in r && UserKey !in r
    ensures forall k :: k in items && k !in SessionKeys ==> k in r && r[k] == items[k]
  {
    if Accepted(reply) then Stored(items, reply.body.value, serialize) else Cleared(items)
  }

  /** `switchRole(r)`: a fabricated user whose id and role are `r`, e-mail `r@demo`, name `R (Demo)`. */
  function DemoUser(r: Role): (u: User)
    ensures u.id == Some(RoleName(r)) && u.role == RoleName(r)
    ensures u.email == Some(RoleName(r) + "@demo")
    ensures u.name == Some(Capitalize(RoleName(r)) + " (Demo)")
    ensures u.username.None? && u.permissions.None?
  {
    var n := RoleName(r);
    User(Some(n), Some(Capitalize(n) + " (Demo)"), None, Some(n + "@demo"), None, n, None, None)
  }

  /** The demo names: the role with its first letter upper-cased, then ` (Demo)`. */
  lemma DemoNames()
    ensures DemoUser(Admin).name == Some("Admin (Demo)")
    ensures DemoUser(Hr).name == Some("Hr (Demo)")
  {
    assert DemoUser(Admin).name == Some("Admin (Demo)") by {
      assert Capitalize("admin") == "Admin" by { assert UpperChar('a') == 'A'; }
      assert "Admin" + " (Demo)" == "Admin (Demo)";
    }
    assert DemoUser(Hr).name == Some("Hr (Demo)") by {
      assert Capitalize("hr") == "Hr" by { assert UpperChar('h') == 'H'; }
      assert "Hr" + " (Demo)" == "Hr (Demo)";
    }
  }

  /** Scenario: an admin whose reply is `{success:false, message:"bad creds"}` fails with that message and no session. */
  lemma RejectedAdminScenario(items: map<string, string>, serialize: Option<Profile> -> string)
    ensures SignInRequest("root", "x", Some(Admin)) == SignInCall(AdminAccount, ByUsername("root", "x"))
    ensures var reply := Resolved(Some(Envelope(false, None, None, None, Some("bad creds"))));
            !Accepted(reply) && FailureOf(reply) == Invalid("bad creds")
            && AccessTokenKey !in SessionAfterLogin(items, reply, serialize)
  {
  }

  /** Scenario: a patient reply without a user role yields role `"patient"`. */
  lemma PatientRoleDefaultScenario()
    ensures var env := Envelope(true, Some("T1"), Some("R1"),
                                Some(Profile(Some("u1"), None, None, None, None, None, None, None)), None);
            Accepted(Resolved(Some(env))) && SignedInUser(env, Some(Patient)).role == "patient"
            && SignedInUser(env, None).role == "patient"
  {
  }

  /** The React context: the current user and the navigations `login` has made. */
  class AuthContext {
    var user: Option<User>
    var navigations: seq<string>
    const storage: LocalStorage
    /** Stands for `JSON.stringify` of the user. */
    const serialize: Option<Profile> -> string

    constructor (storage: LocalStorage, serialize: Option<Profile> -> string)
      ensures user.None? && navigations == []
      ensures this.storage == storage && this.serialize == serialize
    {
      user := None;
      navigations := [];
      this.storage := storage;
      this.serialize := serialize;
    }

    /**
     * `login(emailOrUsername, password, role)`, with `reply` for how the chosen
     * sign-in call settled. Returns the call made and the outcome.
     */
    method Login(identifier: string, password: string, role: Option<Role>, reply: SignInReply)
      returns (call: SignInCall, outcome: LoginOutcome)
      modifies this, storage
      ensures call == SignInRequest(identifier, password, role)
      ensures storage.items == SessionAfterLogin(old(storage.items), reply, serialize)
      ensures Accepted(reply) ==>
        && outcome == SignedIn
        && user == Some(SignedInUser(reply.body.value, role))
        && navigations == old(navigations) + [DashboardRoute]
      ensures !Accepted(reply) ==>
        && outcome == Failed(FailureOf(reply))
        && user.None?
        && navigations == old(navigations)
    {
      call := SignInRequest(identifier, password, role);
      if reply.Resolved? && reply.body.Some? && reply.body.value.success && Truthy(reply.body.value.accessToken) {
        var res := reply.body.value;
        StoreSession(storage, res, serialize);
        user := Some(SignedInUser(res, role));
        navigations := navigations + [DashboardRoute];
        outcome := SignedIn;
      } else {
        var error := FailureOf(reply);
        // the catch block: clear any partial session, reset the user, re-raise
        ClearSession(storage);
        user := None;
        outcome := Failed(error);
      }
    }

    /** `logout()`: clears the three session keys and the user. */
    method Logout()
      modifies this, storage
      ensures storage.items == Cleared(old(storage.items))
      ensures user.None? && navigations == old(navigations)
    {
      ClearSession(storage);
      user := None;
    }

    /** `switchRole(r)`: demo only; sets a fabricated user and leaves the session store alone. */
    method SwitchRole(r: Role)
      modifies this
      ensures user == Some(DemoUser(r))
      ensures storage.items == old(storage.items) && navigations == old(navigations)
    {
      user := Some(DemoUser(r));
    }
  }
}
