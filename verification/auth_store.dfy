/** The mock authentication store (src/state/authStore.ts). The module-level
    `mockUsers` array is part of the modelled state, since `register` and
    `updateProfile` mutate it; the one-second simulated delay and the
    intermediate `isLoading: true` are not modelled, only the state each
    operation settles in. */
module AuthStore {
  import opened Wrappers
  import opened Text
  import opened Seqs
  import opened Construction

  datatype AuthState = AuthState(
    user: Option<User>,
    isAuthenticated: bool,
    isLoading: bool,
    users: seq<User>)

  /** `new Date("2024-01-15")` and the other two seed dates, in UTC milliseconds. */
  const Jan15 := 1705276800000
  const Feb01 := 1706745600000
  const Jan20 := 1705708800000

  /** The three seeded accounts, one per role. */
  const MockUsers: seq<User> := [
    User("1", "john.engineer@example.com", "John Smith", Engineer, Some("ABC Engineering"), Jan15),
    User("2", "sarah.contractor@example.com", "Sarah Johnson", Contractor, Some("Johnson Construction"), Feb01),
    User("3", "mike.pm@example.com", "Mike Davis", ProjectManager, Some("Davis Project Management"), Jan20)
  ]

  /** Nobody signed in, the seeded directory. */
  const InitialAuth := AuthState(None, false, false, MockUsers)

  /** The seeded accounts have distinct ids and one role each. */
  lemma MockUsersShape()
    ensures |MockUsers| == 3
    ensures MockUsers[0].role == Engineer && MockUsers[1].role == Contractor && MockUsers[2].role == ProjectManager
    ensures forall i, j :: 0 <= i < j < |MockUsers| ==> MockUsers[i].id != MockUsers[j].id
  {
  }

  /** Entry `i` is the first account with the email and the role, as
      `mockUsers.find` finds it. */
  predicate FirstMatching(users: seq<User>, email: string, role: UserRole, i: int) {
    && 0 <= i < |users| && users[i].email == email && users[i].role == role
    && forall k :: 0 <= k < i ==> !(users[k].email == email && users[k].role == role)
  }

  /** `login`: the first account with the email and the role signs in; the
      password is never looked at. A failed attempt changes nothing but the
      loading flag: whoever was signed in stays signed in. */
  function Login(s: AuthState, email: string, password: string, role: UserRole): (r: (AuthState, bool))
    ensures !r.0.isLoading && r.0.users == s.users
    ensures r.1 <==> exists k :: 0 <= k < |s.users| && s.users[k].email == email && s.users[k].role == role
    ensures r.1 ==> (r.0.isAuthenticated && r.0.user.Some? &&
      r.0.user.value.email == email && r.0.user.value.role == role && r.0.user.value in s.users)
    ensures !r.1 ==> r.0 == s.(isLoading := false)
    ensures forall i :: FirstMatching(s.users, email, role, i) ==>
      r.0 == s.(user := Some(s.users[i]), isAuthenticated := true, isLoading := false)
  {
    match FindFirst(s.users, (u: User) => u.email == email && u.role == role)
    case Some(i) => (s.(user := Some(s.users[i]), isAuthenticated := true, isLoading := false), true)
    case None => (s.(isLoading := false), false)
  }

  /** The password plays no part in signing in. */
  lemma LoginIgnoresPassword(s: AuthState, email: string, p1: string, p2: string, role: UserRole)
    ensures Login(s, email, p1, role) == Login(s, email, p2, role)
  {
  }

  /** Some account has the email. */
  predicate EmailTaken(users: seq<User>, email: string) {
    exists k :: 0 <= k < |users| && users[k].email == email
  }

  /** `register`: refused when the email is taken (whatever the role);
      otherwise a new account with id `Date.now().toString()` is appended and
      signed in. */
  function Register(s: AuthState, email: string, password: string, name: string, role: UserRole,
                    company: Option<string>, now: nat): (r: (AuthState, bool))
    ensures !r.0.isLoading
    ensures r.1 <==> !EmailTaken(s.users, email)
    ensures !r.1 ==> r.0 == s.(isLoading := false)
    ensures r.1 ==> var u := User(DecimalString(now), email, name, role, company, now);
      r.0 == AuthState(Some(u), true, false, s.users + [u])
  {
    match FindFirst(s.users, (u: User) => u.email == email)
    case Some(_) => (s.(isLoading := false), false)
    case None =>
      var u := User(DecimalString(now), email, name, role, company, now);
      (AuthState(Some(u), true, false, s.users + [u]), true)
  }

  /** Whoever registers can then sign in with the same email and role, as
      the account just created. */
  lemma RegisterThenLogin(s: AuthState, email: string, pw: string, name: string, role: UserRole,
                          company: Option<string>, now: nat, anyPassword: string)
    requires !EmailTaken(s.users, email)
    ensures var (t, ok) := Register(s, email, pw, name, role, company, now);
      ok && Login(t, email, anyPassword, role).1
      && Login(t, email, anyPassword, role).0.user == t.user
  {
    var (t, _) := Register(s, email, pw, name, role, company, now);
    var matches := (u: User) => u.email == email && u.role == role;
    var i := |s.users|;
    assert t.users[i] == t.user.value;
    assert forall k :: 0 <= k < i ==> !matches(t.users[k]);
    assert FindFirst(t.users, matches) == Some(i);
  }

  /** The seeded accounts can each sign in, and an email used by them cannot
      be registered again. */
  lemma SeededAccounts(s: AuthState, k: nat, pw: string, name: string, role: UserRole, company: Option<string>, now: nat)
    requires s.users == MockUsers && k < 3
    ensures Login(s, MockUsers[k].email, pw, MockUsers[k].role).1
    ensures !Register(s, MockUsers[k].email, pw, name, role, company, now).1
  {
    assert s.users[k].email == MockUsers[k].email;
  }

  /** `logout`: signs out; the loading flag and the directory stay. */
  function Logout(s: AuthState): (r: AuthState)
    ensures r.user.None? && !r.isAuthenticated
    ensures r.isLoading == s.isLoading && r.users == s.users
  {
    s.(user := None, isAuthenticated := false)
  }

  /** `Partial<User>`: a `None` field is absent from the update object. */
  datatype UserPatch = UserPatch(
    id: Option<string>,
    email: Option<string>,
    name: Option<string>,
    role: Option<UserRole>,
    company: Option<string>,
    createdAt: Option<Millis>)

  /** Entry `i` is the first directory entry with the id, as `findIndex` finds it. */
  predicate FirstWithId(users: seq<User>, id: string, i: int) {
    && 0 <= i < |users| && users[i].id == id
    && forall k :: 0 <= k < i ==> users[k].id != id
  }

  /** `{ ...user, ...updates }`. */
  function MergeUser(u: User, p: UserPatch): (r: User)
    ensures Spread(p.id, u.id, r.id) && Spread(p.email, u.email, r.email)
    ensures Spread(p.name, u.name, r.name) && Spread(p.role, u.role, r.role)
    ensures p.company.Some? ==> r.company == p.company
    ensures p.company.None? ==> r.company == u.company
    ensures Spread(p.createdAt, u.createdAt, r.createdAt)
  {
    User(
      p.id.GetOr(u.id),
      p.email.GetOr(u.email),
      p.name.GetOr(u.name),
      p.role.GetOr(u.role),
      if p.company.Some? then p.company else u.company,
      p.createdAt.GetOr(u.createdAt))
  }

  /** `updateProfile`: nothing without a signed-in user; otherwise the user is
      merged with the update, and the first directory entry with the user's
      former id is replaced by the merged record. */
  function UpdateProfile(s: AuthState, p: UserPatch): (r: AuthState)
    ensures s.user.None? ==> r == s
    ensures s.user.Some? ==> r.user == Some(MergeUser(s.user.value, p))
    ensures r.isAuthenticated == s.isAuthenticated && r.isLoading == s.isLoading
    ensures |r.users| == |s.users|
    ensures s.user.Some? ==> forall k :: 0 <= k < |s.users| ==>
      r.users[k] == s.users[k] || (s.users[k].id == s.user.value.id && r.users[k] == MergeUser(s.user.value, p))
    ensures s.user.Some? && (exists k :: 0 <= k < |s.users| && s.users[k].id == s.user.value.id) ==>
      MergeUser(s.user.value, p) in r.users
    ensures s.user.Some? ==> forall i :: FirstWithId(s.users, s.user.value.id, i) ==>
      r.users == s.users[i := MergeUser(s.user.value, p)]
    ensures s.user.Some? && (forall k :: 0 <= k < |s.users| ==> s.users[k].id != s.user.value.id) ==>
      r.users == s.users
  {
    match s.user
    case None => s
    case Some(u) =>
      var updated := MergeUser(u, p);
      match FindFirst(s.users, (x: User) => x.id == u.id)
      case None => s.(user := Some(updated))
      case Some(i) => s.(user := Some(updated), users := s.users[i := updated])
  }

  /** What `partialize` stores under "auth-storage". */
  datatype PersistedAuth = PersistedAuth(user: Option<User>, isAuthenticated: bool)

  const StorageKey := "auth-storage"

  function Partialize(s: AuthState): (r: PersistedAuth)
    ensures r.user == s.user && r.isAuthenticated == s.isAuthenticated
  {
    PersistedAuth(s.user, s.isAuthenticated)
  }

  /** A restart: the stored session over a freshly loaded module, whose
      directory is the seeded one again. */
  function Restart(p: PersistedAuth): (r: AuthState)
    ensures r.users == MockUsers && !r.isLoading
    ensures Partialize(r) == p
  {
    InitialAuth.(user := p.user, isAuthenticated := p.isAuthenticated)
  }

  /** A registered account survives a restart as the signed-in session, but
      the directory forgets it: the same email can then register again. */
  lemma RegistrationForgottenOnRestart(email: string, pw: string, name: string, role: UserRole,
                                       company: Option<string>, now: nat, later: nat)
    requires !EmailTaken(MockUsers, email)
    ensures var (t, _) := Register(InitialAuth, email, pw, name, role, company, now);
      var back := Restart(Partialize(t));
      back.isAuthenticated && back.user == t.user && Register(back, email, pw, name, role, company, later).1
  {
  }
}
