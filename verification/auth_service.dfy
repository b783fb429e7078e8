/**
 * The local user database and session service: credential matching, ordered
 * registration checks, whitelisted profile updates, password change, logout,
 * and import/reset of the user database. The database and the session live in
 * local storage under `users_db` and `current_user`; what `JSON.parse` makes
 * of the stored text is modelled as a `Json` value.
 */
module Auth {
  import opened Wrappers
  import Text
  import Collections

  datatype User = User(
    id: int,
    username: string,
    email: string,
    password: string,
    fullName: string,
    department: string,
    role: string,
    registeredAt: string,
    lastLogin: Option<string>,
    isActive: bool)

  datatype Settings = Settings(
    passwordMinLength: int,
    allowedEmailDomains: seq<string>,
    sessionTimeout: int,
    maxLoginAttempts: int)

  /** The in-memory user database: a users array and the settings. */
  datatype UsersDb = UsersDb(users: seq<User>, settings: Settings)

  /** The `current_user` session record. */
  datatype Session = Session(
    id: int,
    username: string,
    email: string,
    fullName: string,
    department: string,
    role: string,
    loginTime: string)

  /** The `user` object login, registration and profile update resolve with. */
  datatype Profile = Profile(id: int, username: string, email: string, fullName: string, department: string, role: string)

  /** A user as `getAllUsers` lists it. */
  datatype PublicUser = PublicUser(
    id: int,
    username: string,
    email: string,
    fullName: string,
    department: string,
    role: string,
    registeredAt: string,
    lastLogin: Option<string>,
    isActive: bool)

  /** What `JSON.parse` yields for a stored or imported text: a syntax error, or a value. */
  datatype Json<T> = Malformed | Value(value: T)

  /** A parsed user database document: not an object at all, or an object whose `users` may be missing or not an array. */
  datatype DbDoc = NotAnObject | DbDoc(users: Option<seq<User>>, settings: Settings)

  /** A parsed session document: `null` or a session object. */
  type SessionDoc = Option<Session>

  datatype AuthError =
    | MissingCredentials
    | InvalidCredentials
    | MissingFields
    | PasswordTooShort(minLength: int)
    | AlreadyExists
    | EmailDomainNotAllowed(allowed: seq<string>)
    | UserNotFound
    | IncorrectPassword
    | InvalidFormat

  const DefaultSettings := Settings(6, ["christuniversity.in", "btech.christuniversity.in"], 3600000, 5)

  /** `getDefaultUsers`, registered at time `now`. */
  function DefaultUsers(now: string): (db: UsersDb)
    ensures |db.users| == 2 && db.users[0].id == 1 && db.users[1].id == 2
    ensures db.settings.passwordMinLength == 6
    ensures forall i :: 0 <= i < |db.users| ==> db.users[i].isActive && db.users[i].lastLogin.None?
  {
    UsersDb(
      [ User(1, "deepak", "deepak@christuniversity.in", "deepak123", "Dr. Deepak", "Computer Science", "faculty", now, None, true),
        User(2, "john.doe", "john.doe@christuniversity.in", "password123", "Dr. John Doe", "Mathematics", "faculty", now, None, true) ],
      DefaultSettings)
  }

  function DocOf(db: UsersDb): DbDoc {
    DbDoc(Some(db.users), db.settings)
  }

  // ---------------------------------------------------------------------------
  // Loading and saving
  // ---------------------------------------------------------------------------

  /** The shape check of `loadUsers` and `importUsersData`: only an object with a `users` array is a database. */
  function AsUsersDb(doc: Json<DbDoc>): (db: Option<UsersDb>)
    ensures db.Some? <==> doc.Value? && doc.value.DbDoc? && doc.value.users.Some?
    ensures db.Some? ==> DocOf(db.value) == doc.value
  {
    match doc
    case Value(DbDoc(Some(users), settings)) => Some(UsersDb(users, settings))
    case _ => None
  }

  /**
   * `loadUsers`: the stored database when it is present, parses and has a
   * `users` array; the defaults otherwise.
   */
  function LoadUsers(stored: Option<Json<DbDoc>>, now: string): (db: UsersDb)
    ensures stored.Some? && AsUsersDb(stored.value).Some? ==> db == AsUsersDb(stored.value).value
    ensures stored.None? || AsUsersDb(stored.value).None? ==> db == DefaultUsers(now)
  {
    if stored.Some? && AsUsersDb(stored.value).Some? then AsUsersDb(stored.value).value else DefaultUsers(now)
  }

  /** What `users_db` holds once `loadUsers` has run: the defaults are written back whenever they were used. */
  function StoredAfterLoad(stored: Option<Json<DbDoc>>, now: string): Option<Json<DbDoc>> {
    Some(Value(DocOf(LoadUsers(stored, now))))
  }

  /** A saved database loads back unchanged, whatever the clock says. */
  lemma SaveThenLoad(db: UsersDb, now: string)
    ensures LoadUsers(Some(Value(DocOf(db))), now) == db
  {
  }

  /** `loadCurrentUser`: the stored session, or none when absent, malformed or `null`. */
  function LoadCurrentUser(stored: Option<Json<SessionDoc>>): (s: Option<Session>)
    ensures stored.None? || stored.value.Malformed? ==> s.None?
    ensures stored.Some? && stored.value.Value? ==> s == stored.value.value
  {
    match stored
    case Some(Value(s)) => s
    case _ => None
  }

  /** The record `saveCurrentUser` stores for `u` at time `now`. */
  function SessionOf(u: User, now: string): (s: Session)
    ensures s.id == u.id && s.username == u.username && s.email == u.email
    ensures s.fullName == u.fullName && s.department == u.department && s.role == u.role
    ensures s.loginTime == now
  {
    Session(u.id, u.username, u.email, u.fullName, u.department, u.role, now)
  }

  function ProfileOf(u: User): Profile {
    Profile(u.id, u.username, u.email, u.fullName, u.department, u.role)
  }

  // ---------------------------------------------------------------------------
  // Login
  // ---------------------------------------------------------------------------

  /** Trimmed and lower-cased, as usernames, emails and login identifiers are compared. */
  function Canonical(s: string): string {
    Text.Lower(Text.Trim(s))
  }

  /** The login test for one user. */
  predicate LoginMatches(u: User, usernameOrEmail: string, password: string) {
    && (Canonical(u.username) == Canonical(usernameOrEmail) || Canonical(u.email) == Canonical(usernameOrEmail))
    && Text.Trim(u.password) == Text.Trim(password)
    && u.isActive
  }

  /** The user `login` picks: the first one that matches. */
  function LoginIndex(users: seq<User>, usernameOrEmail: string, password: string): (i: Option<nat>)
    ensures i.Some? ==> i.value < |users| && LoginMatches(users[i.value], usernameOrEmail, password)
    ensures i.Some? ==> forall j :: 0 <= j < i.value ==> !LoginMatches(users[j], usernameOrEmail, password)
    ensures i.None? <==> forall j :: 0 <= j < |users| ==> !LoginMatches(users[j], usernameOrEmail, password)
  {
    Collections.FirstIndex(users, u => LoginMatches(u, usernameOrEmail, password))
  }

  /** Whether `login` accepts: both arguments given and some user matches. */
  function LoginOutcome(users: seq<User>, usernameOrEmail: string, password: string): (r: Result<nat, AuthError>)
    ensures r.Success? <==>
      usernameOrEmail != "" && password != ""
      && exists j :: 0 <= j < |users| && LoginMatches(users[j], usernameOrEmail, password)
    ensures r.Success? ==> r.value < |users| && LoginMatches(users[r.value], usernameOrEmail, password)
    ensures r.Success? ==> forall j :: 0 <= j < r.value ==> !LoginMatches(users[j], usernameOrEmail, password)
    ensures r.Failure? ==> r.error == if usernameOrEmail == "" || password == "" then MissingCredentials else InvalidCredentials
  {
    if usernameOrEmail == "" || password == "" then Failure(MissingCredentials)
    else match LoginIndex(users, usernameOrEmail, password)
      case Some(i) => Success(i)
      case None => Failure(InvalidCredentials)
  }

  // ---------------------------------------------------------------------------
  // Registration
  // ---------------------------------------------------------------------------

  datatype Registration = Registration(username: string, email: string, password: string, fullName: string, department: string)

  /** Text up to the first `c`, all of `s` when there is none. */
  function Before(s: string, c: char): (r: string)
    ensures |r| <= |s| && r == s[..|r|] && c !in r
    ensures |r| < |s| ==> s[|r|] == c
  {
    if s == [] || s[0] == c then [] else [s[0]] + Before(s[1..], c)
  }

  /** `email.split('@')[1]`: the text between the first `@` and the next one (or the end); absent without an `@`. */
  function EmailDomain(email: string): (d: Option<string>)
    ensures d.None? <==> '@' !in email
    ensures d.Some? ==>
      var k := |Before(email, '@')|;
      && k < |email| && email[k] == '@' && '@' !in email[..k]
      && '@' !in d.value && k + 1 + |d.value| <= |email| && d.value == email[k + 1..k + 1 + |d.value|]
      && (k + 1 + |d.value| == |email| || email[k + 1 + |d.value|] == '@')
  {
    var k := |Before(email, '@')|;
    if k == |email| then None else Some(Before(email[k + 1..], '@'))
  }

  predicate MissingField(r: Registration) {
    r.username == "" || r.email == "" || r.password == "" || r.fullName == ""
  }

  /** Some user already has the username or the email (compared exactly). */
  predicate Taken(users: seq<User>, r: Registration) {
    exists i :: 0 <= i < |users| && (users[i].username == r.username || users[i].email == r.email)
  }

  predicate DomainAllowed(settings: Settings, email: string) {
    var d := EmailDomain(email);
    d.Some? && d.value in settings.allowedEmailDomains
  }

  /**
   * The checks of `register`, in order: required fields, password length,
   * uniqueness, email domain. Each error is reported only when every earlier
   * check passed.
   */
  function RegistrationError(db: UsersDb, r: Registration): (e: Option<AuthError>)
    ensures e.None? <==>
      !MissingField(r) && |r.password| >= db.settings.passwordMinLength
      && !Taken(db.users, r) && DomainAllowed(db.settings, r.email)
    ensures e == Some(MissingFields) <==> MissingField(r)
    ensures e == Some(PasswordTooShort(db.settings.passwordMinLength)) <==>
      !MissingField(r) && |r.password| < db.settings.passwordMinLength
    ensures e == Some(AlreadyExists) <==>
      !MissingField(r) && |r.password| >= db.settings.passwordMinLength && Taken(db.users, r)
    ensures e == Some(EmailDomainNotAllowed(db.settings.allowedEmailDomains)) <==>
      !MissingField(r) && |r.password| >= db.settings.passwordMinLength
      && !Taken(db.users, r) && !DomainAllowed(db.settings, r.email)
  {
    if MissingField(r) then Some(MissingFields)
    else if |r.password| < db.settings.passwordMinLength then Some(PasswordTooShort(db.settings.passwordMinLength))
    else if Collections.FirstIndex(db.users, (u: User) => u.username == r.username || u.email == r.email).Some? then Some(AlreadyExists)
    else if !DomainAllowed(db.settings, r.email) then Some(EmailDomainNotAllowed(db.settings.allowedEmailDomains))
    else None
  }

  /** The largest id in a non-empty user list. */
  function MaxId(users: seq<User>): (m: int)
    requires users != []
    ensures forall i :: 0 <= i < |users| ==> users[i].id <= m
    ensures exists i :: 0 <= i < |users| && users[i].id == m
  {
    if |users| == 1 then users[0].id
    else
      var rest := MaxId(users[1..]);
      if users[0].id >= rest then users[0].id else rest
  }

  /** The id a registration allocates: one more than the largest id, 1 for an empty list. */
  function NextId(users: seq<User>): (id: int)
    ensures forall i :: 0 <= i < |users| ==> users[i].id < id
    ensures users == [] ==> id == 1
    ensures users != [] ==> exists i :: 0 <= i < |users| && id == users[i].id + 1
  {
    if users == [] then 1 else MaxId(users) + 1
  }

  predicate IdsUnique(users: seq<User>) {
    forall i, j :: 0 <= i < j < |users| ==> users[i].id != users[j].id
  }

  /** The user a registration creates: a fresh id, faculty role, active, never logged in. */
  function NewUser(users: seq<User>, r: Registration, now: string): (u: User)
    ensures u.id == NextId(users)
    ensures forall i :: 0 <= i < |users| ==> users[i].id != u.id
    ensures IdsUnique(users) ==> IdsUnique(users + [u])
    ensures u.username == r.username && u.email == r.email && u.password == r.password && u.fullName == r.fullName
    ensures u.department == if r.department == "" then "Not specified" else r.department
    ensures u.role == "faculty" && u.isActive && u.lastLogin.None? && u.registeredAt == now
  {
    var u := User(NextId(users), r.username, r.email, r.password, r.fullName,
                  if r.department == "" then "Not specified" else r.department,
                  "faculty", now, None, true);
    assert forall i :: 0 <= i < |users| ==> (users + [u])[i] == users[i];
    u
  }

  /**
   * Right after a successful registration, logging in with the new username
   * and password succeeds (as the first user that matches, which may be an
   * earlier user whose name differs only in case).
   */
  lemma RegisteredUserCanLogIn(db: UsersDb, r: Registration, now: string)
    requires RegistrationError(db, r).None?
    ensures LoginOutcome(db.users + [NewUser(db.users, r, now)], r.username, r.password).Success?
  {
    var users := db.users + [NewUser(db.users, r, now)];
    assert LoginMatches(users[|db.users|], r.username, r.password);
  }

  /** The id `Math.max(...ids) + 1` computes, where the maximum of no numbers is -Infinity. */
  datatype IdValue = Finite(n: int) | NegInfinity

  function MaxAsWritten(ids: seq<IdValue>): (m: IdValue)
    ensures m.Finite? ==> m in ids
    ensures forall i :: 0 <= i < |ids| && ids[i].Finite? ==> m.Finite? && ids[i].n <= m.n
    ensures m.NegInfinity? <==> forall i :: 0 <= i < |ids| ==> ids[i].NegInfinity?
  {
    if ids == [] then NegInfinity
    else match (ids[0], MaxAsWritten(ids[1..]))
      case (Finite(a), Finite(b)) => Finite(if a >= b then a else b)
      case (Finite(a), NegInfinity) => Finite(a)
      case (NegInfinity, m) => m
  }

  function NextIdAsWritten(ids: seq<IdValue>): (n: IdValue)
    ensures forall i :: 0 <= i < |ids| && ids[i].Finite? ==> n.Finite? && ids[i].n < n.n
    ensures n.NegInfinity? <==> forall i :: 0 <= i < |ids| ==> ids[i].NegInfinity?
  {
    match MaxAsWritten(ids)
    case Finite(m) => Finite(m + 1)
    case NegInfinity => NegInfinity
  }

  function IdsOf(users: seq<User>): (ids: seq<IdValue>)
    ensures |ids| == |users| && forall i :: 0 <= i < |users| ==> ids[i] == Finite(users[i].id)
  {
    seq(|users|, i requires 0 <= i < |users| => Finite(users[i].id))
  }

  /** On a non-empty list the written id allocation agrees with `NextId`. */
  lemma {:induction false} NextIdAsWrittenAgrees(users: seq<User>)
    requires users != []
    ensures NextIdAsWritten(IdsOf(users)) == Finite(NextId(users))
  {
    MaxAsWrittenIsMax(users);
  }

  lemma {:induction false} MaxAsWrittenIsMax(users: seq<User>)
    requires users != []
    ensures MaxAsWritten(IdsOf(users)) == Finite(MaxId(users))
  {
    var ids := IdsOf(users);
    if |users| > 1 {
      assert ids[1..] == IdsOf(users[1..]);
      MaxAsWrittenIsMax(users[1..]);
    } else {
      assert ids[1..] == [];
    }
  }

  /**
   * As written, registering into an empty users array gives the id -Infinity,
   * and so does the registration after it: the two users share an id.
   */
  lemma EmptyListIdsRepeat()
    ensures NextIdAsWritten([]) == NegInfinity
    ensures NextIdAsWritten([NextIdAsWritten([])]) == NegInfinity
  {
  }

  // ---------------------------------------------------------------------------
  // Profile and password
  // ---------------------------------------------------------------------------

  /** The defined fields of a profile update among `fullName`, `department` and `email`. */
  datatype ProfileUpdate = ProfileUpdate(fullName: Option<string>, department: Option<string>, email: Option<string>)

  /** Overwrites only the given whitelisted fields. */
  function ApplyUpdate(u: User, p: ProfileUpdate): (v: User)
    ensures v.(fullName := u.fullName, department := u.department, email := u.email) == u
    ensures v.fullName == p.fullName.GetOr(u.fullName)
    ensures v.department == p.department.GetOr(u.department)
    ensures v.email == p.email.GetOr(u.email)
  {
    u.(fullName := p.fullName.GetOr(u.fullName),
       department := p.department.GetOr(u.department),
       email := p.email.GetOr(u.email))
  }

  /** The user `find(u => u.id === id)` returns. */
  function IndexOfId(users: seq<User>, id: int): (i: Option<nat>)
    ensures i.Some? ==> i.value < |users| && users[i.value].id == id
    ensures i.Some? ==> forall j :: 0 <= j < i.value ==> users[j].id != id
    ensures i.None? <==> forall j :: 0 <= j < |users| ==> users[j].id != id
  {
    Collections.FirstIndex(users, (u: User) => u.id == id)
  }

  /** The checks of `changePassword`, in order: known user, current password (trimmed), new length. */
  function PasswordChangeError(db: UsersDb, userId: int, currentPassword: string, newPassword: string): (e: Option<AuthError>)
    ensures e == Some(UserNotFound) <==> IndexOfId(db.users, userId).None?
    ensures e == Some(IncorrectPassword) <==>
      IndexOfId(db.users, userId).Some?
      && Text.Trim(db.users[IndexOfId(db.users, userId).value].password) != Text.Trim(currentPassword)
    ensures e == Some(PasswordTooShort(db.settings.passwordMinLength)) <==>
      IndexOfId(db.users, userId).Some?
      && Text.Trim(db.users[IndexOfId(db.users, userId).value].password) == Text.Trim(currentPassword)
      && |newPassword| < db.settings.passwordMinLength
    ensures e.None? <==>
      IndexOfId(db.users, userId).Some?
      && Text.Trim(db.users[IndexOfId(db.users, userId).value].password) == Text.Trim(currentPassword)
      && |newPassword| >= db.settings.passwordMinLength
  {
    match IndexOfId(db.users, userId)
    case None => Some(UserNotFound)
    case Some(i) =>
      if Text.Trim(db.users[i].password) != Text.Trim(currentPassword) then Some(IncorrectPassword)
      else if |newPassword| < db.settings.passwordMinLength then Some(PasswordTooShort(db.settings.passwordMinLength))
      else None
  }

  /** After a successful password change, the user logs in by username with the new password. */
  lemma ChangedPasswordLogsIn(db: UsersDb, userId: int, currentPassword: string, newPassword: string)
    requires PasswordChangeError(db, userId, currentPassword, newPassword).None?
    requires newPassword != ""
    requires var i := IndexOfId(db.users, userId).value; db.users[i].isActive && db.users[i].username != ""
    ensures var i := IndexOfId(db.users, userId).value;
            LoginOutcome(db.users[i := db.users[i].(password := newPassword)], db.users[i].username, newPassword).Success?
  {
    var i := IndexOfId(db.users, userId).value;
    var users := db.users[i := db.users[i].(password := newPassword)];
    assert LoginMatches(users[i], db.users[i].username, newPassword);
  }

  /** `getAllUsers`: every user, in order, without the password. */
  function PublicView(users: seq<User>): (r: seq<PublicUser>)
    ensures |r| == |users|
    ensures forall i :: 0 <= i < |users| ==>
      r[i].id == users[i].id && r[i].username == users[i].username && r[i].email == users[i].email
      && r[i].fullName == users[i].fullName && r[i].department == users[i].department
      && r[i].role == users[i].role && r[i].registeredAt == users[i].registeredAt
      && r[i].isActive == users[i].isActive && r[i].lastLogin == users[i].lastLogin
  {
    seq(|users|, i requires 0 <= i < |users| =>
      var u := users[i];
      PublicUser(u.id, u.username, u.email, u.fullName, u.department, u.role, u.registeredAt, u.lastLogin, u.isActive))
  }

  /** The listing reveals nothing about passwords: lists that differ only in passwords list the same. */
  lemma PublicViewHidesPasswords(a: seq<User>, b: seq<User>)
    requires |a| == |b|
    requires forall i :: 0 <= i < |a| ==> a[i].(password := "") == b[i].(password := "")
    ensures PublicView(a) == PublicView(b)
  {
    forall i | 0 <= i < |a| ensures PublicView(a)[i] == PublicView(b)[i] {
      assert a[i].(password := "").username == b[i].(password := "").username;
    }
  }

  // ---------------------------------------------------------------------------
  // The service
  // ---------------------------------------------------------------------------

  class AuthService {
    var users: UsersDb
    var currentUser: Option<Session>
    /** Local storage under `users_db`. */
    var usersDbStore: Option<Json<DbDoc>>
    /** Local storage under `current_user`. */
    var sessionStore: Option<Json<SessionDoc>>

    /** Memory and storage agree: a reload would find the same database and session. */
    ghost predicate Valid()
      reads this
    {
      usersDbStore == Some(Value(DocOf(users))) && LoadCurrentUser(sessionStore) == currentUser
    }

    /** The constructor: `loadUsers` then `loadCurrentUser`, over the given storage at time `now`. */
    constructor (storedDb: Option<Json<DbDoc>>, storedSession: Option<Json<SessionDoc>>, now: string)
      ensures Valid()
      ensures users == LoadUsers(storedDb, now) && usersDbStore == StoredAfterLoad(storedDb, now)
      ensures currentUser == LoadCurrentUser(storedSession) && sessionStore == storedSession
    {
      users := LoadUsers(storedDb, now);
      usersDbStore := Some(Value(DocOf(LoadUsers(storedDb, now))));
      currentUser := LoadCurrentUser(storedSession);
      sessionStore := storedSession;
    }

    /** `saveUsers`. */
    method SaveUsers(db: UsersDb)
      modifies this`users, this`usersDbStore
      ensures users == db && usersDbStore == Some(Value(DocOf(db)))
    {
      usersDbStore := Some(Value(DocOf(db)));
      users := db;
    }

    /** `saveCurrentUser`. */
    method SaveCurrentUser(u: User, now: string)
      modifies this`currentUser, this`sessionStore
      ensures currentUser == Some(SessionOf(u, now)) && sessionStore == Some(Value(Some(SessionOf(u, now))))
    {
      var session := Session(u.id, u.username, u.email, u.fullName, u.department, u.role, now);
      sessionStore := Some(Value(Some(session)));
      currentUser := Some(session);
    }

    /**
     * `login`: accepts exactly when both arguments are given and some user
     * matches; the first match gets its last login set to `now` and becomes
     * the session. A rejection changes nothing.
     */
    method Login(usernameOrEmail: string, password: string, now: string) returns (r: Result<Profile, AuthError>)
      requires Valid()
      modifies this
      ensures Valid()
      ensures r.Success? <==> LoginOutcome(old(users.users), usernameOrEmail, password).Success?
      ensures r.Failure? ==>
        r.error == LoginOutcome(old(users.users), usernameOrEmail, password).error
        && users == old(users) && currentUser == old(currentUser)
        && usersDbStore == old(usersDbStore) && sessionStore == old(sessionStore)
      ensures r.Success? ==>
        var i := LoginOutcome(old(users.users), usernameOrEmail, password).value;
        var u := old(users.users)[i].(lastLogin := Some(now));
        && users == old(users).(users := old(users.users)[i := u])
        && currentUser == Some(SessionOf(u, now))
        && r.value == ProfileOf(u)
        && IsLoggedIn()
    {
      var outcome := LoginOutcome(users.users, usernameOrEmail, password);
      if outcome.Failure? {
        return Failure(outcome.error);
      }
      var i := outcome.value;
      var user := users.users[i].(lastLogin := Some(now));
      SaveUsers(users.(users := users.users[i := user]));
      SaveCurrentUser(user, now);
      r := Success(ProfileOf(user));
    }

    /**
     * `register`: a rejection (in the order of `RegistrationError`) leaves the
     * database as it is; an accepted registration appends exactly one new user
     * with a fresh id and keeps the earlier users.
     */
    method Register(reg: Registration, now: string) returns (r: Result<Profile, AuthError>)
      requires Valid()
      modifies this
      ensures Valid()
      ensures r.Failure? <==> RegistrationError(old(users), reg).Some?
      ensures r.Failure? ==>
        r.error == RegistrationError(old(users), reg).value
        && users == old(users) && usersDbStore == old(usersDbStore)
      ensures r.Success? ==>
        var u := NewUser(old(users.users), reg, now);
        users == old(users).(users := old(users.users) + [u]) && r.value == ProfileOf(u)
      ensures currentUser == old(currentUser) && sessionStore == old(sessionStore)
    {
      var e := RegistrationError(users, reg);
      if e.Some? {
        return Failure(e.value);
      }
      var u := NewUser(users.users, reg, now);
      SaveUsers(users.(users := users.users + [u]));
      r := Success(ProfileOf(u));
    }

    /** `logout`: removes the session. */
    method Logout()
      requires Valid()
      modifies this
      ensures Valid() && !IsLoggedIn()
      ensures users == old(users) && usersDbStore == old(usersDbStore) && sessionStore.None?
    {
      sessionStore := None;
      currentUser := None;
    }

    function IsLoggedIn(): (b: bool)
      reads this
      ensures Valid() ==> (b <==> LoadCurrentUser(sessionStore).Some?)
    {
      currentUser.Some?
    }

    function GetAllUsers(): (r: seq<PublicUser>)
      reads this
      ensures r == PublicView(users.users)
    {
      PublicView(users.users)
    }

    /**
     * `updateProfile`: an unknown id is rejected without change; otherwise the
     * first user with that id gets the defined whitelisted fields, and the
     * session is refreshed when it belongs to that id.
     */
    method UpdateProfile(userId: int, update: ProfileUpdate, now: string) returns (r: Result<Profile, AuthError>)
      requires Valid()
      modifies this
      ensures Valid()
      ensures r.Failure? <==> IndexOfId(old(users.users), userId).None?
      ensures r.Failure? ==>
        r.error == UserNotFound && users == old(users) && currentUser == old(currentUser)
        && sessionStore == old(sessionStore)
      ensures r.Success? ==>
        var i := IndexOfId(old(users.users), userId).value;
        var u := ApplyUpdate(old(users.users)[i], update);
        && users == old(users).(users := old(users.users)[i := u])
        && r.value == ProfileOf(u)
        && currentUser == (if old(currentUser).Some? && old(currentUser).value.id == userId
                           then Some(SessionOf(u, now)) else old(currentUser))
        && sessionStore == (if old(currentUser).Some? && old(currentUser).value.id == userId
                            then Some(Value(Some(SessionOf(u, now)))) else old(sessionStore))
    {
      var found := IndexOfId(users.users, userId);
      if found.None? {
        return Failure(UserNotFound);
      }
      var i := found.value;
      var u := ApplyUpdate(users.users[i], update);
      SaveUsers(users.(users := users.users[i := u]));
      if currentUser.Some? && currentUser.value.id == userId {
        SaveCurrentUser(u, now);
      }
      r := Success(ProfileOf(u));
    }

    /**
     * `changePassword`: rejected (in the order of `PasswordChangeError`)
     * without change; on success only that user's password changes.
     */
    method ChangePassword(userId: int, currentPassword: string, newPassword: string) returns (r: Result<(), AuthError>)
      requires Valid()
      modifies this
      ensures Valid()
      ensures r.Failure? <==> PasswordChangeError(old(users), userId, currentPassword, newPassword).Some?
      ensures r.Failure? ==>
        r.error == PasswordChangeError(old(users), userId, currentPassword, newPassword).value
        && users == old(users)
      ensures r.Success? ==>
        var i := IndexOfId(old(users.users), userId).value;
        users == old(users).(users := old(users.users)[i := old(users.users)[i].(password := newPassword)])
      ensures currentUser == old(currentUser) && sessionStore == old(sessionStore)
    {
      var e := PasswordChangeError(users, userId, currentPassword, newPassword);
      if e.Some? {
        return Failure(e.value);
      }
      var i := IndexOfId(users.users, userId).value;
      SaveUsers(users.(users := users.users[i := users.users[i].(password := newPassword)]));
      r := Success(());
    }

    /** `importUsersData`: only a parsed object with a `users` array replaces the database. */
    method ImportUsersData(data: Json<DbDoc>) returns (r: Result<(), AuthError>)
      requires Valid()
      modifies this
      ensures Valid()
      ensures r.Success? <==> AsUsersDb(data).Some?
      ensures r.Success? ==> users == AsUsersDb(data).value
      ensures r.Failure? ==> r.error == InvalidFormat && users == old(users)
      ensures currentUser == old(currentUser) && sessionStore == old(sessionStore)
    {
      var db := AsUsersDb(data);
      if db.None? {
        return Failure(InvalidFormat);
      }
      SaveUsers(db.value);
      r := Success(());
    }

    /** `resetToDefaults`: the default users, registered at `now`, and no session. */
    method ResetToDefaults(now: string)
      requires Valid()
      modifies this
      ensures Valid()
      ensures users == DefaultUsers(now) && !IsLoggedIn() && sessionStore.None?
    {
      SaveUsers(DefaultUsers(now));
      sessionStore := None;
      SaveThenLoad(DefaultUsers(now), now);
      users := LoadUsers(usersDbStore, now);
      currentUser := LoadCurrentUser(sessionStore);
    }
  }
}
