/** Account registration: validate the form, refuse a taken email or username, and create the
    user, the very first one as the administrator. */
module RegisterRoute {
  import opened Wrappers
  import opened Api
  import opened Schema

  const InvalidEmailMessage := "Invalid email address"
  const UsernameTooShortMessage := "Username must be at least 3 characters"
  const UsernameTooLongMessage := "Username must be at most 20 characters"
  const UsernameCharactersMessage := "Username can only contain letters, numbers, and underscores"
  const PasswordTooShortMessage := "Password must be at least 8 characters"

  const EmailInUse := ApiError(400, "Email already in use")
  const UsernameTaken := ApiError(400, "Username already taken")
  const InternalError := ApiError(500, "Internal server error")

  /** The parsed body: a value that is not an object, or an object's three fields. */
  datatype RegisterPayload = NotAnObject(received: string) | Fields(email: Field, username: Field, password: Field)

  /** A character of `[a-zA-Z0-9_]`. */
  predicate IsUsernameChar(c: char) {
    ('a' <= c <= 'z') || ('A' <= c <= 'Z') || ('0' <= c <= '9') || c == '_'
  }

  /** A username the schema accepts. */
  predicate ValidUsername(u: string) {
    3 <= |u| <= 20 && forall i :: 0 <= i < |u| ==> IsUsernameChar(u[i])
  }

  /** A password the schema accepts. */
  predicate ValidPassword(p: string) {
    |p| >= 8
  }

  /** The email check, with the address test given as `isEmail`. */
  function EmailChecks(e: string, isEmail: string -> bool): seq<string> {
    if isEmail(e) then [] else [InvalidEmailMessage]
  }

  /** The username's checks, in the order declared: `min(3)`, `max(20)`, then the pattern
      `^[a-zA-Z0-9_]+$`, each failing one adding its issue. */
  function UsernameChecks(u: string): (issues: seq<string>)
    ensures issues == [] <==> ValidUsername(u)
    ensures |u| < 3 ==> issues[0] == UsernameTooShortMessage
    ensures |u| > 20 ==> issues[0] == UsernameTooLongMessage
  {
    (if |u| < 3 then [UsernameTooShortMessage] else [])
    + (if |u| > 20 then [UsernameTooLongMessage] else [])
    + (if u != [] && forall i :: 0 <= i < |u| ==> IsUsernameChar(u[i]) then [] else [UsernameCharactersMessage])
  }

  /** The password's check. */
  function PasswordChecks(p: string): (issues: seq<string>)
    ensures issues == [] <==> ValidPassword(p)
  {
    if |p| < 8 then [PasswordTooShortMessage] else []
  }

  /** The issues of an object's fields, in the schema's field order. */
  function Issues(p: RegisterPayload, isEmail: string -> bool): seq<string>
    requires p.Fields?
  {
    StringFieldIssues(p.email, false, EmailChecks(TextOf(p.email), isEmail))
    + StringFieldIssues(p.username, false, UsernameChecks(TextOf(p.username)))
    + StringFieldIssues(p.password, false, PasswordChecks(TextOf(p.password)))
  }

  /** A validated form. */
  datatype Registration = Registration(email: string, username: string, password: string)

  /** `registerSchema.safeParse(body)`: the form, or the first issue's message. */
  function Validate(p: RegisterPayload, isEmail: string -> bool): (r: Result<Registration, string>)
    ensures r.Ok? <==> && p.Fields? && p.email.Text? && p.username.Text? && p.password.Text?
                       && isEmail(p.email.s) && ValidUsername(p.username.s) && ValidPassword(p.password.s)
    ensures r.Ok? ==> r.value == Registration(p.email.s, p.username.s, p.password.s)
    ensures p.NotAnObject? ==> r == Err(ObjectIssue(p.received))
  {
    match p
    case NotAnObject(t) => Err(ObjectIssue(t))
    case Fields(email, username, password) =>
      var issues := Issues(p, isEmail);
      if issues != [] then Err(issues[0]) else Ok(Registration(email.s, username.s, password.s))
  }

  /** With a good email, a username shorter than three characters is reported as too short,
      before its other issues and before any password issue. */
  lemma ShortUsernameReportedFirst(email: string, username: string, password: Field, isEmail: string -> bool)
    requires isEmail(email) && |username| < 3
    ensures Validate(Fields(Text(email), Text(username), password), isEmail) == Err(UsernameTooShortMessage)
  {
  }

  /** With a good email and username, a short password is reported. */
  lemma ShortPasswordReported(email: string, username: string, password: string, isEmail: string -> bool)
    requires isEmail(email) && ValidUsername(username) && |password| < 8
    ensures Validate(Fields(Text(email), Text(username), Text(password)), isEmail) == Err(PasswordTooShortMessage)
  {
  }

  // ---------------------------------------------------------------- the store

  /** A stored user; `id` is the number of users before it. */
  datatype User = User(id: nat, email: string, username: string, password: string, role: Role)

  /** What the reply shows of a user: no password. */
  datatype PublicUser = PublicUser(id: nat, email: string, username: string, role: Role)

  function Public(user: User): (p: PublicUser)
    ensures p.id == user.id && p.email == user.email && p.username == user.username && p.role == user.role
  {
    PublicUser(user.id, user.email, user.username, user.role)
  }

  /** `findUnique({where: {email}})` finds a user. */
  predicate EmailRegistered(users: seq<User>, email: string) {
    exists i :: 0 <= i < |users| && users[i].email == email
  }

  /** `findUnique({where: {username}})` finds a user. */
  predicate UsernameRegistered(users: seq<User>, username: string) {
    exists i :: 0 <= i < |users| && users[i].username == username
  }

  /** Emails and usernames are unique, ids are creation positions, and exactly the first
      user is the administrator. */
  predicate ValidUsers(users: seq<User>) {
    && (forall i, j :: 0 <= i < j < |users| ==> users[i].email != users[j].email && users[i].username != users[j].username)
    && (forall i :: 0 <= i < |users| ==> users[i].id == i)
    && (forall i :: 0 <= i < |users| ==> (users[i].role == ADMIN <==> i == 0))
  }

  /** A user with a new email and a new username, numbered after the others and the
      administrator only when first, keeps the table valid. */
  lemma AppendUserKeepsValid(users: seq<User>, user: User)
    requires ValidUsers(users)
    requires !EmailRegistered(users, user.email) && !UsernameRegistered(users, user.username)
    requires user.id == |users| && (user.role == ADMIN <==> users == [])
    ensures ValidUsers(users + [user])
  {
    var users' := users + [user];
    forall i, j | 0 <= i < j < |users'|
      ensures users'[i].email != users'[j].email && users'[i].username != users'[j].username
    {
      if j == |users| {
        assert users'[i] == users[i];
      }
    }
  }

  /** The user table in order of creation. */
  class UserStore {
    var users: seq<User>

    predicate Valid()
      reads this
    {
      ValidUsers(users)
    }

    constructor()
      ensures Valid() && users == []
    {
      users := [];
    }

    /** `POST`: 500 for a body that is not JSON; 400 with the first issue for an invalid form;
        400 for a taken email, then for a taken username; otherwise one new user, ADMIN when
        the store was empty, stored with `hash(password)`. Only the last case changes the store. */
    method Register(body: Option<RegisterPayload>, isEmail: string -> bool, hash: string -> string)
      returns (r: Result<PublicUser, ApiError>)
      requires Valid()
      modifies this
      ensures Valid()
      ensures r.Err? ==> users == old(users)
      ensures body.None? ==> r == Err(InternalError)
      ensures body.Some? && Validate(body.value, isEmail).Err? ==> r == Err(ApiError(400, Validate(body.value, isEmail).error))
      ensures body.Some? && Validate(body.value, isEmail).Ok? ==>
                var form := Validate(body.value, isEmail).value;
                if EmailRegistered(old(users), form.email) then r == Err(EmailInUse)
                else if UsernameRegistered(old(users), form.username) then r == Err(UsernameTaken)
                else
                  var user := User(|old(users)|, form.email, form.username, hash(form.password),
                                   if old(users) == [] then ADMIN else USER);
                  users == old(users) + [user] && r == Ok(Public(user))
    {
      if body.None? {
        return Err(InternalError);
      }
      var result := Validate(body.value, isEmail);
      if result.Err? {
        return Err(ApiError(400, result.error));
      }
      var form := result.value;

      var existingEmail := EmailRegistered(users, form.email);
      if existingEmail {
        return Err(EmailInUse);
      }

      var existingUsername := UsernameRegistered(users, form.username);
      if existingUsername {
        return Err(UsernameTaken);
      }

      var userCount := |users|;
      var isFirstUser := userCount == 0;

      var hashedPassword := hash(form.password);
      var user := User(userCount, form.email, form.username, hashedPassword, if isFirstUser then ADMIN else USER);
      AppendUserKeepsValid(users, user);
      users := users + [user];
      return Ok(Public(user));
    }
  }

  /** In a valid store the administrator is the first user registered, and no one else. */
  lemma OnlyFirstUserIsAdmin(store: UserStore, i: nat)
    requires store.Valid() && i < |store.users|
    ensures store.users[i].role == ADMIN <==> store.users[i].id == 0
  {
  }
}
