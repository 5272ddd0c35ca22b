/** The authentication store: accounts registered on the device (`@registered_users`), the
    signed-in session (`@user_data`), and the notification emails sent on registration and
    login. Passwords are kept only as their digest; the digest function is a parameter. */
module AuthContext {
  import opened Wrappers
  import Keyed
  import EmailService

  /** A registered account as stored; `passwordHash` is the digest of the password. */
  datatype Credential = Credential(
    id: string, username: string, email: string, passwordHash: string, phone: Option<string>,
    createdAt: string)

  function EmailOf(c: Credential): string { c.email }

  /** The signed-in user: the account without its password digest. */
  datatype Session = Session(id: string, email: string, username: string, phone: Option<string>)

  function SessionOf(c: Credential): Session {
    Session(c.id, c.email, c.username, c.phone)
  }

  datatype LoginFailure = UnknownEmail | WrongPassword

  /** `i` is the position of the first account with that email, the one `find` returns. */
  predicate FirstWithEmail(users: seq<Credential>, email: string, i: int) {
    0 <= i < |users| && users[i].email == email && forall j :: 0 <= j < i ==> users[j].email != email
  }

  /** The first account with an email is the one the search finds. */
  lemma FirstWithEmailIsFound(users: seq<Credential>, email: string, k: nat)
    requires Keyed.FirstIndex(users, EmailOf, email) == Some(k)
    ensures FirstWithEmail(users, email, k)
    ensures forall i | FirstWithEmail(users, email, i) :: i == k
  {
    forall j | 0 <= j < k ensures users[j].email != email {
      assert EmailOf(users[j]) != email;
    }
    forall i | FirstWithEmail(users, email, i) ensures i == k {
      assert EmailOf(users[k]) == email && EmailOf(users[i]) == email;
    }
  }

  /** The decision `login` makes: find the first account with that email, then compare its
      stored digest with the digest of the password given (`hashed`). */
  function LoginCheck(users: seq<Credential>, email: string, hashed: string): (r: Result<Session, LoginFailure>)
    ensures r == Err(UnknownEmail) <==> !Keyed.HasKey(users, EmailOf, email)
    ensures r.Ok? ==> r.value.email == email
    ensures r.Ok? ==>
      exists i :: 0 <= i < |users| && users[i].email == email && users[i].passwordHash == hashed && r.value == SessionOf(users[i])
    ensures forall i | FirstWithEmail(users, email, i) ::
      r == (if users[i].passwordHash == hashed then Ok(SessionOf(users[i])) else Err(WrongPassword))
    ensures (forall i :: 0 <= i < |users| && users[i].email == email ==> users[i].passwordHash != hashed)
      ==> r.Err?
  {
    match Keyed.FirstIndex(users, EmailOf, email)
    case None => Err(UnknownEmail)
    case Some(k) =>
      FirstWithEmailIsFound(users, email, k);
      if users[k].passwordHash != hashed then Err(WrongPassword) else Ok(SessionOf(users[k]))
  }

  /** When no two accounts share an email, login succeeds exactly when some account has that
      email and the digest matches. */
  lemma LoginSucceedsIff(users: seq<Credential>, email: string, hashed: string)
    requires Keyed.UniqueKeys(users, EmailOf)
    ensures LoginCheck(users, email, hashed).Ok? <==>
      exists i :: 0 <= i < |users| && users[i].email == email && users[i].passwordHash == hashed
  {
    if exists i :: 0 <= i < |users| && users[i].email == email && users[i].passwordHash == hashed {
      var i :| 0 <= i < |users| && users[i].email == email && users[i].passwordHash == hashed;
      assert EmailOf(users[i]) == email;
      var k := Keyed.FirstIndex(users, EmailOf, email).value;
      assert k == i;
    }
  }

  datatype RegisterFailure = DuplicateEmail

  /** The account list `register` writes: refused when the email is taken, otherwise the new
      account appended at the end. */
  function RegisterCheck(users: seq<Credential>, account: Credential): (r: Result<seq<Credential>, RegisterFailure>)
    ensures r.Err? <==> Keyed.HasKey(users, EmailOf, account.email)
    ensures r.Ok? ==> r.value == users + [account]
  {
    if Keyed.FirstIndex(users, EmailOf, account.email).Some? then Err(DuplicateEmail)
    else Ok(users + [account])
  }

  /** Registration never creates a second account for an email. */
  lemma RegisterKeepsEmailsUnique(users: seq<Credential>, account: Credential)
    requires Keyed.UniqueKeys(users, EmailOf)
    ensures RegisterCheck(users, account).Ok? ==> Keyed.UniqueKeys(RegisterCheck(users, account).value, EmailOf)
  {
    if RegisterCheck(users, account).Ok? {
      Keyed.AppendKeepsUnique(users, EmailOf, account);
    }
  }

  /** Once an account is registered, logging in with its email and the same password digest
      yields its session, whatever accounts came before it. */
  lemma RegisterThenLogin(users: seq<Credential>, account: Credential)
    requires RegisterCheck(users, account).Ok?
    ensures LoginCheck(RegisterCheck(users, account).value, account.email, account.passwordHash)
         == Ok(SessionOf(account))
  {
    var after := users + [account];
    var k := Keyed.FirstIndex(after, EmailOf, account.email);
    assert EmailOf(after[|users|]) == account.email;
    assert k.Some?;
    assert forall j :: 0 <= j < |users| ==> after[j] == users[j];
  }

  /** The authentication provider. */
  class AuthStore {
    /** the password digest (SHA-256 in the app) */
    const hash: string -> string
    const mail: EmailService.Mailer
    var user: Option<Session>
    var isLoading: bool
    /** the content of `@registered_users`; None when the key is absent */
    var usersKey: Option<seq<Credential>>
    /** the content of `@user_data`; None when the key is absent */
    var sessionKey: Option<Session>

    constructor (hash: string -> string, mail: EmailService.Mailer,
                 usersKey: Option<seq<Credential>>, sessionKey: Option<Session>)
      ensures this.hash == hash && this.mail == mail
      ensures this.usersKey == usersKey && this.sessionKey == sessionKey
      ensures user == None && isLoading
    {
      this.hash := hash;
      this.mail := mail;
      this.usersKey := usersKey;
      this.sessionKey := sessionKey;
      user := None;
      isLoading := true;
    }

    /** The registered accounts: what is stored, or none. */
    function Users(): (users: seq<Credential>)
      reads this
      ensures usersKey.None? ==> users == []
      ensures usersKey.Some? ==> users == usersKey.value
    {
      if usersKey.Some? then usersKey.value else []
    }

    /** `loadUser`: restore a stored session, if any; loading is over either way. */
    method LoadUser()
      modifies this`user, this`isLoading
      ensures user == if sessionKey.Some? then sessionKey else old(user)
      ensures !isLoading
    {
      if sessionKey.Some? {
        user := sessionKey;
      }
      isLoading := false;
    }

    /** `login`. On success the session is stored and set, and a login email is attempted
        (`delivered` is its network outcome); on failure nothing but the loading flag changes. */
    method Login(email: string, password: string, delivered: bool, timestamp: string) returns (ok: bool)
      modifies this`user, this`sessionKey, this`isLoading, mail
      ensures ok == LoginCheck(old(Users()), email, hash(password)).Ok?
      ensures ok ==> user == Some(LoginCheck(old(Users()), email, hash(password)).value) && sessionKey == user
      ensures ok ==> mail.stored == Some(EmailService.KeepNewest(old(mail.GetEmailLogs()) +
        [EmailService.LogEntry(if delivered then "login" else "login_failed", email, user.value.username,
                               None, timestamp)]))
      ensures !ok ==> user == old(user) && sessionKey == old(sessionKey) && mail.stored == old(mail.stored)
      ensures !isLoading
    {
      isLoading := true;
      var users := if usersKey.Some? then usersKey.value else [];
      var found := Keyed.FirstIndex(users, EmailOf, email);
      if found.None? {
        ok := false;
      } else {
        var account := users[found.value];
        if account.passwordHash != hash(password) {
          ok := false;
        } else {
          var session := Session(account.id, account.email, account.username, account.phone);
          sessionKey := Some(session);
          user := Some(session);
          var _ := mail.SendLoginEmail(account.email, account.username, delivered, timestamp);
          ok := true;
        }
      }
      isLoading := false;
    }

    /** `register`. A taken email is refused (the app throws) and nothing is stored; otherwise
        the new account, with the digest of the password, is appended to the stored list and a
        registration email is attempted. Registering does not sign the user in. */
    method Register(username: string, email: string, password: string, phone: Option<string>,
                    idStamp: string, createdAt: string, delivered: bool, timestamp: string)
      returns (r: Result<Credential, RegisterFailure>)
      modifies this`usersKey, this`isLoading, mail
      ensures r.Err? <==> Keyed.HasKey(old(Users()), EmailOf, email)
      ensures r.Ok? ==> r.value == Credential("user_" + idStamp, username, email, hash(password), phone, createdAt)
      ensures r.Ok? ==> usersKey == Some(RegisterCheck(old(Users()), r.value).value)
      ensures r.Ok? ==> mail.stored == Some(EmailService.KeepNewest(old(mail.GetEmailLogs()) +
        [EmailService.LogEntry(if delivered then "registration" else "registration_failed", email, username,
                               None, timestamp)]))
      ensures r.Err? ==> usersKey == old(usersKey) && mail.stored == old(mail.stored)
      ensures !isLoading
    {
      isLoading := true;
      var users := if usersKey.Some? then usersKey.value else [];
      if Keyed.FirstIndex(users, EmailOf, email).Some? {
        r := Err(DuplicateEmail);
      } else {
        var account := Credential("user_" + idStamp, username, email, hash(password), phone, createdAt);
        usersKey := Some(users + [account]);
        var _ := mail.SendRegistrationEmail(email, username, delivered, timestamp);
        r := Ok(account);
      }
      isLoading := false;
    }

    /** `logout`: remove the stored session and sign out. */
    method Logout()
      modifies this`user, this`sessionKey
      ensures user == None && sessionKey == None
    {
      sessionKey := None;
      user := None;
    }
  }
}
