/** The authentication service: registration with a unique email, login by
    email and password, and the lookup behind the JWT strategy. bcrypt and
    the JWT signer are given as functions. */
module Auth {
  import opened Outcomes
  import opened Store

  /** The claims signed into an access token. */
  datatype Payload = Payload(sub: int, email: string, role: string)

  /** bcrypt's `hash` (with the salt it draws), bcrypt's `compare` and the JWT signer. */
  datatype Crypto = Crypto(hash: (string, int) -> string, compare: (string, string) -> bool, sign: Payload -> string)

  /** A user row without its `password` column. */
  datatype PublicUser = PublicUser(id: int, email: string, name: string, role: string, createdAt: int)
  /** The user object `login` returns. */
  datatype LoginUser = LoginUser(id: int, email: string, name: string, role: string)
  datatype Session = Session(accessToken: string, user: LoginUser)

  const InvalidCredentials: string := "Invalid credentials"

  /** `const { password, ...result } = user`: every column but the password. */
  function WithoutPassword(u: User): (p: PublicUser)
    ensures p.id == u.id && p.email == u.email && p.name == u.name && p.role == u.role && p.createdAt == u.createdAt
  {
    PublicUser(u.id, u.email, u.name, u.role, u.createdAt)
  }

  /** What a successful login answers for `u`: a token over id, email and role, and the user without password. */
  function SessionFor(u: User, crypto: Crypto): (s: Session)
    ensures s.accessToken == crypto.sign(Payload(u.id, u.email, u.role))
    ensures s.user == LoginUser(u.id, u.email, u.name, u.role)
  {
    Session(crypto.sign(Payload(u.id, u.email, u.role)), LoginUser(u.id, u.email, u.name, u.role))
  }

  predicate EmailTaken(users: map<int, User>, email: string) {
    exists id :: id in users && users[id].email == email
  }

  class AuthService {
    const db: Db
    const crypto: Crypto

    constructor (db: Db, crypto: Crypto)
      ensures this.db == db && this.crypto == crypto
    {
      this.db := db;
      this.crypto := crypto;
    }

    /** Creates a user with role "user" and the hashed password. A taken email is
        a Conflict and creates nothing. Whether the welcome mail went out does
        not change the outcome. */
    method Register(email: string, password: string, name: string, salt: int, now: int, mailSent: bool)
      returns (r: Result<PublicUser>)
      requires db.Valid()
      modifies db
      ensures db.Valid()
      ensures r.Fail? <==> EmailTaken(old(db.users), email)
      ensures r.Fail? ==> r == Fail(Conflict, "Email already registered") && unchanged(db)
      ensures r.Ok? ==>
        var u := User(old(db.nextUserId), email, crypto.hash(password, salt), name, "user", now);
        && db.users == old(db.users)[u.id := u] && db.nextUserId == old(db.nextUserId) + 1
        && r.value == WithoutPassword(u)
        && db.folders == old(db.folders) && db.tags == old(db.tags) && db.files == old(db.files) && db.fileTags == old(db.fileTags)
        && db.nextFolderId == old(db.nextFolderId) && db.nextTagId == old(db.nextTagId) && db.nextFileId == old(db.nextFileId)
    {
      if exists id :: id in db.users && db.users[id].email == email {
        return Fail(Conflict, "Email already registered");
      }
      var hash := crypto.hash(password, salt);
      var user := User(db.nextUserId, email, hash, name, "user", now);
      db.users := db.users[user.id := user];
      db.nextUserId := db.nextUserId + 1;
      r := Ok(WithoutPassword(user));
    }

    /** Logs in by email and password. An unknown email and a wrong password give
        the same Unauthorized answer; the store is only read. */
    method Login(email: string, password: string) returns (r: Result<Session>)
      requires db.Valid()
      ensures !EmailTaken(db.users, email) ==> r == Fail(Unauthorized, InvalidCredentials)
      ensures forall id :: id in db.users && db.users[id].email == email ==>
        r == if crypto.compare(password, db.users[id].password) then Ok(SessionFor(db.users[id], crypto))
             else Fail(Unauthorized, InvalidCredentials)
    {
      if !(exists id :: id in db.users && db.users[id].email == email) {
        return Fail(Unauthorized, InvalidCredentials);
      }
      var id :| id in db.users && db.users[id].email == email;
      var user := db.users[id];
      if !crypto.compare(password, user.password) {
        return Fail(Unauthorized, InvalidCredentials);
      }
      r := Ok(SessionFor(user, crypto));
    }

    /** The user behind a token's `sub`, without the password. */
    method ValidateUser(userId: int) returns (r: Result<PublicUser>)
      ensures userId !in db.users ==> r == Fail(Unauthorized, "User not found")
      ensures userId in db.users ==> r == Ok(WithoutPassword(db.users[userId]))
    {
      if userId !in db.users {
        return Fail(Unauthorized, "User not found");
      }
      r := Ok(WithoutPassword(db.users[userId]));
    }
  }

  /** A login that fails tells nothing about why: whatever the stored users and
      whatever was typed, every failure is the same value. */
  lemma LoginFailuresAlike(users: map<int, User>, crypto: Crypto, email: string, password: string, r: Result<Session>)
    requires UniqueEmails(users)
    requires !EmailTaken(users, email) ==> r == Fail(Unauthorized, InvalidCredentials)
    requires forall id :: id in users && users[id].email == email ==>
      r == if crypto.compare(password, users[id].password) then Ok(SessionFor(users[id], crypto))
           else Fail(Unauthorized, InvalidCredentials)
    ensures r.Fail? <==> !(exists id :: id in users && users[id].email == email && crypto.compare(password, users[id].password))
    ensures r.Fail? ==> r == Fail(Unauthorized, InvalidCredentials)
  {
    if EmailTaken(users, email) {
      var id :| id in users && users[id].email == email;
      if exists j :: j in users && users[j].email == email && crypto.compare(password, users[j].password) {
        var j :| j in users && users[j].email == email && crypto.compare(password, users[j].password);
        assert j == id;
      }
    }
  }

  /** Right after registering, the new user is the only one with that email,
      and logging in with the same password matches it, provided bcrypt's
      `compare` accepts what its `hash` produced. */
  lemma RegisteredUserCanLogIn(users: map<int, User>, after: map<int, User>, crypto: Crypto, u: User, password: string, salt: int)
    requires !EmailTaken(users, u.email) && u.id !in users && after == users[u.id := u]
    requires u.password == crypto.hash(password, salt)
    requires crypto.compare(password, crypto.hash(password, salt))
    ensures UniqueEmails(users) ==> UniqueEmails(after)
    ensures forall id :: id in after && after[id].email == u.email ==> id == u.id && crypto.compare(password, after[id].password)
  {
  }
}
