/** The auth service: registration and login against the Users collection. */
module Auth {
  import opened Seqs
  import opened Tables
  import opened Store

  /** The role reported for a user document that has none. */
  const UNKNOWN_ROLE := "unknown"

  /** `str.lower()` on one character, for ASCII letters only. */
  function LowerChar(c: char): char {
    if 'A' <= c <= 'Z' then (c as int + 32) as char else c
  }

  /** `str.lower()`, ASCII letters only. */
  function Lower(s: string): string {
    seq(|s|, k requires 0 <= k < |s| => LowerChar(s[k]))
  }

  /** Lower-casing leaves no upper-case letter and keeps every other character. */
  lemma LowerSpec(s: string)
    ensures |Lower(s)| == |s|
    ensures forall k :: 0 <= k < |s| ==> !('A' <= Lower(s)[k] <= 'Z')
    ensures forall k :: 0 <= k < |s| && !('A' <= s[k] <= 'Z') ==> Lower(s)[k] == s[k]
  {
  }

  /** The document `register_user` inserts: no savings field yet. */
  function NewUser(username: string, password: string, role: string): User {
    User(username, password, Some(Lower(role)), None)
  }

  /** The role a login reports for a user document. */
  function RoleOf(u: User): string {
    u.role.GetOr(UNKNOWN_ROLE)
  }

  /** `register_user`: refuse a taken username, otherwise insert the user with
      the role lower-cased. */
  method RegisterUser(db: Db, username: string, password: string, role: string) returns (r: Result<()>)
    requires db.Valid()
    modifies db
    ensures db.Valid()
    ensures FindUser(old(db.users), username).Some? ==> r == Err(UserExists) && unchanged(db)
    ensures FindUser(old(db.users), username).None? ==>
      r == Ok(()) && db.State() == old(db.State()).(users := old(db.users) + [NewUser(username, password, role)])
  {
    if FindUser(db.users, username).Some? {
      return Err(UserExists);
    }
    db.users := db.users + [NewUser(username, password, role)];
    return Ok(());
  }

  /** `login_user`: the role of the first user whose username and password both
      match, or an error. It reads the Users collection and changes nothing. */
  function LoginUser(users: seq<User>, username: string, password: string): (r: Result<string>)
    ensures r.Ok? <==>
      exists i :: 0 <= i < |users| && users[i].username == username && users[i].password == password
    ensures r.Err? ==> r.error == InvalidCredentials
    ensures r.Ok? ==>
      exists i :: 0 <= i < |users| && users[i].username == username && users[i].password == password
                  && r.value == RoleOf(users[i])
                  && forall j :: 0 <= j < i ==> !(users[j].username == username && users[j].password == password)
  {
    match FirstIndex(users, HasCredentials(username, password))
    case None => Err(InvalidCredentials)
    case Some(i) => Ok(RoleOf(users[i]))
  }

  /** In a store with unique usernames, logging in as a known user succeeds
      exactly when the password is that user's, and reports that user's role. */
  lemma LoginKnownUser(users: seq<User>, username: string, password: string, k: nat)
    requires UniqueUsernames(users)
    requires k < |users| && users[k].username == username
    ensures LoginUser(users, username, password) ==
              if users[k].password == password then Ok(RoleOf(users[k])) else Err(InvalidCredentials)
  {
    var i := FirstIndex(users, HasCredentials(username, password));
    if i.Some? {
      assert users[i.value].username == username;
    }
  }

  /** Logging in with a username nobody registered fails. */
  lemma LoginUnknownUser(users: seq<User>, username: string, password: string)
    requires FindUser(users, username).None?
    ensures LoginUser(users, username, password) == Err(InvalidCredentials)
  {
  }

  /** After registering a fresh username, logging in with the same credentials
      succeeds and reports the lower-cased role. */
  lemma RegisterThenLogin(users: seq<User>, username: string, password: string, role: string)
    requires FindUser(users, username).None?
    ensures LoginUser(users + [NewUser(username, password, role)], username, password) == Ok(Lower(role))
  {
    var after := users + [NewUser(username, password, role)];
    assert HasCredentials(username, password)(after[|users|]);
  }

  /** After a registration the username is taken, so registering it again is refused. */
  lemma RegisteredNameIsTaken(users: seq<User>, username: string, password: string, role: string)
    ensures FindUser(users + [NewUser(username, password, role)], username).Some?
  {
    var after := users + [NewUser(username, password, role)];
    assert HasUsername(username)(after[|users|]);
  }
}
