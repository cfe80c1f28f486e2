/** The session store of the portal (`AuthProvider`): the signed-in user,
    a `loading` flag that is true until the stored session has been read,
    and one browser-storage slot under the key "cruise_user". Sign-in is an
    exact-match lookup in a fixed credential table. */
module Auth {
  import opened Lists

  /** The five roles a user can have. */
  datatype Role = Voyager | Admin | Manager | HeadCook | Supervisor

  /** The string each role is written as in user records. */
  function RoleName(r: Role): string
  {
    match r
    case Voyager => "voyager"
    case Admin => "admin"
    case Manager => "manager"
    case HeadCook => "headcook"
    case Supervisor => "supervisor"
  }

  /** A signed-in identity, as kept in the session and in storage. The role
      is a string because a record read back from storage may hold any. */
  datatype User = User(id: string, name: string, email: string, role: string)

  /** A row of the credential table: an identity plus its password. */
  datatype Credential = Credential(id: string, name: string, email: string, password: string, role: string)

  /** `const { password, ...userWithoutPassword } = foundUser`. */
  function WithoutPassword(c: Credential): User
  {
    User(c.id, c.name, c.email, c.role)
  }

  /** The fixed credential table that stands in for an identity provider. */
  const MockUsers: seq<Credential> := [
    Credential("1", "John Voyager", "voyager@cruise.com", "password123", "voyager"),
    Credential("2", "Admin User", "admin@cruise.com", "password123", "admin"),
    Credential("3", "Manager User", "manager@cruise.com", "password123", "manager"),
    Credential("4", "Head Cook", "cook@cruise.com", "password123", "headcook"),
    Credential("5", "Supervisor", "supervisor@cruise.com", "password123", "supervisor")
  ]

  /** The row whose email and password both equal the ones given, if any. */
  function FindCredential(email: string, password: string): (r: Option<Credential>)
    ensures r.Some? <==> exists i :: 0 <= i < |MockUsers| && MockUsers[i].email == email && MockUsers[i].password == password
    ensures r.Some? ==> r.value in MockUsers && r.value.email == email && r.value.password == password
  {
    Find(MockUsers, (c: Credential) => c.email == email && c.password == password)
  }

  /** The table's emails are pairwise distinct and every role name is one of the five. */
  lemma MockUsersWellFormed()
    ensures forall i, j :: 0 <= i < j < |MockUsers| ==> MockUsers[i].email != MockUsers[j].email
    ensures forall i :: 0 <= i < |MockUsers| ==> exists r :: RoleName(r) == MockUsers[i].role
  {
    assert RoleName(Voyager) == MockUsers[0].role;
    assert RoleName(Admin) == MockUsers[1].role;
    assert RoleName(Manager) == MockUsers[2].role;
    assert RoleName(HeadCook) == MockUsers[3].role;
    assert RoleName(Supervisor) == MockUsers[4].role;
  }

  /** Since emails are distinct, a matching row is the one the lookup returns. */
  lemma MatchIsUnique(email: string, password: string, i: nat)
    requires i < |MockUsers| && MockUsers[i].email == email && MockUsers[i].password == password
    ensures FindCredential(email, password) == Some(MockUsers[i])
  {
    MockUsersWellFormed();
    FindFirstMatch(MockUsers, (c: Credential) => c.email == email && c.password == password, i);
  }

  /** The provider's observable state: the session user, the loading flag
      and the "cruise_user" storage slot. */
  datatype Session = Session(user: Option<User>, loading: bool, stored: Option<User>)

  /** A freshly mounted provider over whatever storage already holds. */
  function Mounted(stored: Option<User>): Session
  {
    Session(None, true, stored)
  }

  /** The mount effect: adopt the stored record if there is one; either way loading ends. */
  function Restored(s: Session): Session
  {
    Session(if s.stored.Some? then s.stored else s.user, false, s.stored)
  }

  /** Sign-in: on a match the password-less record becomes the user and is
      stored; otherwise nothing changes. */
  function LoggedIn(s: Session, email: string, password: string): Session
  {
    match FindCredential(email, password)
    case Some(c) => s.(user := Some(WithoutPassword(c)), stored := Some(WithoutPassword(c)))
    case None => s
  }

  /** Sign-out: no user and an empty slot. */
  function LoggedOut(s: Session): Session
  {
    s.(user := None, stored := None)
  }

  /** Sign-in succeeds exactly for a pair in the table; then user and slot
      both hold that row without its password, otherwise the state is untouched. */
  lemma LoginOutcome(s: Session, email: string, password: string)
    ensures var t := LoggedIn(s, email, password);
      && (t != s ==> FindCredential(email, password).Some?)
      && (forall i :: 0 <= i < |MockUsers| && MockUsers[i].email == email && MockUsers[i].password == password ==>
            t == s.(user := Some(WithoutPassword(MockUsers[i])), stored := Some(WithoutPassword(MockUsers[i]))))
      && t.loading == s.loading
  {
    forall i | 0 <= i < |MockUsers| && MockUsers[i].email == email && MockUsers[i].password == password
      ensures LoggedIn(s, email, password)
              == s.(user := Some(WithoutPassword(MockUsers[i])), stored := Some(WithoutPassword(MockUsers[i])))
    {
      MatchIsUnique(email, password, i);
    }
  }

  /** After a successful sign-in, a provider mounted afresh over the same
      storage restores the same user and stops loading. */
  lemma RestoreAfterLogin(s: Session, email: string, password: string)
    requires FindCredential(email, password).Some?
    ensures var t := LoggedIn(s, email, password);
      Restored(Mounted(t.stored)) == Session(t.user, false, t.stored)
  {
  }

  /** Sign-out does not depend on the state it starts from, so doing it twice is doing it once. */
  lemma LogoutIdempotent(s: Session, s': Session)
    requires s.loading == s'.loading
    ensures LoggedOut(LoggedOut(s)) == LoggedOut(s) == LoggedOut(s')
    ensures LoggedOut(s).user.None? && LoggedOut(s).stored.None?
  {
  }

  /** The browser-storage slot "cruise_user"; it outlives any one provider. */
  class Storage {
    var cruiseUser: Option<User>

    constructor (initial: Option<User>)
      ensures cruiseUser == initial
    {
      cruiseUser := initial;
    }
  }

  /** The session store as the application holds it. */
  class AuthProvider {
    const storage: Storage
    var user: Option<User>
    var loading: bool

    /** The provider's state together with its storage slot. */
    ghost function State(): Session
      reads this, storage
    {
      Session(user, loading, storage.cruiseUser)
    }

    /** `isAuthenticated: !!user`. */
    function IsAuthenticated(): bool
      reads this
    {
      user.Some?
    }

    /** Mounting: no user yet, and loading until the mount effect has run. */
    constructor (storage: Storage)
      ensures this.storage == storage
      ensures State() == Mounted(storage.cruiseUser)
    {
      this.storage := storage;
      user := None;
      loading := true;
    }

    /** The mount effect that reads the stored session. */
    method Restore()
      modifies this
      ensures State() == Restored(old(State()))
    {
      if storage.cruiseUser.Some? {
        user := storage.cruiseUser;
      }
      loading := false;
    }

    /** `login(email, password)`. */
    method Login(email: string, password: string) returns (ok: bool)
      modifies this, storage
      ensures ok <==> FindCredential(email, password).Some?
      ensures ok ==> IsAuthenticated()
      ensures State() == LoggedIn(old(State()), email, password)
    {
      var found := FindCredential(email, password);
      match found
      case Some(c) =>
        var u := WithoutPassword(c);
        user := Some(u);
        storage.cruiseUser := Some(u);
        ok := true;
      case None =>
        ok := false;
    }

    /** `logout()`. */
    method Logout()
      modifies this, storage
      ensures State() == LoggedOut(old(State()))
      ensures !IsAuthenticated()
    {
      user := None;
      storage.cruiseUser := None;
    }
  }

  /** Sign in on one provider, then mount a second provider over the same
      storage (a page reload) and run its mount effect: it holds the same user. */
  method ReloadAfterLogin(storage: Storage, email: string, password: string)
    returns (ok: bool, first: AuthProvider, second: AuthProvider)
    modifies storage
    ensures ok <==> FindCredential(email, password).Some?
    ensures ok ==> second.user == first.user && second.user.Some? && !second.loading
  {
    first := new AuthProvider(storage);
    first.Restore();
    ok := first.Login(email, password);
    second := new AuthProvider(storage);
    second.Restore();
  }
}
