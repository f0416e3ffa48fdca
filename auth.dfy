/** The demo session gate (src/context/AuthContext.tsx): a fixed list of
    accounts sharing one password, the current user, the `isAuthenticated`
    flag and the one browser-storage slot that keeps the user across reloads. */
module Auth {

  import opened Types

  datatype Role = Distributor | Wholesaler

  /** The session user; unlike the domain `User`, its company is a plain name. */
  datatype User = User(
    id: string,
    name: string,
    email: string,
    role: Role,
    company: string,
    pan: Option<string>,
    avatar: Option<string>)

  const DemoPassword: string := "demo123"

  const MockUsers: seq<User> := [
    User("1", "Rajesh Sharma", "distributor@demo.com", Distributor,
      "Himalayan Distributors Pvt. Ltd.", Some("301234567"),
      Some("https://images.pexels.com/photos/614810/pexels-photo-614810.jpeg?auto=compress&cs=tinysrgb&w=150&h=150&dpr=1")),
    User("2", "Sita Patel", "wholesaler@demo.com", Wholesaler,
      "Valley Wholesale Mart", Some("401234567"),
      Some("https://images.pexels.com/photos/1239291/pexels-photo-1239291.jpeg?auto=compress&cs=tinysrgb&w=150&h=150&dpr=1")),
    User("3", "Amit Thapa", "distributor2@demo.com", Distributor,
      "Everest Supply Chain Ltd.", Some("501234567"),
      Some("https://images.pexels.com/photos/1222271/pexels-photo-1222271.jpeg?auto=compress&cs=tinysrgb&w=150&h=150&dpr=1")),
    User("4", "Priya Gurung", "wholesaler2@demo.com", Wholesaler,
      "Mountain Trading Co.", Some("601234567"),
      Some("https://images.pexels.com/photos/1181686/pexels-photo-1181686.jpeg?auto=compress&cs=tinysrgb&w=150&h=150&dpr=1"))
  ]

  /** `users.find(u => u.email === email)`. */
  function FindByEmail(users: seq<User>, email: string): (r: Option<User>)
    ensures r.Some? <==> exists i :: 0 <= i < |users| && users[i].email == email
    ensures r.Some? ==> r.value in users && r.value.email == email
  {
    if users == [] then None
    else if users[0].email == email then Some(users[0])
    else FindByEmail(users[1..], email)
  }

  /** The account found is the first one with that email. */
  lemma {:induction false} FindByEmailFirst(users: seq<User>, email: string)
    ensures FindByEmail(users, email).Some? ==>
      exists i :: 0 <= i < |users| && users[i] == FindByEmail(users, email).value
        && forall j :: 0 <= j < i ==> users[j].email != email
  {
    if users != [] && users[0].email != email && FindByEmail(users[1..], email).Some? {
      FindByEmailFirst(users[1..], email);
      var i :| 0 <= i < |users[1..]| && users[1..][i] == FindByEmail(users[1..], email).value
        && forall j :: 0 <= j < i ==> users[1..][j].email != email;
      assert users[i + 1] == FindByEmail(users, email).value;
      assert forall j :: 0 <= j < i + 1 ==> users[j].email != email by {
        forall j | 0 <= j < i + 1 ensures users[j].email != email {
          if j > 0 {
            assert users[j] == users[1..][j - 1];
          }
        }
      }
    } else if users != [] && users[0].email == email {
      assert users[0] == FindByEmail(users, email).value;
    }
  }

  /** The account a login with these credentials opens, if any. */
  function LoginOutcome(email: string, password: string): (r: Option<User>)
    ensures r.Some? <==> (exists u :: u in MockUsers && u.email == email) && password == DemoPassword
    ensures r.Some? ==> r.value in MockUsers && r.value.email == email
  {
    var found := FindByEmail(MockUsers, email);
    if found.Some? && password == DemoPassword then found else None
  }

  /** No two demo accounts share an email, so a login matches at most one. */
  lemma MockEmailsDistinct()
    ensures forall i, j :: 0 <= i < j < |MockUsers| ==> MockUsers[i].email != MockUsers[j].email
  {
  }

  /** Any account whose email is given is the one a correct login opens. */
  lemma LoginOpensTheAccount(i: int)
    requires 0 <= i < |MockUsers|
    ensures LoginOutcome(MockUsers[i].email, DemoPassword) == Some(MockUsers[i])
    ensures forall pw :: pw != DemoPassword ==> LoginOutcome(MockUsers[i].email, pw) == None
  {
    MockEmailsDistinct();
  }

  class Session {
    var user: Option<User>
    var isAuthenticated: bool
    /** The `orionNexusUser` storage slot; `None` when absent or empty. */
    var storedUser: Option<User>

    /** The flag is exactly "someone is signed in". */
    ghost predicate Valid()
      reads this
    {
      isAuthenticated <==> user.Some?
    }

    /** State at mount, before the restore effect runs. */
    constructor (slot: Option<User>)
      ensures Valid()
      ensures user == None && !isAuthenticated && storedUser == slot
    {
      user := None;
      isAuthenticated := false;
      storedUser := slot;
    }

    /** The mount effect: a stored user becomes the current one. */
    method Restore()
      requires Valid()
      modifies this
      ensures Valid()
      ensures storedUser == old(storedUser)
      ensures old(storedUser).Some? ==> user == old(storedUser) && isAuthenticated
      ensures old(storedUser).None? ==> user == old(user) && isAuthenticated == old(isAuthenticated)
    {
      if storedUser.Some? {
        user := storedUser;
        isAuthenticated := true;
      }
    }

    method Login(email: string, password: string) returns (ok: bool)
      requires Valid()
      modifies this
      ensures Valid()
      ensures ok <==> LoginOutcome(email, password).Some?
      ensures ok ==> user == LoginOutcome(email, password) && isAuthenticated && storedUser == user
      ensures !ok ==>
        user == old(user) && isAuthenticated == old(isAuthenticated) && storedUser == old(storedUser)
    {
      var found := FindByEmail(MockUsers, email);
      if found.Some? && password == DemoPassword {
        user := found;
        isAuthenticated := true;
        storedUser := found;
        ok := true;
      } else {
        ok := false;
      }
    }

    method Logout()
      modifies this
      ensures Valid()
      ensures user == None && !isAuthenticated && storedUser == None
    {
      user := None;
      isAuthenticated := false;
      storedUser := None;
    }
  }
}
