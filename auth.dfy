/** The sign-in and registration form (components/Auth.tsx) over the stored
    collection of registered users. Login looks a user up by email alone: the
    password is never consulted. */
module Auth {
  import opened Types
  import opened Text

  const InvalidCredentials: string := "Invalid email or password."
  const EmailExists: string := "Email already exists."
  const AvatarBase: string := "https://api.dicebear.com/7.x/avataaars/svg?seed="

  /** `users.find(u => u.email === email)`, as the position of the first
      user with exactly that email. */
  function FindByEmail(users: seq<User>, email: string): (r: Option<nat>)
    ensures r.Some? ==> r.value < |users| && users[r.value].email == email
    ensures r.Some? ==> forall j :: 0 <= j < r.value ==> users[j].email != email
    ensures r.None? ==> forall j :: 0 <= j < |users| ==> users[j].email != email
  {
    if users == [] then None
    else if users[0].email == email then Some(0)
    else match FindByEmail(users[1..], email)
      case None => None
      case Some(i) => Some(i + 1)
  }

  /** `users.some(u => u.email === email)`. */
  predicate EmailTaken(users: seq<User>, email: string)
  {
    exists i :: 0 <= i < |users| && users[i].email == email
  }

  /** Signing in succeeds exactly when some stored user has the email. */
  lemma FoundIffTaken(users: seq<User>, email: string)
    ensures FindByEmail(users, email).Some? <==> EmailTaken(users, email)
  {
    var r := FindByEmail(users, email);
    if r.Some? {
      assert users[r.value].email == email;
    }
  }

  /** No two stored users share an email. */
  predicate UniqueEmails(users: seq<User>)
  {
    forall i, j :: 0 <= i < j < |users| ==> users[i].email != users[j].email
  }

  /** The user a registration creates: no money, and the admin role exactly
      when the email contains "admin" (case matters). */
  function NewUser(id: string, username: string, email: string, ffUid: string): (u: User)
    ensures u.id == id && u.username == username && u.email == email && u.ffUid == ffUid
    ensures u.balance == 0
    ensures u.role == Admin <==> Includes(email, "admin")
    ensures u.avatar == Some(AvatarBase + username)
  {
    User(id, username, email, ffUid, 0, if Includes(email, "admin") then Admin else Player,
      Some(AvatarBase + username))
  }

  /** Appending a user whose email is new keeps the emails unique. */
  lemma RegisterKeepsUnique(users: seq<User>, u: User)
    requires !EmailTaken(users, u.email) && UniqueEmails(users)
    ensures UniqueEmails(users + [u])
  {
    var all := users + [u];
    forall a, b | 0 <= a < b < |all|
      ensures all[a].email != all[b].email
    {
      assert all[a] == users[a];
      if b < |users| {
        assert all[b] == users[b];
      }
    }
  }

  /** Appending a user whose email is new keeps the emails unique, and a
      later lookup of that email finds the new user. */
  lemma RegisterThenFind(users: seq<User>, u: User)
    requires !EmailTaken(users, u.email)
    ensures UniqueEmails(users) ==> UniqueEmails(users + [u])
    ensures FindByEmail(users + [u], u.email) == Some(|users|)
  {
    if UniqueEmails(users) {
      RegisterKeepsUnique(users, u);
    }
    FindAfterNew(users, u);
  }

  /** A lookup of an email no stored user has lands on a user appended
      after them. */
  lemma {:induction false} FindAfterNew(users: seq<User>, u: User)
    requires !EmailTaken(users, u.email)
    ensures FindByEmail(users + [u], u.email) == Some(|users|)
    decreases |users|
  {
    var all := users + [u];
    if users == [] {
      assert all == [u];
    } else {
      assert users[0].email != u.email;
      assert all[1..] == users[1..] + [u];
      assert !EmailTaken(users[1..], u.email) by {
        forall k | 0 <= k < |users[1..]| ensures users[1..][k].email != u.email {
          assert users[1..][k] == users[k + 1];
        }
      }
      FindAfterNew(users[1..], u);
    }
  }

  /** With unique emails, a lookup finds the one user carrying that email. */
  lemma FindUnique(users: seq<User>, i: nat)
    requires UniqueEmails(users) && i < |users|
    ensures FindByEmail(users, users[i].email) == Some(i)
  {
  }

  /** The role rule on two sample emails. */
  lemma RoleExamples()
    ensures NewUser("a", "boss", "admin@test.com", "1").role == Admin
    ensures NewUser("b", "rookie", "player@test.com", "2").role == Player
  {
    assert StartsWith("admin@test.com", "admin");
    var p := "player@test.com";
    // No "a" in the address is followed by a "d", so "admin" sits nowhere.
    assert forall k :: 0 <= k < |p| - 1 ==> !(p[k] == 'a' && p[k + 1] == 'd');
    forall i | 0 <= i <= |p| - 5
      ensures !OccursAt(p, "admin", i)
    {
      assert p[i..i + 5][0] == p[i] && p[i..i + 5][1] == p[i + 1];
    }
    IncludesIff(p, "admin");
  }

  class AuthForm {
    var isLogin: bool
    var email: string
    var password: string
    var username: string
    var ffUid: string
    var error: string
    /** The registered users as the profile store holds them. */
    var users: seq<User>

    constructor (stored: seq<User>)
      ensures isLogin && email == "" && password == "" && username == "" && ffUid == ""
      ensures error == "" && users == stored
    {
      isLogin := true;
      email, password, username, ffUid := "", "", "", "";
      error := "";
      users := stored;
    }

    /** The link that switches between signing in and registering. */
    method ToggleMode()
      modifies this`isLogin
      ensures isLogin == !old(isLogin)
    {
      isLogin := !isLogin;
    }

    /** Typing in the form's fields. */
    method SetFields(newEmail: string, newPassword: string, newUsername: string, newFfUid: string)
      modifies this`email, this`password, this`username, this`ffUid
      ensures email == newEmail && password == newPassword
      ensures username == newUsername && ffUid == newFfUid
    {
      email, password, username, ffUid := newEmail, newPassword, newUsername, newFfUid;
    }

    /** `handleSubmit`. The error is cleared first. Signing in yields the
        first stored user with the email, or sets the credentials error;
        registering refuses a taken email, and otherwise stores one new user
        at the end and yields it. The result is the `onLogin` call made, if
        any. */
    method HandleSubmit(newId: string) returns (loggedIn: Option<User>)
      modifies this`users, this`error
      ensures isLogin ==> users == old(users)
      ensures isLogin && FindByEmail(users, email).Some? ==>
        loggedIn == Some(users[FindByEmail(users, email).value]) && error == ""
      ensures isLogin && FindByEmail(users, email).None? ==>
        loggedIn == None && error == InvalidCredentials
      ensures !isLogin && EmailTaken(old(users), email) ==>
        users == old(users) && loggedIn == None && error == EmailExists
      ensures !isLogin && !EmailTaken(old(users), email) ==>
        users == old(users) + [NewUser(newId, username, email, ffUid)] &&
        loggedIn == Some(NewUser(newId, username, email, ffUid)) && error == ""
      ensures UniqueEmails(old(users)) ==> UniqueEmails(users)
    {
      error := "";
      if isLogin {
        var found := FindByEmail(users, email);
        if found.Some? {
          loggedIn := Some(users[found.value]);
        } else {
          error := InvalidCredentials;
          loggedIn := None;
        }
      } else {
        if EmailTaken(users, email) {
          error := EmailExists;
          return None;
        }
        var u := NewUser(newId, username, email, ffUid);
        RegisterThenFind(users, u);
        users := users + [u];
        loggedIn := Some(u);
      }
    }
  }
}
