/** Accounts: registration refuses an email already in the user table, and
    login tells an unknown email from a wrong password before handing out a
    token. Password checking and token signing are parameters. */
module Users {
  import opened Entities

  const EmailInUse := "There is a user with that email already"
  const UserNotFound := "User not found"
  const WrongPassword := "Wrong password"

  /** Some user row has this email. */
  predicate EmailTaken(users: seq<User>, email: string) {
    exists k :: 0 <= k < |users| && users[k].email == email
  }

  /** No two user rows share an email. */
  predicate EmailsDistinct(users: seq<User>) {
    forall i, j :: 0 <= i < j < |users| ==> users[i].email != users[j].email
  }

  function UserEmail(u: User): string { u.email }

  /** `findOne({ email })`: the first user row with this email. */
  function UserByEmail(users: seq<User>, email: string): (r: Option<User>)
    ensures r.None? <==> !EmailTaken(users, email)
    ensures r.Some? ==> exists k :: 0 <= k < |users| && users[k] == r.value && r.value.email == email
  {
    FindBy(users, UserEmail, email)
  }

  /** With distinct emails, the user found by email is the only one with that email. */
  lemma {:induction false} UserByEmailUnique(users: seq<User>, email: string, k: nat)
    requires EmailsDistinct(users) && k < |users| && users[k].email == email
    ensures UserByEmail(users, email) == Some(users[k])
  {
    var found := UserByEmail(users, email);
    var j :| 0 <= j < |users| && users[j] == found.value && found.value.email == email;
    assert users[j].email == users[k].email;
  }

  /** Appending a user whose email is not taken keeps the emails distinct. */
  lemma RegistrationKeepsEmailsDistinct(users: seq<User>, user: User)
    requires EmailsDistinct(users) && !EmailTaken(users, user.email)
    ensures EmailsDistinct(users + [user])
  {
  }

  class UsersService {
    var users: seq<User>
    var nextId: int

    /** Emails are unique and every id is below the next one handed out. */
    ghost predicate Valid()
      reads this
    {
      EmailsDistinct(users) &&
      (forall k :: 0 <= k < |users| ==> users[k].id < nextId) &&
      (forall i, j :: 0 <= i < j < |users| ==> users[i].id != users[j].id)
    }

    constructor ()
      ensures Valid() && users == [] && nextId == 1
    {
      users := [];
      nextId := 1;
    }

    /** `createAccount`: a new user row, unless the email is taken. */
    method CreateAccount(email: string, password: string, role: Role) returns (out: Output<()>)
      requires Valid()
      modifies this
      ensures Valid()
      ensures out.Err? <==> EmailTaken(old(users), email)
      ensures out.Err? ==> out.error == EmailInUse && users == old(users) && nextId == old(nextId)
      ensures out.Ok? ==> users == old(users) + [User(old(nextId), email, password, role)] &&
                          nextId == old(nextId) + 1
    {
      var existing := UserByEmail(users, email);
      if existing.Some? {
        return Err(EmailInUse);
      }
      RegistrationKeepsEmailsDistinct(users, User(nextId, email, password, role));
      users := users + [User(nextId, email, password, role)];
      nextId := nextId + 1;
      return Ok(());
    }

    /** `login`: the token signed from the id of the user with this email,
        once the password checks out. */
    method Login(email: string, password: string, checkPassword: (User, string) -> bool,
                 sign: int -> string) returns (out: Output<string>)
      requires Valid()
      ensures out == Err(UserNotFound) <==> !EmailTaken(users, email)
      ensures out == Err(WrongPassword) <==>
                exists k :: 0 <= k < |users| && users[k].email == email && !checkPassword(users[k], password)
      ensures out.Ok? <==>
                exists k :: 0 <= k < |users| && users[k].email == email && checkPassword(users[k], password)
      ensures out.Ok? ==>
                exists k :: 0 <= k < |users| && users[k].email == email && out.value == sign(users[k].id)
    {
      var user := UserByEmail(users, email);
      if user.None? {
        return Err(UserNotFound);
      }
      forall k | 0 <= k < |users| && users[k].email == email
        ensures users[k] == user.value
      {
        UserByEmailUnique(users, email, k);
      }
      var passwordCorrect := checkPassword(user.value, password);
      if !passwordCorrect {
        return Err(WrongPassword);
      }
      var token := sign(user.value.id);
      return Ok(token);
    }
  }
}
