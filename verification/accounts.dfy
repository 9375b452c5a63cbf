/**
 * The account routes: `/register`, `/login` and `/update` over the `users`
 * collection. Each handler is a method of `UserDirectory`, the in-memory
 * collection; it takes the request fields and returns the status code and
 * JSON body of the response. The clock and bcrypt's random salt are parameters.
 */
module Accounts {
  import opened Wrappers
  import opened Credentials

  /** A timestamp (`new Date()`), supplied by the caller. */
  type Time = int

  /** An account document of the `users` collection. */
  datatype Account = Account(
    oid: ObjectId,
    email: string,
    password: PasswordHash,
    firstName: Option<string>,
    lastName: Option<string>,
    createdAt: Time,
    updatedAt: Option<Time>)

  /** The JSON body of a response. */
  datatype Body =
    | Failure(error: string)
    | Registered(authtoken: Token, email: string)
    | LoggedIn(authtoken: Token, userName: Option<string>, userEmail: string)
    | Refreshed(authtoken: Token)

  datatype Response = Response(status: nat, body: Body)

  /** The one answer for an unknown email and for a wrong password. */
  const InvalidCredentials := Response(400, Failure("Invalid credentials"))

  /** A request field that JavaScript reads as false: absent or empty. */
  predicate Blank(field: Option<string>)
  {
    field.None? || field.value == ""
  }

  /**
   * `findOne({ email })`: the position of the first account with that email.
   * An absent email is sent to the store as null, which no stored email equals.
   */
  function FindByEmail(users: seq<Account>, email: Option<string>): (r: Option<nat>)
    ensures r.Some? ==> r.value < |users| && Some(users[r.value].email) == email
    ensures r.Some? ==> forall j :: 0 <= j < r.value ==> Some(users[j].email) != email
    ensures r.None? <==> forall j :: 0 <= j < |users| ==> Some(users[j].email) != email
  {
    if users == [] then None
    else if Some(users[0].email) == email then Some(0)
    else match FindByEmail(users[1..], email)
      case None => None
      case Some(k) => Some(k + 1)
  }

  /** No two accounts share an email. */
  ghost predicate UniqueEmails(users: seq<Account>)
  {
    forall i, j :: 0 <= i < j < |users| ==> users[i].email != users[j].email
  }

  /** With unique emails, looking up an account's email finds that account. */
  lemma FindOwnEmail(users: seq<Account>, i: nat)
    requires UniqueEmails(users) && i < |users|
    ensures FindByEmail(users, Some(users[i].email)) == Some(i)
  {
  }

  class UserDirectory {
    /** The documents of the `users` collection, in insertion order. */
    var users: seq<Account>
    /** The `_id` the store gives to the next inserted account. */
    var nextOid: ObjectId

    /**
     * The collection's invariant: every stored email is non-empty and unique,
     * and every `_id` is below `nextOid` and unique.
     */
    ghost predicate Valid()
      reads this
    {
      && UniqueEmails(users)
      && (forall i :: 0 <= i < |users| ==> users[i].email != "" && users[i].oid < nextOid)
      && (forall i, j :: 0 <= i < j < |users| ==> users[i].oid != users[j].oid)
    }

    constructor ()
      ensures Valid() && users == [] && nextOid == 0
    {
      users := [];
      nextOid := 0;
    }

    /**
     * POST /register. Rejects a missing or empty email or password, then an
     * email already present; otherwise appends one account holding the hash
     * of the password and answers with a token for its new `_id` and the email.
     */
    method Register(email: Option<string>, password: Option<string>,
                    firstName: Option<string>, lastName: Option<string>,
                    salt: Salt, now: Time) returns (resp: Response)
      requires Valid()
      modifies this
      ensures Valid()
      ensures Blank(email) || Blank(password) ==>
        resp == Response(400, Failure("Invalid request")) &&
        users == old(users) && nextOid == old(nextOid)
      ensures !Blank(email) && !Blank(password) && FindByEmail(old(users), email).Some? ==>
        resp == Response(400, Failure("Email already exists")) &&
        users == old(users) && nextOid == old(nextOid)
      ensures !Blank(email) && !Blank(password) && FindByEmail(old(users), email).None? ==>
        && users == old(users) + [Account(old(nextOid), email.value, Hash(password.value, salt),
                                          firstName, lastName, now, None)]
        && nextOid == old(nextOid) + 1
        && resp == Response(200, Registered(Sign(old(nextOid)), email.value))
    {
      if Blank(email) || Blank(password) {
        return Response(400, Failure("Invalid request"));
      }
      if FindByEmail(users, email).Some? {
        return Response(400, Failure("Email already exists"));
      }
      var hashed := Hash(password.value, salt);
      var insertedId := nextOid;
      users := users + [Account(insertedId, email.value, hashed, firstName, lastName, now, None)];
      nextOid := nextOid + 1;
      resp := Response(200, Registered(Sign(insertedId), email.value));
    }

    /**
     * POST /login. An unknown email and a password that does not verify get
     * the same answer; a missing password makes bcrypt throw, which the
     * handler reports as a server error. On success the answer carries a
     * token for the account's `_id`, its first name and its email.
     */
    method Login(email: Option<string>, password: Option<string>) returns (resp: Response)
      ensures resp == InvalidCredentials <==>
        FindByEmail(users, email).None? ||
        (password.Some? && !Verify(password.value, users[FindByEmail(users, email).value].password))
      ensures FindByEmail(users, email).Some? && password.None? ==>
        resp == Response(500, Failure("Server error"))
      ensures resp.status == 200 <==>
        FindByEmail(users, email).Some? && password.Some? &&
        Verify(password.value, users[FindByEmail(users, email).value].password)
      ensures resp.status == 200 ==>
        var user := users[FindByEmail(users, email).value];
        resp.body == LoggedIn(Sign(user.oid), user.firstName, user.email)
    {
      var found := FindByEmail(users, email);
      if found.None? {
        return InvalidCredentials;
      }
      var user := users[found.value];
      if password.None? {
        return Response(500, Failure("Server error"));
      }
      if !Verify(password.value, user.password) {
        return InvalidCredentials;
      }
      resp := Response(200, LoggedIn(Sign(user.oid), user.firstName, user.email));
    }

    /**
     * PUT /update. The account is named by the `email` header; its
     * `firstName` and `lastName` are overwritten with the body's `firstname`
     * and `lastname` and `updatedAt` is stamped. Nothing else changes.
     */
    method UpdateProfile(email: Option<string>, firstname: Option<string>, lastname: Option<string>,
                         now: Time) returns (resp: Response)
      requires Valid()
      modifies this
      ensures Valid() && nextOid == old(nextOid) && |users| == |old(users)|
      ensures Blank(email) ==>
        resp == Response(400, Failure("Email not provided")) && users == old(users)
      ensures !Blank(email) && FindByEmail(old(users), email).None? ==>
        resp == Response(404, Failure("User not found")) && users == old(users)
      ensures !Blank(email) && FindByEmail(old(users), email).Some? ==>
        var i := FindByEmail(old(users), email).value;
        && (forall j :: 0 <= j < |users| && j != i ==> users[j] == old(users)[j])
        && users[i].oid == old(users)[i].oid
        && users[i].email == old(users)[i].email
        && users[i].password == old(users)[i].password
        && users[i].createdAt == old(users)[i].createdAt
        && users[i].firstName == firstname
        && users[i].lastName == lastname
        && users[i].updatedAt == Some(now)
        && resp == Response(200, Refreshed(Sign(old(users)[i].oid)))
    {
      if Blank(email) {
        return Response(400, Failure("Email not provided"));
      }
      var found := FindByEmail(users, email);
      if found.None? {
        return Response(404, Failure("User not found"));
      }
      var existingUser := users[found.value];
      existingUser := existingUser.(firstName := firstname, lastName := lastname, updatedAt := Some(now));
      // findOneAndUpdate({ email }, { $set: existingUser }) rewrites the same
      // account, the first with that email, and returns it.
      users := users[found.value := existingUser];
      var updatedUser := users[found.value];
      resp := Response(200, Refreshed(Sign(updatedUser.oid)));
    }
  }

  // ---------------------------------------------------------------------------
  // Request sequences against a fresh collection

  /**
   * Register, then log in with the right password, a wrong password and an
   * unknown email: the login succeeds with a token for the registered
   * account; the other two get the same "Invalid credentials" answer.
   */
  method RegisterThenLogin(email: string, password: string, wrong: string, other: string,
                           salt: Salt, now: Time)
    returns (registered: Response, good: Response, badPassword: Response, unknown: Response)
    requires email != "" && password != "" && wrong != password && other != email
    ensures registered.status == 200 && good.status == 200
    ensures registered.body.Registered? && good.body.LoggedIn?
    ensures good.body.authtoken == registered.body.authtoken
    ensures good.body.userEmail == email
    ensures badPassword == unknown == InvalidCredentials
  {
    var store := new UserDirectory();
    registered := store.Register(Some(email), Some(password), None, None, salt, now);
    FindOwnEmail(store.users, 0);
    good := store.Login(Some(email), Some(password));
    badPassword := store.Login(Some(email), Some(wrong));
    unknown := store.Login(Some(other), Some(password));
  }

  /** A second registration with the same email is refused and leaves the first account as it was. */
  method RegisterTwice(email: string, password: string, password2: string, salt: Salt, salt2: Salt,
                       now: Time, later: Time)
    returns (first: Response, second: Response, stored: seq<Account>)
    requires email != "" && password != "" && password2 != ""
    ensures first.status == 200
    ensures second == Response(400, Failure("Email already exists"))
    ensures |stored| == 1 && stored[0].email == email && Verify(password, stored[0].password)
  {
    var store := new UserDirectory();
    first := store.Register(Some(email), Some(password), None, None, salt, now);
    FindOwnEmail(store.users, 0);
    second := store.Register(Some(email), Some(password2), None, None, salt2, later);
    stored := store.users;
  }

  /**
   * Register, update the first name through the `email` header, and log in
   * again: the update answers with a token for the same account and the
   * login reports the new first name.
   */
  method RegisterUpdateLogin(email: string, password: string, name: string, salt: Salt,
                             now: Time, later: Time)
    returns (registered: Response, updated: Response, login: Response)
    requires email != "" && password != ""
    ensures registered.body.Registered? && updated.body.Refreshed? && login.body.LoggedIn?
    ensures updated.status == 200 && updated.body.authtoken == registered.body.authtoken
    ensures login.status == 200 && login.body.userName == Some(name)
  {
    var store := new UserDirectory();
    registered := store.Register(Some(email), Some(password), None, None, salt, now);
    FindOwnEmail(store.users, 0);
    updated := store.UpdateProfile(Some(email), Some(name), None, later);
    FindOwnEmail(store.users, 0);
    login := store.Login(Some(email), Some(password));
  }
}
