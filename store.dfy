/**
 * The account store behind `User.objects`: rows keyed by primary key, and the
 * model instances that `get` loads from them and `save` writes back.
 */
module Store {
  import opened Wrappers
  import opened Tokens

  datatype Date = Date(year: int, month: int, day: int)

  /** One row of the user table. */
  datatype Account = Account(
    email: string,
    passwordHash: Option<string>,
    isVerified: bool,
    firstName: Option<string>,
    lastName: Option<string>,
    birthDate: Option<Date>)

  /** The row `UserEmailSerializer.save()` inserts: unverified, no password, no profile. */
  function NewAccount(email: string): (a: Account)
    ensures a.email == email && !a.isVerified && a.passwordHash.None?
  {
    Account(email, None, false, None, None, None)
  }

  /** Email is a unique column. */
  ghost predicate EmailsUnique(users: map<UserId, Account>) {
    forall i, j :: i in users && j in users && users[i].email == users[j].email ==> i == j
  }

  /** The store's invariant: unique emails, and every key below the next primary key. */
  ghost predicate WellFormed(users: map<UserId, Account>, nextId: UserId) {
    EmailsUnique(users) && forall id :: id in users ==> id < nextId
  }

  predicate EmailTaken(users: map<UserId, Account>, email: string) {
    exists id :: id in users && users[id].email == email
  }

  /** `User.objects.get(email=email)` on a store with unique emails: the one match, or `DoesNotExist`. */
  function FindByEmail(users: map<UserId, Account>, email: string): (r: Option<UserId>)
    requires EmailsUnique(users)
    ensures r.Some? <==> EmailTaken(users, email)
    ensures r.Some? ==> r.value in users && users[r.value].email == email
  {
    if EmailTaken(users, email) then
      Some(var id :| id in users && users[id].email == email; id)
    else
      None
  }

  /** A model instance: a copy of one row that is written back by `save()`. */
  class User {
    const id: UserId
    var email: string
    var passwordHash: Option<string>
    var isVerified: bool
    var firstName: Option<string>
    var lastName: Option<string>
    var birthDate: Option<Date>

    /** The row this instance would write. */
    function Row(): Account
      reads this
    {
      Account(email, passwordHash, isVerified, firstName, lastName, birthDate)
    }

    constructor Load(id: UserId, a: Account)
      ensures this.id == id && Row() == a
    {
      this.id := id;
      email, passwordHash, isVerified := a.email, a.passwordHash, a.isVerified;
      firstName, lastName, birthDate := a.firstName, a.lastName, a.birthDate;
    }
  }

  /** The user table. */
  class UserStore {
    var users: map<UserId, Account>
    var nextId: UserId

    ghost predicate Valid()
      reads this
    {
      WellFormed(users, nextId)
    }

    constructor ()
      ensures Valid() && users == map[] && nextId == 0
    {
      users, nextId := map[], 0;
    }

    /** `User.objects.get(id=id)` for an existing row: a fresh instance holding that row. */
    method Get(id: UserId) returns (u: User)
      requires id in users
      ensures fresh(u) && u.id == id && u.Row() == users[id]
    {
      u := new User.Load(id, users[id]);
    }

    /** `User.objects.get(email=email)` for an existing email. */
    method GetByEmail(email: string) returns (u: User)
      requires Valid() && EmailTaken(users, email)
      ensures fresh(u) && u.id in users && u.Row() == users[u.id] && u.email == email
      ensures Some(u.id) == FindByEmail(users, email)
    {
      var id :| id in users && users[id].email == email;
      u := new User.Load(id, users[id]);
    }

    /** `User.objects.create(email=email)`: inserts an unverified row under the next key. */
    method Create(email: string) returns (u: User)
      requires Valid() && !EmailTaken(users, email)
      modifies this
      ensures Valid()
      ensures users == old(users)[old(nextId) := NewAccount(email)] && nextId == old(nextId) + 1
      ensures fresh(u) && u.id == old(nextId) && u.Row() == NewAccount(email)
    {
      u := new User.Load(nextId, NewAccount(email));
      users := users[nextId := NewAccount(email)];
      nextId := nextId + 1;
    }

    /** `instance.save()` for an instance of an existing row: the row becomes the instance's fields. */
    method Save(u: User)
      requires u.id in users
      modifies this
      ensures users == old(users)[u.id := u.Row()] && nextId == old(nextId)
    {
      users := users[u.id := u.Row()];
    }
  }

  /** A message handed to `Util.send_email`. */
  datatype Mail = Mail(to: string, subject: string, body: string)

  /** The mail log: every message `Util.send_email` was given, in order. */
  class Outbox {
    var sent: seq<Mail>

    constructor ()
      ensures sent == []
    {
      sent := [];
    }

    method Send(m: Mail)
      modifies this
      ensures sent == old(sent) + [m]
    {
      sent := sent + [m];
    }
  }
}
