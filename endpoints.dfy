/**
 * The API views as imperative handlers over the user table and the mail
 * log. Each handler loads model instances, assigns their fields, saves them
 * and sends mail in the order the view does, and is proved to produce exactly
 * the outcome and the new state that module Flows specifies.
 */
module Endpoints {
  import opened Wrappers
  import opened Tokens
  import opened Store
  import opened Serializers
  import opened Flows

  /** The abstract state the handlers act on. */
  ghost function Snapshot(db: UserStore, mail: Outbox): State
    reads db, mail
  {
    State(db.users, db.nextId, mail.sent)
  }

  /** `UserEmailAPIView.post`. */
  method UserEmailPost(env: Env, db: UserStore, mail: Outbox, email: Option<string>, host: string, now: int)
    returns (o: Outcome)
    requires db.Valid()
    modifies db, mail
    ensures db.Valid()
    ensures Reply(o, Snapshot(db, mail)) == Register(env, old(Snapshot(db, mail)), email, host, now)
  {
    if !RegistrationAccepted(env, db.users, email) {
      return RegistrationRejected;
    }
    var created := db.Create(email.value);
    assert db.users[created.id].email == email.value;
    var user := db.GetByEmail(email.value);
    assert user.id == created.id;
    var token := Mint(user.id, now, env.lifetime);
    if "email_verify" !in env.routes {
      return Failed(NoReverseMatch);
    }
    var url := Link(host, env.routes["email_verify"], env.codec.encode(token));
    mail.Send(Mail(user.email, "Verify your email", VerificationBody(url)));
    return Created;
  }

  /** `VerifyEmailAPIView.get`. */
  method VerifyEmailGet(env: Env, db: UserStore, mail: Outbox, query: Option<string>, now: int)
    returns (o: Outcome)
    requires db.Valid()
    modifies db
    ensures db.Valid()
    ensures Reply(o, Snapshot(db, mail)) == VerifyEmail(env, old(Snapshot(db, mail)), query, now)
  {
    if query.None? || query.value == "" {
      return MissingToken;
    }
    match Decode(env.codec, query.value, now)
    case DecodeError =>
      return ActivationInvalid;
    case ExpiredSignature =>
      return ActivationExpired;
    case Payload(id) =>
      if id !in db.users {
        return Failed(DoesNotExist);
      }
      var user := db.Get(id);
      if !user.isVerified {
        user.isVerified := true;
        db.Save(user);
        return Activated;
      }
      return NoResponse;
  }

  /** `ResetPasswordAPIView.post`. */
  method ResetPasswordPost(env: Env, db: UserStore, mail: Outbox, email: Option<string>, host: string, now: int)
    returns (o: Outcome)
    requires db.Valid()
    modifies mail
    ensures Reply(o, Snapshot(db, mail)) == RequestReset(env, old(Snapshot(db, mail)), email, host, now)
  {
    if !env.forgotAccepts(email, db.users) {
      return ResetRejected;
    }
    if email.None? {
      return Failed(KeyError);
    }
    if !EmailTaken(db.users, email.value) {
      return Failed(DoesNotExist);
    }
    var user := db.GetByEmail(email.value);
    var token := Mint(user.id, now, env.lifetime);
    if "reset_password_confirm" !in env.routes {
      return Failed(NoReverseMatch);
    }
    var url := Link(host, env.routes["reset_password_confirm"], env.codec.encode(token));
    mail.Send(Mail(user.email, "Reset your password", ResetBody(url)));
    return ResetLinkSent;
  }

  /** `UserUpdateAPIView.put`; `caller` is the account the bearer token authenticated, if any. */
  method UserUpdatePut(env: Env, db: UserStore, mail: Outbox, caller: Option<UserId>, input: ProfileInput)
    returns (o: Outcome)
    requires db.Valid()
    modifies db
    ensures db.Valid()
    ensures Reply(o, Snapshot(db, mail)) == UpdateProfile(env, old(Snapshot(db, mail)), caller, input)
  {
    if caller.None? || caller.value !in db.users {
      return NotAuthenticated;
    }
    var user := db.Get(caller.value);
    var data := ValidateProfile(input, env.parseDate);
    if data.None? {
      return ProfileRejected;
    }
    UpdateInstanceProfile(db, user, data.value);
    return ProfileUpdated;
  }

  /** `UserSetPasswordAPIView.put`; `caller` is the account the bearer token authenticated, if any. */
  method UserSetPasswordPut(env: Env, db: UserStore, mail: Outbox, caller: Option<UserId>, input: PasswordInput)
    returns (o: Outcome)
    requires db.Valid()
    modifies db
    ensures db.Valid()
    ensures Reply(o, Snapshot(db, mail)) == SetPassword(env, old(Snapshot(db, mail)), caller, input)
  {
    if caller.None? || caller.value !in db.users {
      return NotAuthenticated;
    }
    var user := db.Get(caller.value);
    match ValidatePassword(input, env.policy)
    case FieldErrors =>
      return PasswordFieldErrors;
    case Mismatch =>
      return PasswordMismatch;
    case Accepted(password) =>
      UpdateInstancePassword(db, user, password, env.hash);
      return PasswordSet;
  }
}
