/**
 * The endpoint handlers as functions from the state before a request to the
 * outcome and the state after it. The imperative handlers of module
 * Endpoints are proved to compute exactly these.
 */
module Flows {
  import opened Wrappers
  import opened Tokens
  import opened Store
  import opened Serializers

  /**
   * The collaborators the handlers consult: the token codec and the access
   * token lifetime, the URL names `reverse` knows, the field validation of
   * `UserEmailSerializer` and of `ForgotPasswordSerializer`, the password
   * policy of `validate_password`, the hash of `set_password`, and the date
   * parser of `DateField`.
   */
  datatype Env = Env(
    codec: Codec,
    lifetime: nat,
    routes: map<string, string>,
    emailValid: string -> bool,
    forgotAccepts: (Option<string>, map<UserId, Account>) -> bool,
    policy: string -> bool,
    hash: string -> string,
    parseDate: string -> Option<Date>)

  /** Exceptions a handler lets escape (the response is then a server error). */
  datatype Uncaught = DoesNotExist | KeyError | NoReverseMatch

  /** One tag per branch of the handlers. */
  datatype Outcome =
    | Created                 // registration: 201
    | RegistrationRejected    // registration: serializer errors
    | MissingToken            // verification and reset confirm: 400
    | ActivationExpired       // verification: 400
    | ActivationInvalid       // verification: 400
    | Activated               // verification: 200
    | NoResponse              // verification of an already verified account: the view returns nothing
    | ResetExpired            // reset confirm: 400
    | ResetInvalid            // reset confirm: 400
    | LinkVerified            // reset confirm: 200
    | ResetRejected           // reset request: ValidationError, 400
    | ResetLinkSent           // reset request: 200
    | NotAuthenticated        // profile update and password set: refused by IsAuthenticated
    | ProfileRejected         // profile update: 400
    | ProfileUpdated          // profile update: 200
    | PasswordFieldErrors     // password set: 400
    | PasswordMismatch        // password set: 400
    | PasswordSet             // password set: 200
    | Failed(exc: Uncaught)   // an exception escaped

  /** An outcome whose response body is the view's own serializer errors, or that has no response. */
  predicate NoFixedMessage(o: Outcome) {
    o.RegistrationRejected? || o.ResetRejected? || o.NotAuthenticated? || o.ProfileRejected? ||
    o.PasswordFieldErrors? || o.NoResponse? || o.Failed?
  }

  /** The text of each response body, `None` where the body is not one fixed message. */
  function Body(o: Outcome): (r: Option<string>)
    ensures r.None? <==> NoFixedMessage(o)
  {
    match o
    case Created => Some("Confirm your email by clicking on the link from the email")
    case MissingToken => Some("Token is not provided.")
    case ActivationExpired => Some("Activation Expired")
    case ActivationInvalid => Some("Invalid token")
    case Activated => Some("Successfully activated")
    case ResetExpired => Some("Reset password expired.")
    case ResetInvalid => Some("Invalid token.")
    case LinkVerified => Some("Successfully link verify.")
    case ResetLinkSent => Some("Reset your password by clicking on the link from the email")
    case ProfileUpdated => Some("User updated successfully")
    case PasswordMismatch => Some("Password fields didn't match.")
    case PasswordSet => Some("User set password successfully")
    case _ => None
  }

  /** Everything the handlers read and write: the user table and the mail log. */
  datatype State = State(users: map<UserId, Account>, nextId: UserId, outbox: seq<Mail>)

  ghost predicate Valid(s: State) {
    WellFormed(s.users, s.nextId)
  }

  datatype Reply = Reply(outcome: Outcome, state: State)

  predicate EndsWith(s: string, suffix: string) {
    |suffix| <= |s| && s[|s| - |suffix|..] == suffix
  }

  /** `"http://" + current_site + link + "?token=" + str(token)`. */
  function Link(host: string, path: string, token: string): (url: string)
    ensures |url| >= 7 + |host| && url[..7] == "http://" && url[7..7 + |host|] == host
    ensures EndsWith(url, "?token=" + token)
  {
    var url := "http://" + host + path + "?token=" + token;
    assert url == ("http://" + host + path) + ("?token=" + token);
    url
  }

  /** The body of the verification mail: a greeting, then the link. */
  function VerificationBody(url: string): (body: string)
    ensures EndsWith(body, url) && |body| > |url|
  {
    "Hi " + " Use the link below to verify your email \n" + url
  }

  /** The body of the reset mail: a greeting, then the link. */
  function ResetBody(url: string): (body: string)
    ensures EndsWith(body, url) && |body| > |url|
  {
    "Hi " + " Use the link below to reset your password \n" + url
  }

  /** The token string minted for `id` at `now`. */
  function TokenFor(env: Env, id: UserId, now: int): string {
    env.codec.encode(Mint(id, now, env.lifetime))
  }

  // ---------------------------------------------------------------- registration

  /** `UserEmailSerializer.is_valid()`: an email is supplied, well formed, and not yet taken. */
  predicate RegistrationAccepted(env: Env, users: map<UserId, Account>, email: Option<string>)
    ensures RegistrationAccepted(env, users, email) ==>
              email.Some? && forall id :: id in users ==> users[id].email != email.value
  {
    email.Some? && env.emailValid(email.value) && !EmailTaken(users, email.value)
  }

  /**
   * `UserEmailAPIView.post`: on valid input the account is created, a token
   * whose subject is the new id is minted, and the verification mail is sent.
   * `reverse("email_verify")` runs after the account is saved, so a missing
   * route leaves the account created and sends nothing.
   */
  function Register(env: Env, s: State, email: Option<string>, host: string, now: int): (r: Reply)
    requires Valid(s)
    ensures Valid(r.state)
    ensures r.outcome in {Created, RegistrationRejected, Failed(NoReverseMatch)}
    ensures r.outcome == RegistrationRejected <==> !RegistrationAccepted(env, s.users, email)
    ensures r.outcome == RegistrationRejected ==> r.state == s
    ensures r.outcome == Failed(NoReverseMatch) <==>
              RegistrationAccepted(env, s.users, email) && "email_verify" !in env.routes
    ensures r.outcome != RegistrationRejected ==>
              s.nextId !in s.users &&
              r.state.users == s.users[s.nextId := NewAccount(email.value)] &&
              r.state.nextId == s.nextId + 1
    ensures r.outcome != Created ==> r.state.outbox == s.outbox
    ensures r.outcome == Created ==>
              |r.state.outbox| == |s.outbox| + 1 && r.state.outbox[..|s.outbox|] == s.outbox &&
              r.state.outbox[|s.outbox|].to == email.value &&
              r.state.outbox[|s.outbox|].subject == "Verify your email"
  {
    if !RegistrationAccepted(env, s.users, email) then
      Reply(RegistrationRejected, s)
    else
      var id := s.nextId;
      var users := s.users[id := NewAccount(email.value)];
      var created := s.(users := users, nextId := id + 1);
      if "email_verify" !in env.routes then
        Reply(Failed(NoReverseMatch), created)
      else
        var url := Link(host, env.routes["email_verify"], TokenFor(env, id, now));
        var mail := Mail(email.value, "Verify your email", VerificationBody(url));
        Reply(Created, created.(outbox := s.outbox + [mail]))
  }

  // ---------------------------------------------------------------- the token gate

  /** What the token handlers learn from the query string and `jwt.decode`, before any lookup. */
  datatype Gate = NotProvided | Expired | Malformed | Subject(id: UserId)

  /**
   * `token = request.GET.get("token")` and `if not token`, then `jwt.decode`:
   * an absent or empty parameter stops before decoding.
   */
  function TokenGate(c: Codec, query: Option<string>, now: int): (g: Gate)
    ensures g == NotProvided <==> query.None? || query.value == ""
    ensures g.Malformed? ==> query.Some? && Decode(c, query.value, now) == DecodeError
    ensures g.Expired? ==> query.Some? && Decode(c, query.value, now) == ExpiredSignature
    ensures g.Subject? ==> query.Some? && Decode(c, query.value, now) == Payload(g.id)
  {
    if query.None? || query.value == "" then NotProvided
    else match Decode(c, query.value, now)
      case DecodeError => Malformed
      case ExpiredSignature => Expired
      case Payload(id) => Subject(id)
  }

  // ---------------------------------------------------------------- email verification

  /** The store after `user.is_verified = True; user.save()` for `id`. */
  function MarkVerified(users: map<UserId, Account>, id: UserId): map<UserId, Account>
    requires id in users
  {
    users[id := users[id].(isVerified := true)]
  }

  /**
   * `VerifyEmailAPIView.get`: missing token, then invalid or expired token,
   * then the subject lookup (which raises when the account is gone), then
   * the one-way flip of `is_verified`; an already verified account falls
   * through without a response.
   */
  function VerifyEmail(env: Env, s: State, query: Option<string>, now: int): (r: Reply)
    ensures r.outcome in {MissingToken, ActivationInvalid, ActivationExpired,
                          Failed(DoesNotExist), Activated, NoResponse}
    ensures r.outcome == MissingToken <==> TokenGate(env.codec, query, now) == NotProvided
    ensures r.outcome == ActivationInvalid <==> TokenGate(env.codec, query, now) == Malformed
    ensures r.outcome == ActivationExpired <==> TokenGate(env.codec, query, now) == Expired
    ensures r.outcome == Failed(DoesNotExist) <==>
              TokenGate(env.codec, query, now).Subject? && TokenGate(env.codec, query, now).id !in s.users
    ensures r.outcome == Activated <==>
              var g := TokenGate(env.codec, query, now);
              g.Subject? && g.id in s.users && !s.users[g.id].isVerified
    ensures r.outcome == NoResponse <==>
              var g := TokenGate(env.codec, query, now);
              g.Subject? && g.id in s.users && s.users[g.id].isVerified
    ensures r.outcome == Activated ==>
              var id := TokenGate(env.codec, query, now).id;
              id in s.users && r.state == s.(users := MarkVerified(s.users, id))
    ensures r.outcome != Activated ==> r.state == s
    ensures r.state.users.Keys == s.users.Keys
    ensures forall id :: id in s.users && s.users[id].isVerified ==> r.state.users[id].isVerified
  {
    match TokenGate(env.codec, query, now)
    case NotProvided => Reply(MissingToken, s)
    case Malformed => Reply(ActivationInvalid, s)
    case Expired => Reply(ActivationExpired, s)
    case Subject(id) =>
      if id !in s.users then Reply(Failed(DoesNotExist), s)
      else if !s.users[id].isVerified then Reply(Activated, s.(users := MarkVerified(s.users, id)))
      else Reply(NoResponse, s)
  }

  // ---------------------------------------------------------------- password reset

  /**
   * `ResetPasswordAPIView.post`: `ForgotPasswordSerializer` decides
   * eligibility; then `request.data["email"]`, the lookup by email, the token
   * for that account, `reverse("reset_password_confirm")` and the mail. The
   * store is never written.
   */
  function RequestReset(env: Env, s: State, email: Option<string>, host: string, now: int): (r: Reply)
    requires Valid(s)
    ensures r.state.users == s.users && r.state.nextId == s.nextId
    ensures r.outcome in {ResetRejected, Failed(KeyError), Failed(DoesNotExist),
                          Failed(NoReverseMatch), ResetLinkSent}
    ensures r.outcome == ResetRejected <==> !env.forgotAccepts(email, s.users)
    ensures r.outcome == Failed(KeyError) <==> env.forgotAccepts(email, s.users) && email.None?
    ensures r.outcome == Failed(DoesNotExist) <==>
              env.forgotAccepts(email, s.users) && email.Some? && !EmailTaken(s.users, email.value)
    ensures r.outcome == ResetLinkSent <==>
              env.forgotAccepts(email, s.users) && email.Some? && EmailTaken(s.users, email.value) &&
              "reset_password_confirm" in env.routes
    ensures r.outcome != ResetLinkSent ==> r.state.outbox == s.outbox
    ensures r.outcome == ResetLinkSent ==>
              |r.state.outbox| == |s.outbox| + 1 && r.state.outbox[..|s.outbox|] == s.outbox &&
              r.state.outbox[|s.outbox|].to == email.value &&
              r.state.outbox[|s.outbox|].subject == "Reset your password"
  {
    if !env.forgotAccepts(email, s.users) then Reply(ResetRejected, s)
    else if email.None? then Reply(Failed(KeyError), s)
    else match FindByEmail(s.users, email.value)
      case None => Reply(Failed(DoesNotExist), s)
      case Some(id) =>
        if "reset_password_confirm" !in env.routes then Reply(Failed(NoReverseMatch), s)
        else
          var url := Link(host, env.routes["reset_password_confirm"], TokenFor(env, id, now));
          var mail := Mail(s.users[id].email, "Reset your password", ResetBody(url));
          Reply(ResetLinkSent, s.(outbox := s.outbox + [mail]))
  }

  /**
   * `ResetPasswordConfirmAPIView.get`: the decision of the verification
   * handler without its write; the result is only an outcome.
   */
  function ResetConfirm(env: Env, users: map<UserId, Account>, query: Option<string>, now: int): (o: Outcome)
    ensures o in {MissingToken, ResetInvalid, ResetExpired, Failed(DoesNotExist), LinkVerified}
    ensures o == MissingToken <==> query.None? || query.value == ""
    ensures o == ResetInvalid <==> TokenGate(env.codec, query, now) == Malformed
    ensures o == ResetExpired <==> TokenGate(env.codec, query, now) == Expired
    ensures o == LinkVerified <==>
              TokenGate(env.codec, query, now).Subject? && TokenGate(env.codec, query, now).id in users
  {
    match TokenGate(env.codec, query, now)
    case NotProvided => MissingToken
    case Malformed => ResetInvalid
    case Expired => ResetExpired
    case Subject(id) => if id in users then LinkVerified else Failed(DoesNotExist)
  }

  // ---------------------------------------------------------------- authenticated updates

  /** `IsAuthenticated`: the bearer token named an existing account. */
  predicate Authenticated(s: State, caller: Option<UserId>) {
    caller.Some? && caller.value in s.users
  }

  /**
   * `UserUpdateAPIView.put`: validate the body with `UserCreateSerializer`, then
   * merge the supplied profile fields into the caller's row.
   */
  function UpdateProfile(env: Env, s: State, caller: Option<UserId>, input: ProfileInput): (r: Reply)
    ensures r.outcome in {NotAuthenticated, ProfileRejected, ProfileUpdated}
    ensures r.outcome == NotAuthenticated <==> !Authenticated(s, caller)
    ensures r.outcome == ProfileUpdated <==>
              Authenticated(s, caller) && ValidateProfile(input, env.parseDate).Some?
    ensures r.outcome != ProfileUpdated ==> r.state == s
    ensures r.outcome == ProfileUpdated ==>
              r.state == s.(users := s.users[caller.value :=
                              MergeProfile(s.users[caller.value], ValidateProfile(input, env.parseDate).value)])
    ensures r.state.users.Keys == s.users.Keys && r.state.nextId == s.nextId && r.state.outbox == s.outbox
    ensures forall id :: id in s.users ==>
              r.state.users[id].email == s.users[id].email &&
              r.state.users[id].passwordHash == s.users[id].passwordHash &&
              r.state.users[id].isVerified == s.users[id].isVerified
  {
    if !Authenticated(s, caller) then Reply(NotAuthenticated, s)
    else match ValidateProfile(input, env.parseDate)
      case None => Reply(ProfileRejected, s)
      case Some(d) =>
        var id := caller.value;
        Reply(ProfileUpdated, s.(users := s.users[id := MergeProfile(s.users[id], d)]))
  }

  /**
   * `UserSetPasswordAPIView.put`: validate with `UserSetPasswordSerializer`,
   * then store the hash of the new password on the caller's row.
   */
  function SetPassword(env: Env, s: State, caller: Option<UserId>, input: PasswordInput): (r: Reply)
    ensures r.outcome in {NotAuthenticated, PasswordFieldErrors, PasswordMismatch, PasswordSet}
    ensures r.outcome == NotAuthenticated <==> !Authenticated(s, caller)
    ensures r.outcome == PasswordFieldErrors <==>
              Authenticated(s, caller) && !PasswordFieldsValid(input, env.policy)
    ensures r.outcome == PasswordMismatch <==>
              Authenticated(s, caller) && PasswordFieldsValid(input, env.policy) &&
              input.password != input.password2
    ensures r.outcome != PasswordSet ==> r.state == s
    ensures r.outcome == PasswordSet ==>
              input.password.Some? &&
              r.state == s.(users := s.users[caller.value :=
                              s.users[caller.value].(passwordHash := Some(env.hash(input.password.value)))])
  {
    if !Authenticated(s, caller) then Reply(NotAuthenticated, s)
    else match ValidatePassword(input, env.policy)
      case FieldErrors => Reply(PasswordFieldErrors, s)
      case Mismatch => Reply(PasswordMismatch, s)
      case Accepted(p) =>
        var id := caller.value;
        Reply(PasswordSet, s.(users := s.users[id := s.users[id].(passwordHash := Some(env.hash(p)))]))
  }
}
