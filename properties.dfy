/**
 * Properties that relate several requests: the verification and reset links
 * the handlers mail out, the registration-then-verification scenarios, the
 * agreement of reset confirm with verification, and the invariants every
 * sequence of requests keeps.
 */
module Properties {
  import opened Wrappers
  import opened Tokens
  import opened Store
  import opened Serializers
  import opened Flows

  lemma LinkEndsWithToken(host: string, path: string, token: string, prefix: string)
    ensures EndsWith(prefix + Link(host, path, token), "?token=" + token)
  {
  }

  // ---------------------------------------------------------------- the mail the handlers send

  /**
   * A successful registration sends one mail, to the new account's email,
   * whose body ends in `"?token=" + token` for a token that decodes to the
   * new account's id throughout its lifetime.
   */
  lemma RegistrationMailLink(env: Env, s: State, email: Option<string>, host: string, now: int, later: int)
    requires Valid(s) && Faithful(env.codec)
    requires Register(env, s, email, host, now).outcome == Created
    requires now <= later < now + env.lifetime
    ensures var r := Register(env, s, email, host, now);
            var m := r.state.outbox[|s.outbox|];
            var token := TokenFor(env, s.nextId, now);
            r.state.outbox == s.outbox + [m] &&
            m == Mail(email.value, "Verify your email", m.body) &&
            r.state.users[s.nextId].email == m.to &&
            EndsWith(m.body, "?token=" + token) &&
            Decode(env.codec, token, later) == Payload(s.nextId)
  {
  }

  /** Invalid registration input creates no account and sends no mail. */
  lemma RejectedRegistrationSendsNothing(env: Env, s: State, email: Option<string>, host: string, now: int)
    requires Valid(s)
    requires !RegistrationAccepted(env, s.users, email)
    ensures Register(env, s, email, host, now) == Reply(RegistrationRejected, s)
  {
  }

  /**
   * A reset request that goes through sends one mail with subject "Reset
   * your password" to the submitted email, carrying a token whose subject is
   * the account found by that email.
   */
  lemma ResetMailLink(env: Env, s: State, email: Option<string>, host: string, now: int, later: int)
    requires Valid(s) && Faithful(env.codec)
    requires RequestReset(env, s, email, host, now).outcome == ResetLinkSent
    requires now <= later < now + env.lifetime
    ensures var r := RequestReset(env, s, email, host, now);
            var m := r.state.outbox[|s.outbox|];
            var id := FindByEmail(s.users, email.value).value;
            var token := TokenFor(env, id, now);
            r.state.outbox == s.outbox + [m] && r.state.users == s.users &&
            m == Mail(email.value, "Reset your password", m.body) &&
            s.users[id].email == email.value &&
            EndsWith(m.body, "?token=" + token) &&
            Decode(env.codec, token, later) == Payload(id)
  {
  }

  /** The URL names `authorization/users/urls.py` registers. */
  const UsersRoutes: set<string> := {"email", "email_verify", "register", "set_password", "jwt_create", "token_refresh"}

  /**
   * With only the routes of the users URL configuration, `reverse` cannot
   * resolve "reset_password_confirm": a reset request never sends its mail.
   */
  lemma ResetRequestNeedsConfirmRoute(env: Env, s: State, email: Option<string>, host: string, now: int)
    requires Valid(s)
    requires env.routes.Keys == UsersRoutes
    ensures RequestReset(env, s, email, host, now).outcome != ResetLinkSent
    ensures RequestReset(env, s, email, host, now).state == s
  {
  }

  // ---------------------------------------------------------------- the token gate

  /**
   * An absent or empty token is refused before the codec or the store is
   * consulted: the outcome is the same whatever they are, and nothing changes.
   */
  lemma MissingTokenFirst(env: Env, env': Env, s: State, s': State, query: Option<string>, now: int)
    requires query.None? || query.value == ""
    ensures VerifyEmail(env, s, query, now) == Reply(MissingToken, s)
    ensures VerifyEmail(env', s', query, now).outcome == MissingToken
    ensures ResetConfirm(env, s.users, query, now) == ResetConfirm(env', s'.users, query, now) == MissingToken
  {
  }

  /**
   * Reset confirm takes the same decision as verification on the same token
   * and store: each verification branch has its reset counterpart.
   */
  lemma ResetConfirmMatchesVerify(env: Env, s: State, query: Option<string>, now: int)
    ensures var v := VerifyEmail(env, s, query, now).outcome;
            var c := ResetConfirm(env, s.users, query, now);
            (c == MissingToken <==> v == MissingToken) &&
            (c == ResetInvalid <==> v == ActivationInvalid) &&
            (c == ResetExpired <==> v == ActivationExpired) &&
            (c == Failed(DoesNotExist) <==> v == Failed(DoesNotExist)) &&
            (c == LinkVerified <==> v in {Activated, NoResponse})
  {
  }

  /** The outcomes `VerifyEmailAPIView.get` can end in. */
  const VerifyOutcomes: set<Outcome> :=
    {MissingToken, ActivationInvalid, ActivationExpired, Failed(DoesNotExist), Activated, NoResponse}

  /** The outcomes `ResetPasswordConfirmAPIView.get` can end in. */
  const ConfirmOutcomes: set<Outcome> :=
    {MissingToken, ResetInvalid, ResetExpired, Failed(DoesNotExist), LinkVerified}

  /**
   * Within each token view, two outcomes with a fixed message never share it;
   * across the two views only the missing-token message is shared.
   */
  /** The first character and the length of the fixed message of a token-view outcome. */
  function MessageKey(o: Outcome): (char, nat) {
    match o
    case MissingToken => ('T', 22)
    case ActivationInvalid => ('I', 13)
    case ActivationExpired => ('A', 18)
    case Activated => ('S', 22)
    case ResetInvalid => ('I', 14)
    case ResetExpired => ('R', 23)
    case LinkVerified => ('S', 25)
    case _ => ('?', 0)
  }

  lemma MessageKeyOf(o: Outcome)
    requires o in VerifyOutcomes + ConfirmOutcomes && Body(o).Some?
    ensures |Body(o).value| > 0 && (Body(o).value[0], |Body(o).value|) == MessageKey(o)
  {
  }

  lemma TokenMessagesDistinct()
    ensures forall o, o' :: o in VerifyOutcomes && o' in VerifyOutcomes && o != o' && Body(o).Some? ==>
              Body(o) != Body(o')
    ensures forall o, o' :: o in ConfirmOutcomes && o' in ConfirmOutcomes && o != o' && Body(o).Some? ==>
              Body(o) != Body(o')
    ensures forall o, o' :: o in VerifyOutcomes && o' in ConfirmOutcomes && Body(o).Some? && Body(o) == Body(o') ==>
              o == o' == MissingToken
  {
    forall o, o' | o in VerifyOutcomes + ConfirmOutcomes && o' in VerifyOutcomes + ConfirmOutcomes &&
                   o != o' && Body(o).Some? && Body(o').Some?
      ensures Body(o) != Body(o')
    {
      MessageKeyOf(o);
      MessageKeyOf(o');
    }
  }

  // ---------------------------------------------------------------- verification scenarios

  /**
   * Register an email, then present the mailed token before it expires: the
   * new account becomes verified; presenting it again changes nothing and
   * gets no response.
   */
  lemma RegisterThenVerify(env: Env, s: State, email: Option<string>, host: string, now: int, later: int, again: int)
    requires Valid(s) && Faithful(env.codec)
    requires Register(env, s, email, host, now).outcome == Created
    requires now <= later < now + env.lifetime && later <= again < now + env.lifetime
    ensures var s1 := Register(env, s, email, host, now).state;
            var q := Some(TokenFor(env, s.nextId, now));
            var r2 := VerifyEmail(env, s1, q, later);
            r2 == Reply(Activated, s1.(users := MarkVerified(s1.users, s.nextId))) &&
            r2.state.users[s.nextId].isVerified &&
            VerifyEmail(env, r2.state, q, again) == Reply(NoResponse, r2.state)
  {
  }

  /** Register an email, then present the mailed token after it expired: the account stays unverified. */
  lemma RegisterThenVerifyTooLate(env: Env, s: State, email: Option<string>, host: string, now: int, later: int)
    requires Valid(s) && Faithful(env.codec)
    requires Register(env, s, email, host, now).outcome == Created
    requires now + env.lifetime <= later
    ensures var s1 := Register(env, s, email, host, now).state;
            var r2 := VerifyEmail(env, s1, Some(TokenFor(env, s.nextId, now)), later);
            r2 == Reply(ActivationExpired, s1) && !r2.state.users[s.nextId].isVerified
  {
  }

  /**
   * The token field of `EmailVerificationSerializer` (a `CharField` of at most
   * 555 characters) describes the query parameter but is never applied.
   */
  predicate TokenFieldValid(query: Option<string>) {
    query.Some? && query.value != "" && |query.value| <= 555
  }

  /** A token too long for that field still activates its account. */
  lemma LongTokenStillActivates(env: Env, s: State, id: UserId, issuedAt: int, now: int)
    requires Faithful(env.codec)
    requires id in s.users && !s.users[id].isVerified
    requires issuedAt <= now < issuedAt + env.lifetime
    requires |TokenFor(env, id, issuedAt)| > 555
    ensures !TokenFieldValid(Some(TokenFor(env, id, issuedAt)))
    ensures VerifyEmail(env, s, Some(TokenFor(env, id, issuedAt)), now).outcome == Activated
  {
  }

  // ---------------------------------------------------------------- authenticated updates

  /** A profile update that supplies no field leaves the store as it was. */
  lemma EmptyProfileUpdate(env: Env, s: State, caller: UserId)
    requires caller in s.users
    ensures UpdateProfile(env, s, Some(caller), ProfileInput(None, None, None)) == Reply(ProfileUpdated, s)
  {
  }

  /** Sending the same profile update twice leaves the store as sending it once. */
  lemma ProfileUpdateIdempotent(env: Env, s: State, caller: Option<UserId>, input: ProfileInput)
    ensures var r1 := UpdateProfile(env, s, caller, input);
            UpdateProfile(env, r1.state, caller, input) == r1
  {
  }

  /** Two differing password fields never change the stored hash. */
  lemma MismatchKeepsHash(env: Env, s: State, caller: Option<UserId>, input: PasswordInput)
    requires input.password != input.password2
    ensures SetPassword(env, s, caller, input).state == s
    ensures Authenticated(s, caller) && PasswordFieldsValid(input, env.policy) ==>
              SetPassword(env, s, caller, input).outcome == PasswordMismatch
  {
  }

  /**
   * Two equal fields that pass the policy replace the caller's hash by the
   * hash of the password, and nothing else changes.
   */
  lemma MatchingPasswordSetsHash(env: Env, s: State, caller: UserId, password: string)
    requires caller in s.users && password != "" && env.policy(password)
    ensures var r := SetPassword(env, s, Some(caller), PasswordInput(Some(password), Some(password)));
            r.outcome == PasswordSet &&
            r.state.users[caller] == s.users[caller].(passwordHash := Some(env.hash(password))) &&
            (forall id :: id in s.users && id != caller ==> r.state.users[id] == s.users[id]) &&
            r.state.users.Keys == s.users.Keys && r.state.outbox == s.outbox
  {
  }

  /** Both password fields are required. */
  lemma PasswordFieldsRequired(env: Env, s: State, caller: Option<UserId>, password: Option<string>)
    ensures SetPassword(env, s, caller, PasswordInput(password, None)).state == s
    ensures SetPassword(env, s, caller, PasswordInput(None, password)).state == s
  {
  }

  // ---------------------------------------------------------------- sequences of requests

  /** One request to one of the views, with the time it arrives and the host it names. */
  datatype Request =
    | RegisterReq(email: Option<string>, host: string, now: int)
    | VerifyReq(query: Option<string>, now: int)
    | ResetReq(email: Option<string>, host: string, now: int)
    | ConfirmReq(query: Option<string>, now: int)
    | ProfileReq(caller: Option<UserId>, input: ProfileInput)
    | PasswordReq(caller: Option<UserId>, password: PasswordInput)

  function Step(env: Env, s: State, req: Request): (r: Reply)
    requires Valid(s)
    ensures Valid(r.state)
  {
    match req
    case RegisterReq(email, host, now) => Register(env, s, email, host, now)
    case VerifyReq(query, now) => VerifyEmail(env, s, query, now)
    case ResetReq(email, host, now) => RequestReset(env, s, email, host, now)
    case ConfirmReq(query, now) => Reply(ResetConfirm(env, s.users, query, now), s)
    case ProfileReq(caller, input) =>
      var r := UpdateProfile(env, s, caller, input);
      assert EmailsUnique(r.state.users) by {
        forall i, j | i in r.state.users && j in r.state.users && r.state.users[i].email == r.state.users[j].email
          ensures i == j
        {
          assert s.users[i].email == s.users[j].email;
        }
      }
      r
    case PasswordReq(caller, input) => SetPassword(env, s, caller, input)
  }

  /** The state after serving the requests in order. */
  function Run(env: Env, s: State, reqs: seq<Request>): (t: State)
    requires Valid(s)
    ensures Valid(t)
    decreases |reqs|
  {
    if reqs == [] then s else Run(env, Step(env, s, reqs[0]).state, reqs[1..])
  }

  /**
   * What no request undoes: accounts are never deleted, emails never change,
   * a verified account stays verified, and the mail log only grows.
   */
  ghost predicate Evolves(s: State, t: State) {
    (forall id :: id in s.users ==>
       id in t.users && t.users[id].email == s.users[id].email &&
       (s.users[id].isVerified ==> t.users[id].isVerified)) &&
    s.nextId <= t.nextId &&
    |s.outbox| <= |t.outbox| && t.outbox[..|s.outbox|] == s.outbox
  }

  lemma EvolvesTransitive(s: State, t: State, u: State)
    requires Evolves(s, t) && Evolves(t, u)
    ensures Evolves(s, u)
  {
  }

  /**
   * One request keeps the invariant, and an account goes from unverified to
   * verified only when the request is a verification whose token names it and
   * whose outcome is the activation.
   */
  lemma StepEvolves(env: Env, s: State, req: Request)
    requires Valid(s)
    ensures Evolves(s, Step(env, s, req).state)
    ensures forall id :: id in s.users && !s.users[id].isVerified &&
                         Step(env, s, req).state.users[id].isVerified ==>
              req.VerifyReq? && Step(env, s, req).outcome == Activated &&
              TokenGate(env.codec, req.query, req.now) == Subject(id)
  {
  }

  /** Any sequence of requests keeps the invariant; in particular `is_verified` never goes back to false. */
  lemma {:induction false} RunEvolves(env: Env, s: State, reqs: seq<Request>)
    requires Valid(s)
    ensures Evolves(s, Run(env, s, reqs))
    decreases |reqs|
  {
    if reqs == [] {
      assert s.outbox[..|s.outbox|] == s.outbox;
    } else {
      var s1 := Step(env, s, reqs[0]).state;
      StepEvolves(env, s, reqs[0]);
      RunEvolves(env, s1, reqs[1..]);
      EvolvesTransitive(s, s1, Run(env, s1, reqs[1..]));
    }
  }

  /** Requests other than verification never change any account's `is_verified`. */
  lemma {:induction false} OnlyVerificationVerifies(env: Env, s: State, reqs: seq<Request>, id: UserId)
    requires Valid(s) && id in s.users && !s.users[id].isVerified
    requires forall k :: 0 <= k < |reqs| ==> !reqs[k].VerifyReq?
    ensures id in Run(env, s, reqs).users && !Run(env, s, reqs).users[id].isVerified
    decreases |reqs|
  {
    if reqs != [] {
      var s1 := Step(env, s, reqs[0]).state;
      StepEvolves(env, s, reqs[0]);
      OnlyVerificationVerifies(env, s1, reqs[1..], id);
    }
  }
}
