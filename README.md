# Token-gated account flows of the users app

This project models the account flows of the `authorization.users` Django
app: registration by email, email verification with a mailed JWT access
token, the forgot-password request and reset-link confirmation, and the two
authenticated updates (profile fields, password). The model has three layers.

- **Values** (`Tokens`, `Store`, `Serializers`). An account is a row of the
  user table: email, password hash, `is_verified`, first name, last name and
  birth date. A presented token is read by an injected codec into the record
  `(subject, exp, signatureOk, wellFormed)`. `jwt.decode` is then modelled by
  its two exceptions and the expiry rule of section 4.1.4 of RFC 7519: a token
  is accepted only while `now < exp`.
- **Specification** (`Flows`). Each view is a function from the state (user
  table, next primary key, mail log) to a tagged outcome and the next state.
  The branches run in the order the view runs them.
- **Handlers** (`Endpoints`). Each state-changing view is also an imperative
  method over two objects: a `UserStore` and an `Outbox`. The reset-confirm
  view changes nothing and is only the function `Flows.ResetConfirm`. Like the Django ORM,
  `User.objects.get` loads a fresh `User` instance, the view assigns fields on
  it, and `save()` writes its row back. `Util.send_email` appends to the mail
  log. Each handler is proved to produce exactly the outcome and state its
  `Flows` function gives.

`Properties` relates several requests: the links in the mails, the
register-then-verify scenarios, reset confirm against verification, and the
invariants every sequence of requests keeps.

Three facts about the code are modelled as written:

- `User.objects.get(id=...)` raises `DoesNotExist` and nothing catches it. So
  the `if not user` branches (404 "User not found.") can never be reached, and
  a token whose subject no longer exists ends in `Failed(DoesNotExist)`.
- A valid token for an account that is already verified falls through the
  view, which returns nothing. This is the outcome `NoResponse`.
- The view rejects only an absent or empty token. The `max_length=555` rule of
  `EmailVerificationSerializer` is never applied.

Where the documented design and the code differ, the model follows the code:

- There is no `AlreadyVerified` outcome and no idempotent success.
- No reset-eligibility rule ("verified and has a password") appears in the
  code shown. It is an injected predicate.
- Verification and reset use the same token type and the same lifetime.
- Invalid registration input returns the serializer errors with status 200
  rather than a `DuplicateEmail` error kind.
- `reverse("reset_password_confirm")` needs a URL name that
  `authorization/users/urls.py` does not register. That file routes neither
  reset view either, so the reset views are reachable only through a URL
  configuration that is not part of this model. If such a configuration
  routes the view but `reverse` knows only the names of the users file, a
  reset request never sends its mail and changes nothing: it ends in
  `ResetRejected`, `Failed(KeyError)`, `Failed(DoesNotExist)` or
  `Failed(NoReverseMatch)` (`ResetRequestNeedsConfirmRoute`).

The collaborators are the fields of `Flows.Env`: the token codec and the
access token lifetime, the URL name table that `reverse` consults, the email
validation of `UserEmailSerializer`, the acceptance rule of
`ForgotPasswordSerializer`, the `validate_password` policy, the hash of
`set_password`, and the parser of `DateField`. The host from
`request.get_host()` and the current time are parameters of the handlers
that use them. The authenticated caller is given as an optional account id.

## Model

| member | source | states |
|---|---|---|
| `Tokens.Mint` | authorization/users/endpoints.py:39 | a minted access token is signed by the service and well formed |
| `Tokens.Decode` | authorization/users/endpoints.py:76 | a token that does not parse or is badly signed raises DecodeError; a verified one is expired exactly when exp <= now; otherwise the payload carries its subject |
| `Tokens.MintedTokenLifetime` | authorization/users/endpoints.py:39-42 | a token minted at t decodes to its subject at every time before t + lifetime and is expired from then on |
| `Tokens.DecodeErrorIsTimeless` | authorization/users/endpoints.py:92-95 | whether a token is invalid does not depend on the time |
| `Tokens.ExpiryIsPermanent` | authorization/users/endpoints.py:88-91 | an expired token stays expired at every later time |
| `Store.NewAccount` | authorization/users/endpoints.py:33-35 | the account registration creates is unverified, has no password, and has the submitted email |
| `Store.FindByEmail` | authorization/users/endpoints.py:150 | the lookup by email finds an account exactly when one has that email, and then one with that email |
| `Store.UserStore.Get` | authorization/users/endpoints.py:77 | loading an existing id gives a fresh instance holding that row |
| `Store.UserStore.GetByEmail` | authorization/users/endpoints.py:38 | loading by an existing email gives a fresh instance of the one row with that email |
| `Store.UserStore.Create` | authorization/users/endpoints.py:35 | saving a valid registration inserts an unverified row under the next key and keeps emails unique |
| `Store.UserStore.Save` | authorization/users/endpoints.py:84 | saving an instance replaces its row by the instance's fields and changes no other row |
| `Store.Outbox.Send` | authorization/users/endpoints.py:50 | sending a message appends exactly that message to the mail log |
| `Serializers.ValidateProfile` | authorization/users/serializers.py:23-26 | the profile body is accepted exactly when each supplied name is non-blank and a supplied birth date parses; the validated data holds exactly the supplied fields |
| `Serializers.MergeProfile` | authorization/users/serializers.py:29-33 | each profile field takes the supplied value if present and keeps its old value otherwise; email, password hash and is_verified are kept |
| `Serializers.MergeNothing` | authorization/users/serializers.py:29-33 | an update supplying no field leaves the account unchanged |
| `Serializers.MergeIdempotent` | authorization/users/serializers.py:29-33 | applying the same update twice equals applying it once |
| `Serializers.UpdateInstanceProfile` | authorization/users/serializers.py:29-35 | the instance becomes the merged row and save writes only that row |
| `Serializers.PasswordFieldsValid` | authorization/users/serializers.py:39-40 | field validation passes only when both fields are supplied and the password passes the policy |
| `Serializers.ValidatePassword` | authorization/users/serializers.py:39-49 | field errors exactly when a field is absent or blank or the policy rejects the password; the mismatch error exactly when the fields are valid and differ; otherwise both fields equal the accepted password |
| `Serializers.UpdateInstancePassword` | authorization/users/serializers.py:51-54 | the instance's hash becomes hash(password), nothing else on it changes, and save writes only that row |
| `Flows.Body` | authorization/users/endpoints.py:51-204 | the fixed response messages of the views (endpoints.py:52, 73, 86, 90, 94, 113, 133, 164, 195, 199, 203 and serializers.py:48); there is none exactly for the serializer-error, unauthenticated, fall-through and uncaught outcomes |
| `Flows.Link` | authorization/users/endpoints.py:42 | the link starts with "http://" and the host and ends in "?token=" + token (also endpoints.py:154) |
| `Flows.VerificationBody` | authorization/users/endpoints.py:43 | the verification mail body is a greeting followed by the link |
| `Flows.ResetBody` | authorization/users/endpoints.py:155 | the reset mail body is a greeting followed by the link |
| `Flows.RegistrationAccepted` | authorization/users/endpoints.py:34 | the registration body is accepted only with an email that no account has |
| `Flows.Register` | authorization/users/endpoints.py:32-54 | invalid input changes nothing; valid input creates one unverified account under a fresh id and sends exactly one mail, to that email, with subject "Verify your email"; a missing verify route leaves the account created and sends nothing |
| `Flows.TokenGate` | authorization/users/endpoints.py:70-76 | an absent or empty token is reported before decoding; otherwise the gate reports the decode result |
| `Flows.VerifyEmail` | authorization/users/endpoints.py:69-95 | each outcome holds for exactly its branch, taken in the code's order; only the activation changes the store, and it sets that one account's is_verified to true; no account is un-verified |
| `Flows.RequestReset` | authorization/users/endpoints.py:147-165 | the store never changes; a rejected body, a missing email key, an unknown email and a missing route each yield their own outcome and send nothing; otherwise exactly one mail goes to the submitted email with subject "Reset your password" |
| `Flows.ResetConfirm` | authorization/users/endpoints.py:180-204 | returns only an outcome: missing token, invalid token, expired token, uncaught DoesNotExist, or link verified exactly when the token is valid and its subject exists |
| `Flows.UpdateProfile` | authorization/users/endpoints.py:106-115 | unauthenticated or invalid requests change nothing; otherwise only the caller's row changes, to the merged row; no email, password hash or is_verified changes |
| `Flows.SetPassword` | authorization/users/endpoints.py:126-135 | unauthenticated, field-error and mismatch requests change nothing; otherwise only the caller's hash changes, to the hash of the submitted password |
| `Endpoints.UserEmailPost` | authorization/users/endpoints.py:32-54 | the imperative view produces exactly the outcome and state of Flows.Register and keeps the store invariant |
| `Endpoints.VerifyEmailGet` | authorization/users/endpoints.py:69-95 | the imperative view produces exactly the outcome and state of Flows.VerifyEmail and keeps the store invariant |
| `Endpoints.ResetPasswordPost` | authorization/users/endpoints.py:147-165 | the imperative view produces exactly the outcome and state of Flows.RequestReset |
| `Endpoints.UserUpdatePut` | authorization/users/endpoints.py:106-115 | the imperative view produces exactly the outcome and state of Flows.UpdateProfile and keeps the store invariant |
| `Endpoints.UserSetPasswordPut` | authorization/users/endpoints.py:126-135 | the imperative view produces exactly the outcome and state of Flows.SetPassword and keeps the store invariant |
| `Properties.LinkEndsWithToken` | authorization/users/endpoints.py:42 | a link built by the view ends in "?token=" followed by the token |
| `Properties.RegistrationMailLink` | authorization/users/endpoints.py:38-50 | a successful registration sends one mail to the new account's email whose body ends in "?token=" + a token that decodes to the new account's id throughout its lifetime |
| `Properties.RejectedRegistrationSendsNothing` | authorization/users/endpoints.py:34-54 | invalid registration input creates no account and sends no mail |
| `Properties.ResetMailLink` | authorization/users/endpoints.py:150-162 | a reset mail goes to the submitted email with subject "Reset your password" and carries a token whose subject is the account found by that email |
| `Properties.ResetRequestNeedsConfirmRoute` | authorization/users/urls.py:6-13 | with only the routes this configuration registers, a reset request never sends its mail and changes nothing |
| `Properties.MissingTokenFirst` | authorization/users/endpoints.py:70-74 | an absent or empty token yields "Token is not provided." whatever the codec and the store, and nothing changes |
| `Properties.ResetConfirmMatchesVerify` | authorization/users/endpoints.py:180-204 | reset confirm takes the same decision as verification: missing, invalid, expired and unknown-subject tokens correspond, and the link is verified exactly when verification would activate or fall through |
| `Properties.TokenMessagesDistinct` | authorization/users/endpoints.py:69-204 | within each token view no two outcomes share a fixed message, and across the two views only "Token is not provided." is shared |
| `Properties.RegisterThenVerify` | authorization/users/endpoints.py:76-87 | the mailed token presented before expiry verifies the new account; presenting it again changes nothing and gets no response |
| `Properties.RegisterThenVerifyTooLate` | authorization/users/endpoints.py:88-91 | the mailed token presented after expiry yields "Activation Expired" and the account stays unverified |
| `Properties.LongTokenStillActivates` | authorization/users/serializers.py:15-20 | a valid token longer than the 555 characters the field allows still activates its account |
| `Properties.EmptyProfileUpdate` | authorization/users/serializers.py:29-35 | an authenticated update with no fields succeeds and leaves the store unchanged |
| `Properties.ProfileUpdateIdempotent` | authorization/users/serializers.py:29-35 | sending the same profile update twice gives the same outcome and state as sending it once |
| `Properties.MismatchKeepsHash` | authorization/users/serializers.py:46-49 | differing password fields never change the store, and with valid fields they yield the mismatch error |
| `Properties.MatchingPasswordSetsHash` | authorization/users/serializers.py:51-54 | equal fields the policy accepts replace the caller's hash by hash(password) and change nothing else |
| `Properties.PasswordFieldsRequired` | authorization/users/serializers.py:39-40 | a request missing either password field changes nothing |
| `Properties.Step` | authorization/users/endpoints.py:32-204 | every request keeps the store invariant (unique emails, keys below the next key) |
| `Properties.Run` | authorization/users/endpoints.py:32-204 | every sequence of requests keeps the store invariant |
| `Properties.StepEvolves` | authorization/users/endpoints.py:82-84 | no request deletes an account, changes an email, un-verifies an account or removes mail; an account becomes verified only by a verification request whose token names it and whose outcome is the activation |
| `Properties.RunEvolves` | authorization/users/endpoints.py:82-84 | over any sequence of requests, accounts stay, emails stay, is_verified never goes from true to false, and the mail log only grows |
| `Properties.OnlyVerificationVerifies` | authorization/users/endpoints.py:82-84 | a sequence of requests with no verification leaves an unverified account unverified |

## Left out

- JWT cryptography: HMAC-SHA256 signing, the secret key and the other claims of
  an access token (`jti`, `iat`, `token_type`) are below the codec. Lemmas about
  minted tokens assume the codec reads back what it writes (`Tokens.Faithful`).
- Token time is whole seconds. Checks on `iat` and `nbf` are not modelled, and
  neither is the refresh token itself. The other `jwt.decode` failures that are
  not `DecodeError` (such as `InvalidAlgorithmError` for a header algorithm
  other than HS256) escape both token views uncaught; the model counts every
  token that is not issued by the service as a `DecodeError`.
- `request.get_host()` and `reverse` are an opaque host string and a table from
  URL names to paths. Django's URL resolution is not modelled.
- `Util.send_email` and its delivery are not modelled: sending appends to a
  mail log. The utils module is not part of this model.
- `set_password` is an injected hash, so the model has no salt.
  `validate_password` is an injected policy predicate.
- The rules of `ForgotPasswordSerializer` are an injected predicate. That
  serializer is not defined in the serializers file shown.
- `UserEmailSerializer`'s email validation is an injected predicate. Email
  uniqueness is a store invariant; the user model module is not part of this
  model.
- Email matching is exact. The database collation may make Django's `email=`
  lookup and unique check case-insensitive; that is not modelled.
- HTTP status codes are not modelled; each branch is a distinct outcome tag.
- `CharField` whitespace trimming is not modelled. Absence and blankness of a
  field are.
- How Django and DRF answer an exception that escapes a view, or a view that
  returns nothing, is not modelled. These are the outcomes `Failed(...)` and
  `NoResponse`.
- The mechanism of bearer authentication behind `IsAuthenticated` is not
  modelled. The caller is given as an optional account id.
- Concurrent requests are not modelled: requests are served one at a time.
- The API documentation decorators and URL registration are not modelled. The
  names in `authorization/users/urls.py` appear only as a constant.
