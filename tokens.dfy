/**
 * The access tokens used by the verification and reset flows.
 *
 * The signing and parsing of a JWT are abstracted: a presented token string is
 * parsed by the injected `Codec` into the record `Token` of what decoding it
 * reveals, and the expiry rule of section 4.1.4 of RFC 7519 is applied to
 * that record (the token is accepted only while the current time is strictly
 * before `exp`).
 */
module Tokens {

  /** The `user_id` claim: the primary key of an account. */
  type UserId = nat

  /** What decoding a token string reveals. */
  datatype Token = Token(subject: UserId, exp: int, signatureOk: bool, wellFormed: bool)

  /**
   * The token serialisation: `encode` is `str(token)`, `parse` reads a string
   * back (a string that is not a token parses to a record with
   * `wellFormed == false`).
   */
  datatype Codec = Codec(encode: Token -> string, parse: string -> Token)

  /** A token this service issues: signed with its own key and well formed. */
  predicate Issued(t: Token) {
    t.signatureOk && t.wellFormed
  }

  /**
   * The codec reads back every token the service issues, and the string of
   * an issued token is never empty.
   */
  ghost predicate Faithful(c: Codec) {
    forall t: Token {:trigger c.encode(t)} :: Issued(t) ==> c.parse(c.encode(t)) == t && c.encode(t) != ""
  }

  /**
   * `RefreshToken.for_user(user).access_token` at time `now`: the subject is
   * the account id and the token expires `lifetime` seconds later.
   */
  function Mint(subject: UserId, now: int, lifetime: nat): (t: Token)
    ensures Issued(t)
  {
    Token(subject, now + lifetime, true, true)
  }

  /** The outcome of `jwt.decode`: the payload's `user_id`, or the exception raised. */
  datatype Decoded = Payload(userId: UserId) | ExpiredSignature | DecodeError

  /**
   * `jwt.decode(token, key, algorithms="HS256")`: a token that does not parse
   * or whose signature does not verify raises `DecodeError` before the claims
   * are looked at; a verified token is then expired once `now >= exp`.
   */
  function Decode(c: Codec, text: string, now: int): (r: Decoded)
    ensures r.DecodeError? <==> !Issued(c.parse(text))
    ensures r.ExpiredSignature? <==> Issued(c.parse(text)) && c.parse(text).exp <= now
    ensures r.Payload? <==> Issued(c.parse(text)) && now < c.parse(text).exp
    ensures r.Payload? ==> r.userId == c.parse(text).subject
  {
    var t := c.parse(text);
    if !t.wellFormed || !t.signatureOk then DecodeError
    else if t.exp <= now then ExpiredSignature
    else Payload(t.subject)
  }

  /**
   * A token minted at `issuedAt` decodes to its subject at every time strictly
   * before its expiry and is expired from then on.
   */
  lemma MintedTokenLifetime(c: Codec, subject: UserId, issuedAt: int, lifetime: nat, now: int)
    requires Faithful(c)
    ensures Decode(c, c.encode(Mint(subject, issuedAt, lifetime)), now)
            == if now < issuedAt + lifetime then Payload(subject) else ExpiredSignature
  {
  }

  /** Decoding depends on the time only through the expiry: it never turns an invalid token valid. */
  lemma DecodeErrorIsTimeless(c: Codec, text: string, now: int, later: int)
    ensures Decode(c, text, now).DecodeError? <==> Decode(c, text, later).DecodeError?
  {
  }

  /** Once a token is expired it stays expired. */
  lemma ExpiryIsPermanent(c: Codec, text: string, now: int, later: int)
    requires now <= later
    requires Decode(c, text, now).ExpiredSignature?
    ensures Decode(c, text, later).ExpiredSignature?
  {
  }
}
