/**
 * Token authentication shared by the protected controllers
 * (controllers/concerns/authenticatable.rb): the bearer token is taken
 * from the `Authorization` header, decoded as a JSON Web Token (RFC 7519)
 * and resolved to a stored user, or the request is answered with 401.
 *
 * Signature checking and JSON decoding are not modelled: `decode` stands
 * for `JWT.decode` with the application secret, returning the claims of a
 * well-signed token and `None` where it raises `JWT::DecodeError`. The
 * expiry check that `JWT.decode` performs is written out here.
 */
module Authenticatable {
  import opened Wrappers
  import opened Text
  import opened Json
  import opened UserModel

  const TOKEN_REQUIRED := "인증 토큰이 필요합니다."
  const TOKEN_INVALID := "유효하지 않은 토큰입니다."

  /** The case-sensitive scheme prefix the header must start with. */
  const BEARER := "Bearer "

  /** Tokens are issued for 24 hours (seconds). */
  const TOKEN_LIFETIME := 86400

  /** The claims of a token: `user_id`, `email`, `exp` (each may be missing from a foreign payload). */
  datatype Claims = Claims(userId: Option<int>, email: string, exp: Option<int>)

  /**
   * `extract_token_from_header`: nothing for a missing or blank header,
   * nothing unless the header starts with exactly "Bearer ", otherwise the
   * last whitespace-separated word of the whole header.
   */
  function ExtractToken(header: Option<string>): (token: Option<string>)
    ensures token.Some? <==> header.Some? && !IsBlank(header.value) && StartsWith(header.value, BEARER)
    ensures token.Some? ==> IsWord(token.value) && EndsWithWord(header.value, token.value)
  {
    if header.None? || IsBlank(header.value) then None
    else if !StartsWith(header.value, BEARER) then None
    else
      var ws := Words(header.value);
      WordsEmptyIffBlank(header.value);
      WordsLastTrails(header.value);
      Some(ws[|ws| - 1])
  }

  /** A header built from the scheme and a token gives that token back. */
  lemma BearerRoundTrip(token: string)
    requires IsWord(token)
    ensures ExtractToken(Some(BEARER + token)) == Some(token)
  {
    var h := BEARER + token;
    assert h == "Bearer" + " " + token;
    assert h[..|BEARER|] == BEARER;
    assert !IsSpace(h[0]);
    WordsOfTwo("Bearer", token);
  }

  /** The scheme with no token yields the word "Bearer" itself as the token. */
  lemma BearerAloneIsItsOwnToken()
    ensures ExtractToken(Some(BEARER)) == Some("Bearer")
  {
    assert BEARER[..|BEARER|] == BEARER;
    assert BEARER == "Bearer" + " ";
    assert IsWord("Bearer");
    WordsOfOneTrailing("Bearer");
  }

  /** The prefix check is case-sensitive: a lowercase scheme is no token at all. */
  lemma LowercaseSchemeRejected(rest: string)
    ensures ExtractToken(Some("bearer " + rest)) == None
  {
    var h := "bearer " + rest;
    assert h[0] == 'b';
  }

  /** The outcome of `authenticate_user!`: `@current_user` set, or a 401 rendered. */
  datatype AuthOutcome = Authenticated(user: User) | Denied(response: Rendered)

  function Unauthorized(message: string): Rendered {
    Rendered(UNAUTHORIZED, Obj(map["message" := Str(message)]))
  }

  /** `JWT.decode`'s expiry rule: a token whose `exp` is at or before now has expired. */
  predicate Expired(c: Claims, now: int) {
    c.exp.Some? && c.exp.value <= now
  }

  /**
   * What `JWT.decode` and `User.find` accept: claims that decoded, have not
   * expired, and carry the id of a stored user.
   */
  predicate Admits(c: Option<Claims>, users: map<int, User>, now: int) {
    c.Some? && !Expired(c.value, now) && c.value.userId.Some? && c.value.userId.value in users
  }

  /**
   * `authenticate_user!`: a blank or missing token is "token required"; a
   * token that fails to decode, has expired, or names no stored user is
   * "invalid token"; otherwise the user stored under the token's `user_id`.
   */
  function Authenticate(header: Option<string>, decode: string -> Option<Claims>, users: map<int, User>, now: int): (r: AuthOutcome)
    ensures ExtractToken(header).None? ==> r == Denied(Unauthorized(TOKEN_REQUIRED))
    ensures ExtractToken(header).Some? ==>
      (r.Authenticated? <==> Admits(decode(ExtractToken(header).value), users, now))
    ensures ExtractToken(header).Some? && r.Authenticated? ==>
      r.user == users[decode(ExtractToken(header).value).value.userId.value]
    ensures ExtractToken(header).Some? && r.Denied? ==> r == Denied(Unauthorized(TOKEN_INVALID))
  {
    var token := ExtractToken(header);
    if token.None? then Denied(Unauthorized(TOKEN_REQUIRED))
    else
      WordNotBlank(token.value);
      if IsBlank(token.value) then Denied(Unauthorized(TOKEN_REQUIRED))
      else match decode(token.value)
        case None => Denied(Unauthorized(TOKEN_INVALID))
        case Some(c) =>
          if Expired(c, now) || c.userId.None? || c.userId.value !in users then Denied(Unauthorized(TOKEN_INVALID))
          else Authenticated(users[c.userId.value])
  }

  /** The table key of the user an admitted request runs as: the token's `user_id`. */
  function AdmittedId(header: Option<string>, decode: string -> Option<Claims>, users: map<int, User>, now: int): (id: int)
    requires Authenticate(header, decode, users, now).Authenticated?
    ensures id in users && users[id] == Authenticate(header, decode, users, now).user
  {
    decode(ExtractToken(header).value).value.userId.value
  }

  /** The claims `generate_jwt_token` signs for a user at time `now`. */
  function IssueClaims(u: User, now: int): (c: Claims)
    ensures c.userId == Some(u.id) && c.email == u.email
    ensures !Expired(c, now + TOKEN_LIFETIME - 1) && Expired(c, now + TOKEN_LIFETIME)
  {
    Claims(Some(u.id), u.email, Some(now + TOKEN_LIFETIME))
  }

  /**
   * A token issued at `issuedAt` authenticates its stored user for the
   * following 24 hours, provided the token codec reads back what it wrote.
   */
  lemma IssuedTokenAuthenticates(u: User, users: map<int, User>, encode: Claims -> string, decode: string -> Option<Claims>, issuedAt: int, now: int)
    requires u.id in users && users[u.id] == u
    requires IsWord(encode(IssueClaims(u, issuedAt)))
    requires decode(encode(IssueClaims(u, issuedAt))) == Some(IssueClaims(u, issuedAt))
    requires now < issuedAt + TOKEN_LIFETIME
    ensures Authenticate(Some(BEARER + encode(IssueClaims(u, issuedAt))), decode, users, now) == Authenticated(u)
  {
    BearerRoundTrip(encode(IssueClaims(u, issuedAt)));
  }

  /** From the 24-hour mark on, the same token is rejected as invalid. */
  lemma ExpiredTokenRejected(u: User, users: map<int, User>, encode: Claims -> string, decode: string -> Option<Claims>, issuedAt: int, now: int)
    requires IsWord(encode(IssueClaims(u, issuedAt)))
    requires decode(encode(IssueClaims(u, issuedAt))) == Some(IssueClaims(u, issuedAt))
    requires now >= issuedAt + TOKEN_LIFETIME
    ensures Authenticate(Some(BEARER + encode(IssueClaims(u, issuedAt))), decode, users, now) == Denied(Unauthorized(TOKEN_INVALID))
  {
    BearerRoundTrip(encode(IssueClaims(u, issuedAt)));
  }

  /**
   * The controller instance state the filter touches: `@current_user`, and
   * the response if the filter rendered one (which halts the action).
   */
  class Session {
    var currentUser: Option<User>
    var rendered: Option<Rendered>

    constructor()
      ensures currentUser.None? && rendered.None?
    {
      currentUser := None;
      rendered := None;
    }

    /** `authenticate_user!` as a before-action: sets `@current_user` or renders 401. */
    method AuthenticateUser(header: Option<string>, decode: string -> Option<Claims>, users: map<int, User>, now: int)
      modifies this
      ensures Authenticate(header, decode, users, now).Authenticated? ==>
        (currentUser == Some(Authenticate(header, decode, users, now).user) && rendered == old(rendered))
      ensures Authenticate(header, decode, users, now).Denied? ==>
        (rendered == Some(Authenticate(header, decode, users, now).response) && currentUser == old(currentUser))
    {
      var outcome := Authenticate(header, decode, users, now);
      match outcome
      case Authenticated(u) => currentUser := Some(u);
      case Denied(r) => rendered := Some(r);
    }
  }
}
