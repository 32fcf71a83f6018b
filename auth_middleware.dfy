/**
 * `auth.middleware.ts`: a request passes only with an `Authorization: Bearer <token>`
 * header whose token verifies under the access secret; the middleware then records the
 * caller on the request and hands it on. Signature checking is a parameter of the model.
 */
module AuthMiddleware {
  import opened Wrappers
  import opened Text
  import opened ObjectIds
  import opened Records
  import opened AuthService

  /** `req.user`: the caller as the token names it. */
  datatype AuthUser = AuthUser(id: string, role: Role)

  const Unauthorized: nat := 401
  const MissingHeaderMessage: string := "Authorization header missing or invalid"
  const InvalidTokenMessage: string := "Invalid or expired token"
  const BearerPrefix: string := "Bearer "

  /** A header that starts with "Bearer " splits on spaces into "Bearer" and the rest of the fields. */
  lemma SplitBearer(header: string)
    requires StartsWith(header, BearerPrefix)
    ensures Split(header, ' ') == ["Bearer"] + Split(header[7..], ' ')
  {
    assert header[6] == ' ';
    assert ' ' !in header[..6] by {
      assert header[..6] == "Bearer";
    }
    var k := IndexOf(header, ' ');
    assert k == 6;
    assert header[..6] == "Bearer";
  }

  /** The first field of a split: everything before the first separator. */
  lemma SplitFirst(s: string, c: char)
    ensures c !in s ==> Split(s, c)[0] == s
    ensures c in s ==> Split(s, c)[0] == s[..IndexOf(s, c)]
  {
  }

  /** A prefix followed by a prefix of what comes after it is a prefix of the whole. */
  lemma PrefixThenPrefix(s: string, p: string, t: string)
    requires StartsWith(s, p) && StartsWith(s[|p|..], t)
    ensures StartsWith(s, p + t)
    ensures |t| == |s| - |p| ==> s == p + t
  {
    assert s == s[..|p|] + s[|p|..];
    assert (p + t) == s[..|p| + |t|];
  }

  /** The second field of a "Bearer " header is the text after the prefix, up to the next space. */
  lemma BearerField(header: string)
    requires StartsWith(header, BearerPrefix)
    ensures |Split(header, ' ')| >= 2
    ensures var t := Split(header, ' ')[1];
            && ' ' !in t
            && StartsWith(header, BearerPrefix + t)
            && (' ' !in header[7..] ==> header == BearerPrefix + t)
  {
    SplitBearer(header);
    var rest := header[7..];
    SplitFirst(rest, ' ');
    var t := Split(rest, ' ')[0];
    assert Split(header, ' ')[1] == t;
    assert StartsWith(rest, t);
    PrefixThenPrefix(header, BearerPrefix, t);
  }

  /** `authHeader.split(" ")[1]`: the second space-separated field, which runs up to the next space. */
  function BearerToken(header: string): (t: string)
    requires StartsWith(header, BearerPrefix)
    ensures ' ' !in t
    ensures StartsWith(header, BearerPrefix + t)
    ensures ' ' !in header[7..] ==> header == BearerPrefix + t
  {
    BearerField(header);
    Split(header, ' ')[1]
  }

  /**
   * What the middleware decides for a header: the caller, or the 401 message. A missing,
   * empty or non-Bearer header is refused before any verification; an unset access secret
   * makes `verifyAccessToken` throw, which is caught like a bad token.
   */
  function Authenticate(header: Option<string>, secrets: Secrets, verify: (string, string) -> Option<JwtPayload>): (r: Result<AuthUser>)
    ensures (!Given(header) || !StartsWith(header.value, BearerPrefix)) ==> r == Failure(MissingHeaderMessage)
    ensures r.Failure? ==> r.error == MissingHeaderMessage || r.error == InvalidTokenMessage
    ensures r.Success? ==>
      && Given(header) && StartsWith(header.value, BearerPrefix) && Given(secrets.access)
      && var p := verify(BearerToken(header.value), secrets.access.value);
         p.Some? && r.value == AuthUser(p.value.sub, p.value.role)
  {
    if !Given(header) || !StartsWith(header.value, BearerPrefix) then Failure(MissingHeaderMessage)
    else if !Given(secrets.access) then Failure(InvalidTokenMessage)
    else
      match verify(BearerToken(header.value), secrets.access.value)
      case None => Failure(InvalidTokenMessage)
      case Some(p) => Success(AuthUser(p.sub, p.role))
  }

  /** What the middleware does with the request: hand it on, or answer it. */
  datatype Outcome = CallNext | Respond(status: nat, message: string)

  /** The part of an Express request the middleware reads and writes. */
  class Request {
    var authorization: Option<string>
    var user: Option<AuthUser>

    constructor (authorization: Option<string>)
      ensures this.authorization == authorization && user.None?
    {
      this.authorization := authorization;
      user := None;
    }
  }

  /** `authMiddleware(req, res, next)`: sets `req.user` and calls `next` once, or answers 401 and leaves `req.user` alone. */
  method Handle(req: Request, secrets: Secrets, verify: (string, string) -> Option<JwtPayload>) returns (outcome: Outcome)
    modifies req`user
    ensures Authenticate(req.authorization, secrets, verify).Failure? ==>
      && outcome == Respond(Unauthorized, Authenticate(req.authorization, secrets, verify).error)
      && req.user == old(req.user)
    ensures Authenticate(req.authorization, secrets, verify).Success? ==>
      outcome == CallNext && req.user == Some(Authenticate(req.authorization, secrets, verify).value)
  {
    var decision := Authenticate(req.authorization, secrets, verify);
    match decision {
      case Failure(message) =>
        return Respond(Unauthorized, message);
      case Success(caller) =>
        req.user := Some(caller);
        return CallNext;
    }
  }

  // ---- properties ----

  /** A token without spaces sent as "Bearer <token>" is exactly the token that is verified. */
  lemma BearerRoundTrip(token: string)
    requires ' ' !in token
    ensures StartsWith(BearerPrefix + token, BearerPrefix)
    ensures BearerToken(BearerPrefix + token) == token
  {
    var header := BearerPrefix + token;
    assert header[..7] == BearerPrefix;
    assert header[7..] == token;
  }

  /** The token an access token signed at login carries is accepted, naming the user it was issued for. */
  lemma SignedTokenAccepted(user: User, secrets: Secrets, sign: (JwtPayload, string) -> string,
                            verify: (string, string) -> Option<JwtPayload>)
    requires IssueTokens(secrets, sign, user).Success?
    requires var t := IssueTokens(secrets, sign, user).value.accessToken;
             ' ' !in t && verify(t, secrets.access.value) == Some(JwtPayload(FormatObjectId(user.id), user.role, AccessToken))
    ensures var t := IssueTokens(secrets, sign, user).value.accessToken;
            Authenticate(Some(BearerPrefix + t), secrets, verify) == Success(AuthUser(FormatObjectId(user.id), user.role))
  {
    var t := IssueTokens(secrets, sign, user).value.accessToken;
    BearerRoundTrip(t);
  }
}
