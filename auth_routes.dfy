/**
 * The two authentication endpoints. Login compares the submitted pair with the
 * configured credentials by plain equality and, on a match, issues a signed
 * token in the `dashboard_auth` cookie; logout answers with a cookie that
 * expires at once. Neither keeps any state on the server.
 */
module AuthRoutes {
  import opened Wrappers
  import opened Json
  import opened Http
  import Text

  // ---------------------------------------------------------------- configuration

  /** `process.env[name] || fallback`: an unset or empty variable takes the fallback. */
  function EnvOr(env: map<string, string>, name: string, fallback: string): (r: string)
    ensures name in env && env[name] != "" ==> r == env[name]
    ensures !(name in env && env[name] != "") ==> r == fallback
  {
    if name in env && env[name] != "" then env[name] else fallback
  }

  function ConfiguredUserId(env: map<string, string>): string {
    EnvOr(env, "DASHBOARD_USER_ID", "admin")
  }

  function ConfiguredPassword(env: map<string, string>): string {
    EnvOr(env, "DASHBOARD_PASSWORD", "admin123")
  }

  function ConfiguredSecret(env: map<string, string>): string {
    EnvOr(env, "AUTH_SECRET", "supersecret")
  }

  predicate Production(env: map<string, string>) {
    "NODE_ENV" in env && env["NODE_ENV"] == "production"
  }

  // ---------------------------------------------------------------- login

  /** The token's lifetime, `expiresIn: "2h"`, and the cookie's `Max-Age`, in seconds. */
  const SessionSeconds: nat := 60 * 60 * 2

  /** The payload `sign` puts in the token: the user id, issued-at and expiry, in seconds. */
  datatype Claims = Claims(userId: Value, iat: int, exp: int)

  /** The claims of a token signed at `nowMs` milliseconds. */
  function ClaimsAt(userId: Value, nowMs: int): (c: Claims)
    ensures c.userId == userId
    ensures c.iat * 1000 <= nowMs < c.iat * 1000 + 1000
    ensures c.exp == c.iat + SessionSeconds
  {
    Claims(userId, nowMs / 1000, nowMs / 1000 + SessionSeconds)
  }

  const LoginAttributes: string :=
    "; HttpOnly" + "; Path=/" + "; Max-Age=" + Text.IntText(SessionSeconds) + "; SameSite=Lax"

  /** The `Set-Cookie` header of a successful login. */
  function LoginCookie(token: string, production: bool): string {
    AuthCookie + "=" + token + LoginAttributes + (if production then "; Secure" else "")
  }

  function CredentialsMatch(env: map<string, string>, body: Record): bool {
    && "userId" in body && body["userId"] == Str(ConfiguredUserId(env))
    && "password" in body && body["password"] == Str(ConfiguredPassword(env))
  }

  /**
   * `POST /api/auth/login`. A body that is no JSON, or is `null`, makes the
   * destructuring throw, and nothing catches it; any other body is checked by
   * strict equality of `userId` and `password` against the configuration.
   * `sign` is the token library, given the claims and the secret.
   */
  function LoginPost(env: map<string, string>, body: RequestBody, nowMs: int,
                     sign: (Claims, string) -> string): (r: Response)
    ensures body == Unparsable || body == Parsed(Null) ==> r == Crashed
    ensures r.status == 200 <==> body.Parsed? && body.v.Obj? && CredentialsMatch(env, body.v.fields)
    ensures r.status == 200 ==>
              && r.payload == Succeeded
              && r.setCookie == Some(LoginCookie(sign(ClaimsAt(body.v.fields["userId"], nowMs),
                                                      ConfiguredSecret(env)), Production(env)))
    ensures r.status != 200 && body.Parsed? && body.v != Null ==>
              r == Reply(401, Failure("Invalid credentials"))
  {
    match body
    case Unparsable => Crashed
    case Parsed(v) =>
      if v == Null then Crashed
      else if v.Obj? && CredentialsMatch(env, v.fields) then
        var token := sign(ClaimsAt(v.fields["userId"], nowMs), ConfiguredSecret(env));
        Response(200, Succeeded, Some(LoginCookie(token, Production(env))))
      else Reply(401, Failure("Invalid credentials"))
  }

  /** With no configuration, exactly the pair admin / admin123 logs in. */
  lemma DefaultCredentials(env: map<string, string>, userId: string, password: string, nowMs: int,
                           sign: (Claims, string) -> string)
    requires "DASHBOARD_USER_ID" !in env && "DASHBOARD_PASSWORD" !in env
    ensures LoginPost(env, Parsed(Obj(map["userId" := Str(userId), "password" := Str(password)])), nowMs, sign).status == 200
            <==> userId == "admin" && password == "admin123"
  {
  }

  /** The attributes of the login cookie, as a browser reads them. */
  function LoginCookieAttributes(production: bool): seq<CookieAttribute> {
    SessionAttributes + (if production then [CookieAttribute("Secure", "")] else [])
  }

  const SessionAttributes: seq<CookieAttribute> :=
    [CookieAttribute("HttpOnly", ""), CookieAttribute("Path", "/"),
     CookieAttribute("Max-Age", "7200"), CookieAttribute("SameSite", "Lax")]

  lemma SessionSecondsText()
    ensures Text.IntText(SessionSeconds) == "7200"
  {
    Text.NatTextSnoc(72);
    Text.NatTextSnoc(720);
    Text.NatTextSnoc(7200);
    assert Text.NatText(7200) == ['7'] + ['2'] + ['0'] + ['0'];
  }

  /** The text of a four-attribute list is the texts of its attributes in order. */
  lemma AttributesTextFour(a: CookieAttribute, b: CookieAttribute, c: CookieAttribute, d: CookieAttribute)
    ensures AttributesText([a, b, c, d]) == AttributeText(a) + AttributeText(b) + AttributeText(c) + AttributeText(d)
  {
    var attrs := [a, b, c, d];
    assert attrs[1..] == [b, c, d];
    assert attrs[1..][1..] == [c, d];
    assert attrs[1..][1..][1..] == [d];
    assert [d][1..] == [];
    assert AttributesText([d]) == AttributeText(d);
    assert AttributesText([c, d]) == AttributeText(c) + AttributeText(d);
    assert AttributesText([b, c, d]) == AttributeText(b) + (AttributeText(c) + AttributeText(d));
    AppendAssociative(AttributeText(b), AttributeText(c), AttributeText(d));
    AppendAssociative(AttributeText(a), AttributeText(b) + AttributeText(c), AttributeText(d));
    AppendAssociative(AttributeText(a), AttributeText(b), AttributeText(c));
  }

  lemma AttributeTextShared(maxAge: string)
    requires maxAge != ""
    ensures AttributeText(CookieAttribute("HttpOnly", "")) == "; HttpOnly"
    ensures AttributeText(CookieAttribute("Path", "/")) == "; Path=/"
    ensures AttributeText(CookieAttribute("Max-Age", maxAge)) == "; Max-Age=" + maxAge
    ensures AttributeText(CookieAttribute("SameSite", "Lax")) == "; SameSite=Lax"
  {
  }

  lemma AppendAssociative(x: string, y: string, z: string)
    ensures x + y + z == x + (y + z)
  {
  }

  lemma SessionAttributesText()
    ensures LoginAttributes == AttributesText(SessionAttributes)
  {
    SessionSecondsText();
    AttributesTextFour(SessionAttributes[0], SessionAttributes[1], SessionAttributes[2], SessionAttributes[3]);
    AttributeTextShared("7200");
    AppendAssociative("; HttpOnly" + "; Path=/", "; Max-Age=", "7200");
  }

  lemma LoginAttributesText(production: bool)
    ensures LoginAttributes + (if production then "; Secure" else "") == AttributesText(LoginCookieAttributes(production))
  {
    SessionAttributesText();
    var extra: seq<CookieAttribute> := if production then [CookieAttribute("Secure", "")] else [];
    AttributesTextAppend(SessionAttributes, extra);
    if production {
      assert AttributesText(extra[1..]) == "";
      assert AttributesText(extra) == "; Secure";
    }
  }

  lemma CookieNameWellFormed()
    ensures AuthCookie != [] && Unpadded(AuthCookie) && ';' !in AuthCookie && '=' !in AuthCookie
  {
  }

  lemma SessionAttributesWellFormed()
    ensures forall i :: 0 <= i < |SessionAttributes| ==> WellFormedAttribute(SessionAttributes[i])
  {
    assert WellFormedAttribute(SessionAttributes[0]);
    assert WellFormedAttribute(SessionAttributes[1]);
    assert WellFormedAttribute(SessionAttributes[2]);
    assert WellFormedAttribute(SessionAttributes[3]);
  }

  lemma LoginAttributesWellFormed(production: bool)
    ensures forall i :: 0 <= i < |LoginCookieAttributes(production)| ==> WellFormedAttribute(LoginCookieAttributes(production)[i])
  {
    var attrs := LoginCookieAttributes(production);
    SessionAttributesWellFormed();
    forall i | 0 <= i < |attrs| ensures WellFormedAttribute(attrs[i]) {
      if i < |SessionAttributes| {
        assert attrs[i] == SessionAttributes[i];
      } else {
        assert attrs[i] == CookieAttribute("Secure", "");
      }
    }
  }

  lemma OctetsUnpadded(value: string)
    requires forall i :: 0 <= i < |value| ==> IsCookieOctet(value[i])
    ensures Unpadded(value) && ';' !in value
  {
  }

  /** The login cookie as a browser parses it: the token under `dashboard_auth`, and its attributes. */
  lemma LoginCookieParses(token: string, production: bool)
    requires forall i :: 0 <= i < |token| ==> IsCookieOctet(token[i])
    ensures ParseSetCookie(LoginCookie(token, production)) ==
              Some(SetCookie(AuthCookie, token, LoginCookieAttributes(production)))
  {
    var attrs := LoginCookieAttributes(production);
    LoginAttributesText(production);
    assert LoginCookie(token, production) == AuthCookie + "=" + token + AttributesText(attrs);
    CookieNameWellFormed();
    LoginAttributesWellFormed(production);
    OctetsUnpadded(token);
    SetCookieRoundTrip(AuthCookie, token, attrs);
  }

  lemma MaxAgeName()
    ensures LowerAscii("Max-Age") == "max-age"
  {
    assert LowerAscii("ge") == "ge";
    assert LowerAscii("Age") == "age" by { assert ('A' as int + 32) as char == 'a'; }
    assert LowerAscii("-Age") == "-age";
    assert LowerAscii("x-Age") == "x-age";
    assert LowerAscii("ax-Age") == "ax-age";
    assert ('M' as int + 32) as char == 'm';
  }

  lemma MaxAgeValue()
    ensures ParseMaxAge("7200") == Some(SessionSeconds)
  {
    assert Text.DigitsValue("7", 10) == 7;
    assert Text.DigitsValue("72", 10) == 72;
    assert Text.DigitsValue("720", 10) == 720;
    var v := "7200";
    assert v[..3] == "720";
    assert Text.DigitsValue(v, 10) == 7200;
    assert v[0] != '-';
    assert forall i :: 0 <= i < |v| ==> Text.DigitValue(v[i]) < 10;
  }

  lemma SessionMaxAge()
    ensures EffectiveMaxAge(SessionAttributes) == Some(SessionSeconds)
  {
    var base := SessionAttributes;
    assert LowerAscii(base[3].name) != "max-age" by {
      assert LowerAscii(base[3].name)[0] == 's';
    }
    assert base[..3][2] == CookieAttribute("Max-Age", "7200");
    MaxAgeName();
    MaxAgeValue();
  }

  /** The login cookie lives for the two hours of the token. */
  lemma LoginCookieMaxAge(production: bool)
    ensures EffectiveMaxAge(LoginCookieAttributes(production)) == Some(SessionSeconds)
  {
    var attrs := LoginCookieAttributes(production);
    SessionMaxAge();
    if production {
      assert |LowerAscii(attrs[4].name)| == 6;
      assert attrs[..4] == SessionAttributes;
    } else {
      assert attrs == SessionAttributes;
    }
  }

  /** After a login, the browser holds the token as its `dashboard_auth` cookie. */
  lemma LoginStoresToken(jar: map<string, string>, token: string, production: bool)
    requires forall i :: 0 <= i < |token| ==> IsCookieOctet(token[i])
    ensures var after := ApplySetCookie(jar, Some(LoginCookie(token, production)));
            AuthCookie in after && after[AuthCookie] == token
  {
    LoginCookieParses(token, production);
    LoginCookieMaxAge(production);
  }

  // ---------------------------------------------------------------- logout

  const ClearingCookie := AuthCookie + "=" + "; HttpOnly" + "; Path=/" + "; Max-Age=0" + "; SameSite=Lax"

  /**
   * `POST /api/auth/logout`: refused without a session cookie; with one, whatever
   * its value, answered with a cookie that expires immediately. Nothing on the
   * server is revoked.
   */
  function LogoutPost(cookies: map<string, string>): (r: Response)
    ensures !HasSession(cookies) ==> r == Unauthorized
    ensures HasSession(cookies) ==> r == Response(200, Succeeded, Some(ClearingCookie))
  {
    if !HasSession(cookies) then Unauthorized
    else Response(200, Succeeded, Some(ClearingCookie))
  }

  function ClearingCookieAttributes(): seq<CookieAttribute> {
    [CookieAttribute("HttpOnly", ""), CookieAttribute("Path", "/"),
     CookieAttribute("Max-Age", "0"), CookieAttribute("SameSite", "Lax")]
  }

  lemma ClearingCookieText()
    ensures ClearingCookie == AuthCookie + "=" + "" + AttributesText(ClearingCookieAttributes())
  {
    var attrs := ClearingCookieAttributes();
    AttributesTextFour(attrs[0], attrs[1], attrs[2], attrs[3]);
    AttributeTextShared("0");
    assert "; Max-Age=" + "0" == "; Max-Age=0";
    AppendAssociative(AuthCookie + "=", "", AttributesText(attrs));
  }

  lemma ClearingCookieParses()
    ensures ParseSetCookie(ClearingCookie) == Some(SetCookie(AuthCookie, "", ClearingCookieAttributes()))
  {
    var attrs := ClearingCookieAttributes();
    ClearingCookieText();
    CookieNameWellFormed();
    assert forall i :: 0 <= i < |attrs| ==> WellFormedAttribute(attrs[i]);
    SetCookieRoundTrip(AuthCookie, "", attrs);
  }

  /** Whatever the browser held, after a logout it no longer presents a session. */
  lemma LogoutEndsSession(jar: map<string, string>)
    ensures !HasSession(ApplySetCookie(jar, LogoutPost(jar).setCookie))
  {
    if HasSession(jar) {
      ClearingCookieParses();
    }
  }
}
