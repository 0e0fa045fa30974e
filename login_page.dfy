/**
 * The login page: a form holding the typed user id and password, the error it
 * shows and whether a request is under way. Submitting posts the trimmed pair
 * to the login endpoint; a success stores the login record and moves to the
 * dashboard, anything else shows an error.
 */
module LoginPage {
  import opened Wrappers
  import opened Json
  import opened Client
  import Text
  import Http
  import AuthRoutes
  import Dashboard

  /**
   * What `fetch` gives back: a response with its status, its JSON body (`None`
   * when the body is no JSON) and its `Set-Cookie` header, or a rejection.
   */
  datatype FetchOutcome =
    | Answered(status: nat, body: Option<Value>, setCookie: Option<string>)
    | NetworkError(message: string)

  /** `res.ok`. */
  predicate IsOk(status: nat) {
    200 <= status <= 299
  }

  const DefaultError := "Invalid credentials"

  /**
   * The message `new Error(data?.error || "Invalid credentials")` carries: the
   * body's `error` when it is truthy, in its `String(...)` form (`toText`, the
   * identity on strings), and the fixed message otherwise.
   */
  function ErrorMessage(body: Option<Value>, toText: Value -> string): (m: string)
    ensures (body.Some? && body.value.Obj? && "error" in body.value.fields && Truthy(body.value.fields["error"]))
            ==> m == (if body.value.fields["error"].Str? then body.value.fields["error"].s else toText(body.value.fields["error"]))
    ensures !(body.Some? && body.value.Obj? && "error" in body.value.fields && Truthy(body.value.fields["error"]))
            ==> m == DefaultError
  {
    if body.Some? && body.value.Obj? && "error" in body.value.fields && Truthy(body.value.fields["error"]) then
      var e := body.value.fields["error"];
      if e.Str? then e.s else toText(e)
    else DefaultError
  }

  /** The record stored under `loginInfo`: the trimmed user id and the ISO time of the login. */
  function LoginInfo(username: string, isoTime: string): (v: Value)
    ensures v.Obj? && v.fields.Keys == {"username", "time"}
    ensures v.fields["username"] == Str(username) && v.fields["time"] == Str(isoTime)
  {
    Obj(map["username" := Str(username), "time" := Str(isoTime)])
  }

  /** The request body: `JSON.stringify({ userId: userId.trim(), password: password.trim() })`. */
  function Credentials(userId: string, password: string): (body: Record)
    ensures body.Keys == {"userId", "password"}
    ensures body["userId"] == Str(Text.Trim(userId)) && body["password"] == Str(Text.Trim(password))
  {
    map["userId" := Str(Text.Trim(userId)), "password" := Str(Text.Trim(password))]
  }

  /** The jar once the browser has taken in the response's `Set-Cookie`; a rejected request sets nothing. */
  function JarAfter(jar: map<string, string>, outcome: FetchOutcome): (r: map<string, string>)
    ensures outcome.NetworkError? ==> r == jar
    ensures outcome.Answered? ==> r == Http.ApplySetCookie(jar, outcome.setCookie)
  {
    if outcome.Answered? then Http.ApplySetCookie(jar, outcome.setCookie) else jar
  }

  class LoginForm {
    var userId: string
    var password: string
    var error: string
    var loading: bool

    constructor ()
      ensures userId == "" && password == "" && error == "" && !loading
    {
      userId := "";
      password := "";
      error := "";
      loading := false;
    }

    /** The two input fields' `onChange`. */
    method Type(newUserId: string, newPassword: string)
      modifies this`userId, this`password
      ensures userId == newUserId && password == newPassword
    {
      userId := newUserId;
      password := newPassword;
    }

    /** The start of `handleSubmit`: the error is cleared and the form disabled; the trimmed pair is sent. */
    method Begin() returns (body: Record)
      modifies this`error, this`loading
      ensures error == "" && loading
      ensures body == Credentials(userId, password)
    {
      error := "";
      loading := true;
      body := Credentials(userId, password);
    }

    /**
     * The rest of `handleSubmit`, once `fetch` settled: an ok response stores
     * the login record and replaces the location by `/`; any other outcome
     * shows its error; `loading` is false in every case. The browser has taken
     * in the response's cookie before the page sees the response.
     */
    method Complete(b: Browser, outcome: FetchOutcome, isoNow: string,
                    stringify: Value -> string, toText: Value -> string)
      requires b.Valid()
      modifies this`error, this`loading, b`storage, b`history, b`cookies
      ensures b.Valid() && !loading
      ensures b.cookies == JarAfter(old(b.cookies), outcome)
      ensures outcome.Answered? && IsOk(outcome.status) ==>
                && b.storage == old(b.storage)[LoginInfoKey := stringify(LoginInfo(Text.Trim(userId), isoNow))]
                && b.history == old(b.history)[..|old(b.history)| - 1] + [HomePath]
                && error == old(error)
      ensures !(outcome.Answered? && IsOk(outcome.status)) ==>
                && b.storage == old(b.storage) && b.history == old(b.history)
                && error == (if outcome.NetworkError? then outcome.message else ErrorMessage(outcome.body, toText))
    {
      match outcome {
        case NetworkError(message) =>
          error := message;
        case Answered(status, body, setCookie) =>
          b.Receive(setCookie);
          if !IsOk(status) {
            error := ErrorMessage(body, toText);
          } else {
            b.SetItem(LoginInfoKey, stringify(LoginInfo(Text.Trim(userId), isoNow)));
            b.Replace(HomePath);
          }
      }
      loading := false;
    }

    /** `handleSubmit` as a whole, with `server` standing for the request and its answer. */
    method HandleSubmit(b: Browser, server: Record -> FetchOutcome, isoNow: string,
                        stringify: Value -> string, toText: Value -> string)
      returns (outcome: FetchOutcome)
      requires b.Valid()
      modifies this`error, this`loading, b`storage, b`history, b`cookies
      ensures b.Valid() && !loading
      ensures outcome == server(Credentials(userId, password))
      ensures b.cookies == JarAfter(old(b.cookies), outcome)
      ensures outcome.Answered? && IsOk(outcome.status) ==>
                && b.storage == old(b.storage)[LoginInfoKey := stringify(LoginInfo(Text.Trim(userId), isoNow))]
                && b.Location() == HomePath
                && error == ""
      ensures !(outcome.Answered? && IsOk(outcome.status)) ==>
                && b.storage == old(b.storage) && b.history == old(b.history)
                && error == (if outcome.NetworkError? then outcome.message else ErrorMessage(outcome.body, toText))
    {
      var body := Begin();
      outcome := server(body);
      Complete(b, outcome, isoNow, stringify, toText);
    }
  }

  // ---------------------------------------------------------------- against the endpoint

  /** The JSON the login endpoint answers with, and its cookie; the framework's error page is no JSON. */
  function Delivered(resp: Http.Response): (o: FetchOutcome)
    ensures o.Answered? && o.status == resp.status && o.setCookie == resp.setCookie
    ensures resp.payload.Succeeded? ==> o.body == Some(Obj(map["success" := Bool(true)]))
    ensures resp.payload.Failure? ==> o.body == Some(Obj(map["error" := Str(resp.payload.error)]))
    ensures !resp.payload.Succeeded? && !resp.payload.Failure? ==> o.body.None?
  {
    match resp.payload
    case Succeeded => Answered(resp.status, Some(Obj(map["success" := Bool(true)])), resp.setCookie)
    case Failure(e) => Answered(resp.status, Some(Obj(map["error" := Str(e)])), resp.setCookie)
    case _ => Answered(resp.status, None, resp.setCookie)
  }

  /** The login endpoint as the page reaches it: the body it sends is the body the handler reads. */
  function LoginServer(env: map<string, string>, nowMs: int, sign: (AuthRoutes.Claims, string) -> string,
                       body: Record): FetchOutcome {
    Delivered(AuthRoutes.LoginPost(env, Http.Parsed(Obj(body)), nowMs, sign))
  }

  /**
   * Against the endpoint, the page logs in exactly when the trimmed pair is the
   * configured one, and otherwise shows the endpoint's "Invalid credentials".
   */
  lemma SubmitAgainstEndpoint(env: map<string, string>, nowMs: int, sign: (AuthRoutes.Claims, string) -> string,
                              userId: string, password: string, toText: Value -> string)
    ensures var o := LoginServer(env, nowMs, sign, Credentials(userId, password));
            && (IsOk(o.status) <==>
                  (Text.Trim(userId) == AuthRoutes.ConfiguredUserId(env) && Text.Trim(password) == AuthRoutes.ConfiguredPassword(env)))
            && (!IsOk(o.status) ==> ErrorMessage(o.body, toText) == DefaultError)
  {
    var body := Credentials(userId, password);
    var resp := AuthRoutes.LoginPost(env, Http.Parsed(Obj(body)), nowMs, sign);
    assert resp.status == 200 || resp == Http.Reply(401, Http.Failure("Invalid credentials"));
  }

  /** The token the endpoint signs for the trimmed user id. */
  function TokenFor(env: map<string, string>, nowMs: int, sign: (AuthRoutes.Claims, string) -> string,
                    userId: string): string {
    sign(AuthRoutes.ClaimsAt(Str(Text.Trim(userId)), nowMs), AuthRoutes.ConfiguredSecret(env))
  }

  /**
   * A login the endpoint accepts leaves its token in the jar as the session
   * cookie, so that later requests pass the session gate; a refused one leaves
   * the jar as it was.
   */
  lemma SubmitOpensSession(env: map<string, string>, nowMs: int, sign: (AuthRoutes.Claims, string) -> string,
                           userId: string, password: string, jar: map<string, string>)
    requires var token := TokenFor(env, nowMs, sign, userId);
             token != "" && forall i :: 0 <= i < |token| ==> Http.IsCookieOctet(token[i])
    ensures var o := LoginServer(env, nowMs, sign, Credentials(userId, password));
            var after := JarAfter(jar, o);
            && (IsOk(o.status) ==> Http.HasSession(after) && after[Http.AuthCookie] == TokenFor(env, nowMs, sign, userId))
            && (!IsOk(o.status) ==> after == jar)
  {
    var body := Credentials(userId, password);
    var resp := AuthRoutes.LoginPost(env, Http.Parsed(Obj(body)), nowMs, sign);
    if resp.status == 200 {
      var token := TokenFor(env, nowMs, sign, userId);
      assert resp.setCookie == Some(AuthRoutes.LoginCookie(token, AuthRoutes.Production(env)));
      AuthRoutes.LoginStoresToken(jar, token, AuthRoutes.Production(env));
    } else {
      assert resp == Http.Reply(401, Http.Failure("Invalid credentials"));
    }
  }

  /** White space typed before or after either field, in any amount, does not change what is sent. */
  lemma PaddingIgnored(userId: string, password: string, a: string, b: string, c: string, d: string)
    requires forall i :: 0 <= i < |a| ==> Text.IsSpace(a[i])
    requires forall i :: 0 <= i < |b| ==> Text.IsSpace(b[i])
    requires forall i :: 0 <= i < |c| ==> Text.IsSpace(c[i])
    requires forall i :: 0 <= i < |d| ==> Text.IsSpace(d[i])
    ensures Credentials(a + userId + b, c + password + d) == Credentials(userId, password)
  {
    Text.TrimPadded(userId, a, b);
    Text.TrimPadded(password, c, d);
  }

  /**
   * The record a login stores keeps the dashboard open for one hour and no
   * longer, given that `JSON.parse` reads back what `JSON.stringify` wrote and
   * that the ISO time reads back as the login time.
   */
  lemma LoginRecordLastsAnHour(username: string, isoNow: string, loginMs: int, now: int,
                               stringify: Value -> string, parse: string -> Option<Value>,
                               dateOf: Value -> Option<int>)
    requires isoNow != ""
    requires stringify(LoginInfo(username, isoNow)) != ""
    requires parse(stringify(LoginInfo(username, isoNow))) == Some(LoginInfo(username, isoNow))
    requires dateOf(Str(isoNow)) == Some(loginMs)
    ensures Dashboard.MountDecision(Some(stringify(LoginInfo(username, isoNow))), now, parse, dateOf) ==
            (if now - loginMs > Dashboard.SessionLifetime then Dashboard.Expire else Dashboard.Stay)
  {
  }
}
