/**
 * What the route handlers see and answer: requests with their cookies and
 * parsed JSON body, responses with a status, a payload and an optional
 * `Set-Cookie` header, and how a browser reads that header back (the parsing
 * algorithm of section 5.2 of RFC 6265 and the Max-Age rule of section 5.2.2).
 */
module Http {
  import opened Wrappers
  import opened Json
  import Text
  import Database

  datatype HttpMethod = GET | POST | PUT | DELETE

  /** The outcome of `await request.json()`: a value, or a body that is no JSON (which throws). */
  datatype RequestBody = Unparsable | Parsed(v: Value)

  datatype Request = Request(cookies: map<string, string>, body: RequestBody)

  /** The JSON a handler answers with. */
  datatype Payload =
    | Documents(docs: seq<Database.Doc>)   // a `findAll` result
    | Document(doc: Database.Doc)          // one created or updated document
    | Succeeded                            // `{ success: true }`
    | Failure(error: string)               // `{ error: ... }`
    | Unhandled                            // the framework's own page for an uncaught exception

  datatype Response = Response(status: nat, payload: Payload, setCookie: Option<string>)

  const AuthCookie := "dashboard_auth"

  /**
   * The gate every protected handler applies: `request.cookies.get(AUTH_COOKIE)?.value`
   * must be truthy, so a missing cookie and an empty one are both refused. The
   * value itself is never checked.
   */
  predicate HasSession(cookies: map<string, string>) {
    AuthCookie in cookies && cookies[AuthCookie] != ""
  }

  function Reply(status: nat, payload: Payload): (r: Response)
    ensures r.setCookie.None?
  {
    Response(status, payload, None)
  }

  const Unauthorized: Response := Reply(401, Failure("Unauthorized"))

  /** A caught exception: status 500 with the handler's own message. */
  function ServerFailure(message: string): (r: Response)
    ensures r.status == 500 && r.payload == Failure(message) && r.setCookie.None?
  {
    Reply(500, Failure(message))
  }

  /** An uncaught exception: status 500 from the framework. */
  const Crashed: Response := Reply(500, Unhandled)

  /** A successful `NextResponse.json(...)`. */
  function Ok200(payload: Payload): (r: Response)
    ensures r.status == 200 && r.payload == payload && r.setCookie.None?
  {
    Reply(200, payload)
  }

  // ---------------------------------------------------------------- Set-Cookie parsing

  /** The position of the first `c` in `s`, or `|s|`. */
  function IndexOf(s: string, c: char): (i: nat)
    ensures i <= |s|
    ensures forall j :: 0 <= j < i ==> s[j] != c
    ensures i < |s| ==> s[i] == c
  {
    if s == [] || s[0] == c then 0 else 1 + IndexOf(s[1..], c)
  }

  /** `s` cut at every `sep`; joining the parts with `sep` gives `s` back. */
  function Split(s: string, sep: char): (parts: seq<string>)
    ensures |parts| >= 1
    decreases |s|
  {
    var i := IndexOf(s, sep);
    if i == |s| then [s] else [s[..i]] + Split(s[i + 1..], sep)
  }

  lemma SplitNone(s: string, sep: char)
    requires sep !in s
    ensures Split(s, sep) == [s]
  {
  }

  lemma SplitFirst(a: string, sep: char, b: string)
    requires sep !in a
    ensures Split(a + [sep] + b, sep) == [a] + Split(b, sep)
  {
    var s := a + [sep] + b;
    assert s[|a|] == sep;
    assert forall j :: 0 <= j < |a| ==> s[j] == a[j];
    assert IndexOf(s, sep) == |a|;
    assert s[..|a|] == a;
    assert s[|a| + 1..] == b;
  }

  predicate IsWsp(c: char) {
    c == ' ' || c == '\t'
  }

  /** `s` without leading and trailing spaces and tabs. */
  function StripWsp(s: string): (r: string)
    ensures |r| <= |s|
    ensures r == [] || (!IsWsp(r[0]) && !IsWsp(r[|r| - 1]))
    decreases |s|
  {
    if s != [] && IsWsp(s[0]) then StripWsp(s[1..])
    else if s != [] && IsWsp(s[|s| - 1]) then StripWsp(s[..|s| - 1])
    else s
  }

  datatype CookieAttribute = CookieAttribute(name: string, value: string)

  datatype SetCookie = SetCookie(name: string, value: string, attributes: seq<CookieAttribute>)

  /** One cookie-av: the name up to the first `=`, the value after it, both stripped. */
  function ParseAttribute(av: string): CookieAttribute {
    var eq := IndexOf(av, '=');
    if eq == |av| then CookieAttribute(StripWsp(av), "")
    else CookieAttribute(StripWsp(av[..eq]), StripWsp(av[eq + 1..]))
  }

  function ParseAttributes(avs: seq<string>): (r: seq<CookieAttribute>)
    ensures |r| == |avs|
    ensures forall i :: 0 <= i < |avs| ==> r[i] == ParseAttribute(avs[i])
  {
    if avs == [] then [] else [ParseAttribute(avs[0])] + ParseAttributes(avs[1..])
  }

  /**
   * A `Set-Cookie` header as a browser reads it: the part before the first `;`
   * must hold a `=` and a non-empty name, or the header is ignored.
   */
  function ParseSetCookie(header: string): (r: Option<SetCookie>)
    ensures r.Some? ==> r.value.name != []
  {
    var parts := Split(header, ';');
    var pair := parts[0];
    var eq := IndexOf(pair, '=');
    if eq == |pair| then None
    else
      var name := StripWsp(pair[..eq]);
      if name == [] then None
      else Some(SetCookie(name, StripWsp(pair[eq + 1..]), ParseAttributes(parts[1..])))
  }

  function LowerAscii(s: string): (r: string)
    ensures |r| == |s|
  {
    if s == [] then []
    else [if 'A' <= s[0] <= 'Z' then (s[0] as int + 32) as char else s[0]] + LowerAscii(s[1..])
  }

  /**
   * The delta-seconds of a Max-Age attribute: a digit or `-` first and digits
   * after it; any other value makes the browser ignore the attribute.
   */
  function ParseMaxAge(v: string): (r: Option<int>)
    ensures r.Some? ==> v != []
  {
    if v == [] then None
    else if v[0] == '-' then
      if |v| >= 2 && (forall i :: 1 <= i < |v| ==> Text.DigitValue(v[i]) < 10)
      then Some(-(Text.DigitsValue(v[1..], 10) as int)) else None
    else if forall i :: 0 <= i < |v| ==> Text.DigitValue(v[i]) < 10
    then Some(Text.DigitsValue(v, 10)) else None
  }

  /** The Max-Age that takes effect: that of the last well-formed Max-Age attribute. */
  function EffectiveMaxAge(attrs: seq<CookieAttribute>): Option<int> {
    if attrs == [] then None
    else
      var last := attrs[|attrs| - 1];
      if LowerAscii(last.name) == "max-age" && ParseMaxAge(last.value).Some?
      then ParseMaxAge(last.value)
      else EffectiveMaxAge(attrs[..|attrs| - 1])
  }

  /**
   * The browser's cookie jar after a response: a cookie whose Max-Age is zero or
   * less is removed, any other replaces the stored value, and a missing or
   * ignored header leaves the jar alone.
   */
  function ApplySetCookie(jar: map<string, string>, header: Option<string>): (r: map<string, string>)
    ensures header.None? || ParseSetCookie(header.value).None? ==> r == jar
    ensures header.Some? && ParseSetCookie(header.value).Some? ==>
              var c := ParseSetCookie(header.value).value;
              var age := EffectiveMaxAge(c.attributes);
              && (forall n :: n != c.name ==> (n in r <==> n in jar) && (n in jar ==> r[n] == jar[n]))
              && (c.name in r <==> !(age.Some? && age.value <= 0))
              && (c.name in r ==> r[c.name] == c.value)
  {
    if header.None? then jar
    else match ParseSetCookie(header.value)
      case None => jar
      case Some(c) =>
        var age := EffectiveMaxAge(c.attributes);
        if age.Some? && age.value <= 0 then jar - {c.name} else jar[c.name := c.value]
  }

  // ---------------------------------------------------------------- writing Set-Cookie

  /** `; name` or `; name=value`, the way a server appends an attribute. */
  function AttributeText(a: CookieAttribute): string {
    "; " + a.name + (if a.value == "" then "" else "=" + a.value)
  }

  function AttributesText(attrs: seq<CookieAttribute>): string {
    if attrs == [] then "" else AttributeText(attrs[0]) + AttributesText(attrs[1..])
  }

  /** The piece of an attribute between two `;`. */
  function AttributeChunk(a: CookieAttribute): string {
    " " + a.name + (if a.value == "" then "" else "=" + a.value)
  }

  function AttributeChunks(attrs: seq<CookieAttribute>): (r: seq<string>)
    ensures |r| == |attrs|
    ensures forall i :: 0 <= i < |attrs| ==> r[i] == AttributeChunk(attrs[i])
  {
    if attrs == [] then [] else [AttributeChunk(attrs[0])] + AttributeChunks(attrs[1..])
  }

  predicate Unpadded(s: string) {
    s == [] || (!IsWsp(s[0]) && !IsWsp(s[|s| - 1]))
  }

  /** An attribute a browser reads back as written. */
  predicate WellFormedAttribute(a: CookieAttribute) {
    && a.name != [] && Unpadded(a.name) && Unpadded(a.value)
    && ';' !in a.name && '=' !in a.name && ';' !in a.value
  }

  lemma StripUnpadded(s: string)
    requires Unpadded(s)
    ensures StripWsp(s) == s
  {
  }

  lemma StripSpace(s: string)
    ensures StripWsp(" " + s) == StripWsp(s)
  {
    assert (" " + s)[1..] == s;
  }

  lemma IndexOfAfter(a: string, c: char, b: string)
    requires c !in a
    ensures IndexOf(a + [c] + b, c) == |a|
  {
    var s := a + [c] + b;
    assert s[|a|] == c;
    assert forall j :: 0 <= j < |a| ==> s[j] == a[j];
  }

  lemma ParseChunk(a: CookieAttribute)
    requires WellFormedAttribute(a)
    ensures ParseAttribute(AttributeChunk(a)) == a
  {
    var chunk := AttributeChunk(a);
    var name := " " + a.name;
    if a.value == "" {
      assert chunk == name;
      assert '=' !in chunk;
      StripSpace(a.name);
      StripUnpadded(a.name);
    } else {
      assert chunk == name + ['='] + a.value;
      IndexOfAfter(name, '=', a.value);
      assert chunk[..|name|] == name;
      assert chunk[|name| + 1..] == a.value;
      StripSpace(a.name);
      StripUnpadded(a.name);
      StripUnpadded(a.value);
    }
  }

  lemma {:induction false} ParseChunks(attrs: seq<CookieAttribute>)
    requires forall i :: 0 <= i < |attrs| ==> WellFormedAttribute(attrs[i])
    ensures ParseAttributes(AttributeChunks(attrs)) == attrs
  {
    if attrs != [] {
      ParseChunk(attrs[0]);
      ParseChunks(attrs[1..]);
      assert AttributeChunks(attrs)[1..] == AttributeChunks(attrs[1..]);
    }
  }

  /** Writing two attribute lists one after the other writes their concatenation. */
  lemma {:induction false} AttributesTextAppend(xs: seq<CookieAttribute>, ys: seq<CookieAttribute>)
    ensures AttributesText(xs + ys) == AttributesText(xs) + AttributesText(ys)
    decreases |xs|
  {
    if xs == [] {
      assert xs + ys == ys;
    } else {
      assert (xs + ys)[1..] == xs[1..] + ys;
      AttributesTextAppend(xs[1..], ys);
    }
  }

  lemma ChunkText(a: CookieAttribute)
    requires WellFormedAttribute(a)
    ensures AttributeText(a) == [';'] + AttributeChunk(a)
    ensures ';' !in AttributeChunk(a)
  {
  }

  lemma {:induction false} SplitAttributes(first: string, attrs: seq<CookieAttribute>)
    requires ';' !in first
    requires forall i :: 0 <= i < |attrs| ==> WellFormedAttribute(attrs[i])
    ensures Split(first + AttributesText(attrs), ';') == [first] + AttributeChunks(attrs)
    decreases |attrs|
  {
    if attrs == [] {
      assert first + AttributesText(attrs) == first;
      SplitNone(first, ';');
    } else {
      var chunk := AttributeChunk(attrs[0]);
      var tail := AttributesText(attrs[1..]);
      ChunkText(attrs[0]);
      calc {
        first + AttributesText(attrs);
        first + (AttributeText(attrs[0]) + tail);
        first + [';'] + (chunk + tail);
      }
      SplitFirst(first, ';', chunk + tail);
      SplitAttributes(chunk, attrs[1..]);
      assert AttributeChunks(attrs) == [chunk] + AttributeChunks(attrs[1..]);
    }
  }

  /** A header written as `name=value` and attributes is read back into exactly those parts. */
  lemma SetCookieRoundTrip(name: string, value: string, attrs: seq<CookieAttribute>)
    requires name != [] && Unpadded(name) && Unpadded(value)
    requires ';' !in name && '=' !in name && ';' !in value
    requires forall i :: 0 <= i < |attrs| ==> WellFormedAttribute(attrs[i])
    ensures ParseSetCookie(name + "=" + value + AttributesText(attrs)) == Some(SetCookie(name, value, attrs))
  {
    var pair := name + "=" + value;
    assert ';' !in pair;
    SplitAttributes(pair, attrs);
    ParseChunks(attrs);
    ParsePair(name, value);
  }

  lemma ParsePair(name: string, value: string)
    requires Unpadded(name) && Unpadded(value) && '=' !in name
    ensures var pair := name + "=" + value;
            && IndexOf(pair, '=') == |name|
            && StripWsp(pair[..|name|]) == name
            && StripWsp(pair[|name| + 1..]) == value
  {
    var pair := name + "=" + value;
    IndexOfAfter(name, '=', value);
    assert pair == name + ['='] + value;
    assert pair[..|name|] == name;
    assert pair[|name| + 1..] == value;
    StripUnpadded(name);
    StripUnpadded(value);
  }

  /** RFC 6265 cookie-octet (section 4.1.1): the characters a cookie value may hold unquoted. */
  predicate IsCookieOctet(c: char) {
    c == '!' || ('#' <= c <= '+') || ('-' <= c <= ':') || ('<' <= c <= '[') || (']' <= c <= '~')
  }
}
