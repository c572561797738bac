// The demo application's initial props: an API key taken from an
// "Authorization: Bearer <token>" request header (the Bearer scheme of
// section 2.1 of RFC 6750), added to the props of the base application.

module AuthProps {
  import opened Basics
  import opened JsValues

  /** `s.split(sep, 2)`: the first two pieces at most. */
  function SplitTwo(s: string, sep: char): (r: seq<string>)
    ensures 1 <= |r| <= 2 && |r| <= |Split(s, sep)|
    ensures r == Split(s, sep)[..|r|]
    ensures |r| == 2 <==> sep in s
  {
    var parts := Split(s, sep);
    CountPositive(s, sep);
    if |parts| >= 2 then parts[..2] else parts
  }

  lemma {:induction false} CountPositive(s: string, c: char)
    ensures Count(s, c) > 0 <==> c in s
  {
    if |s| > 0 {
      CountPositive(s[1..], c);
      assert c in s <==> s[0] == c || c in s[1..];
    }
  }

  function LowerAscii(c: char): char
  {
    if 'A' <= c <= 'Z' then (c as int - 'A' as int + 'a' as int) as char else c
  }

  /** `/^Bearer$/i.test(scheme)`: the scheme is "Bearer" up to the case of ASCII letters. */
  predicate IsBearer(scheme: string)
  {
    |scheme| == 6 && forall i :: 0 <= i < 6 ==> LowerAscii(scheme[i]) == "bearer"[i]
  }

  /**
   * The API key of `getInitialProps`: absent without a (non-empty) header;
   * otherwise the second space-separated piece, when there is one, it is not
   * empty and the first piece is the Bearer scheme.  Any further pieces are
   * dropped.
   */
  function ApiKey(authHeader: Option<string>): (r: Option<string>)
    ensures authHeader.None? || authHeader.value == "" ==> r.None?
    ensures r.Some? ==> r.value != "" && ' ' !in r.value
  {
    if authHeader.None? || authHeader.value == "" then None
    else
      var pieces := SplitTwo(authHeader.value, ' ');
      var scheme := pieces[0];
      if |pieces| < 2 || pieces[1] == "" || !IsBearer(scheme) then None
      else Some(pieces[1])
  }

  /** The first two pieces of "<scheme> <rest>": the scheme and what precedes the next space in the rest. */
  lemma SplitTwoOf(scheme: string, rest: string)
    requires ' ' !in scheme
    ensures SplitTwo(scheme + " " + rest, ' ') == [scheme, Split(rest, ' ')[0]]
  {
    var tail := [' '] + rest;
    assert scheme + " " + rest == scheme + tail;
    SplitPrefix(scheme, tail, ' ');
    assert tail[1..] == rest;
    assert Split(tail, ' ') == [""] + Split(rest, ' ');
    assert scheme + "" == scheme;
  }

  /** The text before the first space of `token + rest`, for a token without spaces followed by a space or nothing. */
  lemma FirstPiece(token: string, rest: string)
    requires ' ' !in token && (rest == "" || rest[0] == ' ')
    ensures Split(token + rest, ' ')[0] == token
  {
    SplitPrefix(token, rest, ' ');
    assert token + "" == token;
  }

  /**
   * A header "<scheme> <token>" with no further space gives the token exactly
   * when the scheme is Bearer in any letter case and the token is not empty.
   */
  lemma ApiKeyOfHeader(scheme: string, token: string)
    requires ' ' !in scheme && ' ' !in token
    ensures ApiKey(Some(scheme + " " + token)) == if IsBearer(scheme) && token != "" then Some(token) else None
  {
    SplitTwoOf(scheme, token);
    FirstPiece(token, "");
    assert token + "" == token;
  }

  /** Whatever follows the token after another space is ignored. */
  lemma ApiKeyIgnoresTrailingPieces(scheme: string, token: string, rest: string)
    requires ' ' !in scheme && ' ' !in token
    ensures ApiKey(Some(scheme + " " + token + " " + rest)) == ApiKey(Some(scheme + " " + token))
  {
    assert scheme + " " + token + " " + rest == scheme + " " + (token + (" " + rest));
    SplitTwoOf(scheme, token + (" " + rest));
    FirstPiece(token, " " + rest);
    ApiKeyOfHeader(scheme, token);
  }

  /** `{ ...props, [key]: value }`: an existing member keeps its place and takes the value, a new one goes last. */
  function Assign(props: seq<Member>, key: string, value: Json): (r: seq<Member>)
    ensures HasKey(r, key) && Get(r, key) == Some(value)
    ensures forall k :: k != key ==> Get(r, k) == Get(props, k)
    ensures forall k :: HasKey(r, k) <==> HasKey(props, k) || k == key
  {
    if props == [] then
      HasKeyCons(Member(key, value), []);
      assert [Member(key, value)] + [] == [Member(key, value)];
      [Member(key, value)]
    else if props[0].key == key then
      var r := [Member(key, value)] + props[1..];
      HasKeyCons(Member(key, value), props[1..]);
      HasKeyCons(props[0], props[1..]);
      assert props == [props[0]] + props[1..];
      r
    else
      var rest := Assign(props[1..], key, value);
      var r := [props[0]] + rest;
      HasKeyCons(props[0], rest);
      HasKeyCons(props[0], props[1..]);
      assert props == [props[0]] + props[1..];
      r
  }

  lemma HasKeyCons(m: Member, fields: seq<Member>)
    ensures forall k :: HasKey([m] + fields, k) <==> m.key == k || HasKey(fields, k)
    ensures forall k :: Get([m] + fields, k) == if m.key == k then Some(m.value) else Get(fields, k)
  {
    var s := [m] + fields;
    assert s[1..] == fields && s[0] == m;
    assert HasKey(s, m.key);
    forall k | HasKey(fields, k)
      ensures HasKey(s, k)
    {
      var i :| 0 <= i < |fields| && fields[i].key == k;
      assert s[i + 1] == fields[i];
    }
    forall k | HasKey(s, k) && m.key != k
      ensures HasKey(fields, k)
    {
      var i :| 0 <= i < |s| && s[i].key == k;
      assert fields[i - 1] == s[i];
    }
  }

  /**
   * `getInitialProps` as intended: the props the base application's
   * `getInitialProps` resolves to, with `apiKey` set, `undefined` when the
   * header gives no key.
   */
  function InitialProps(baseProps: seq<Member>, authHeader: Option<string>): (r: seq<Member>)
    ensures Field(JObj(r), "apiKey") == (if ApiKey(authHeader).Some? then JStr(ApiKey(authHeader).value) else JUndefined)
    ensures forall k :: k != "apiKey" ==> Get(r, k) == Get(baseProps, k)
  {
    Assign(baseProps, "apiKey", if ApiKey(authHeader).Some? then JStr(ApiKey(authHeader).value) else JUndefined)
  }

  /**
   * `getInitialProps` as written: the base application's `getInitialProps`
   * is not awaited, and spreading the Promise it returns contributes no
   * members, so the props are `apiKey` alone.
   */
  function InitialPropsAsWritten(authHeader: Option<string>): (r: seq<Member>)
    ensures forall k :: HasKey(r, k) <==> k == "apiKey"
  {
    InitialProps([], authHeader)
  }

  /** As written, every prop of the base application other than `apiKey` is lost. */
  lemma AsWrittenDropsBaseProps(baseProps: seq<Member>, authHeader: Option<string>, key: string)
    requires key != "apiKey" && HasKey(baseProps, key)
    ensures HasKey(InitialProps(baseProps, authHeader), key)
    ensures !HasKey(InitialPropsAsWritten(authHeader), key)
  {
    assert Get(InitialProps(baseProps, authHeader), key) == Get(baseProps, key);
  }

  /** An `apiKey` among the base props never survives: the header alone decides it. */
  lemma HeaderDecidesApiKey(baseProps: seq<Member>, other: seq<Member>, authHeader: Option<string>)
    ensures Field(JObj(InitialProps(baseProps, authHeader)), "apiKey") == Field(JObj(InitialProps(other, authHeader)), "apiKey")
  {
  }
}
