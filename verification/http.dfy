/** HTTP responses produced by the route handlers. A redirect location is kept
    as a same-origin path plus the query parameters in the order the handler
    writes them. The handlers build the `Location` text by interpolating the
    values into a template without percent-encoding (`LocationText`); what the
    landing page then reads back is `PageParam`, and `PageReadsWritten` says
    when the two agree. */
module Http {
  import opened Js
  import opened Strings

  datatype Url = Url(path: string, query: seq<(string, string)>)

  /** The JSON bodies the handlers send. */
  datatype JsonBody =
    | Message(message: string)
    | MessageWithError(message: string, error: string)
    | MessageWithDetails(message: string, details: map<string, string>)
      /** `{ GatewayPageURL, status: 'success' }` */
    | GatewayPage(gatewayPageUrl: string)

  datatype Response =
    | Redirect(status: nat, location: Url)
    | Json(status: nat, body: JsonBody)
      /** The framework's own error response for an exception the handler
         does not catch: status 500 and no JSON body. */
    | UncaughtError

  /** `new Response(null, { status: 303, headers: { Location } })` */
  const SeeOther: nat := 303
  /** The status `NextResponse.redirect` uses when none is given. */
  const TemporaryRedirect: nat := 307

  /** The request body as the handler reads it: `request.formData()` either
      yields the posted fields (a later duplicate key overwrites an earlier
      one, so a map) or rejects. */
  datatype FormBody = Form(fields: map<string, string>) | Unparseable(reason: string)

  /** The value the handler writes for `key`, if any: the first pair with
      that key. */
  function QueryValue(u: Url, key: string): Option<string>
  {
    QueryValueIn(u.query, key)
  }

  function QueryValueIn(q: seq<(string, string)>, key: string): Option<string>
  {
    if |q| == 0 then None
    else if q[0].0 == key then Some(q[0].1)
    else QueryValueIn(q[1..], key)
  }

  /** The value found for `key` is the one at its first occurrence. */
  lemma {:induction false} QueryValueAt(q: seq<(string, string)>, key: string, i: int)
    requires 0 <= i < |q| && q[i].0 == key
    requires forall j :: 0 <= j < i ==> q[j].0 != key
    ensures QueryValueIn(q, key) == Some(q[i].1)
    decreases i
  {
    if i > 0 {
      QueryValueAt(q[1..], key, i - 1);
    }
  }

  /** One `key=value` piece as the template writes it. */
  function Pair(kv: (string, string)): string
  {
    kv.0 + "=" + kv.1
  }

  function QueryText(q: seq<(string, string)>): string
    decreases |q|
  {
    if |q| == 0 then ""
    else if |q| == 1 then Pair(q[0])
    else Pair(q[0]) + "&" + QueryText(q[1..])
  }

  /** The `Location` text: the path, then `?` and the pieces joined by `&`,
      nothing encoded. */
  function LocationText(u: Url): string
  {
    if |u.query| == 0 then u.path else u.path + "?" + QueryText(u.query)
  }

  /** A piece's name runs up to its first `=`; the value is the rest. */
  function NameOf(piece: string): string
  {
    BeforeFirst(piece, '=')
  }

  function ValueOf(piece: string): string
  {
    var name := NameOf(piece);
    if |name| == |piece| then "" else piece[|name| + 1..]
  }

  /** The value of the first non-empty piece named `key`. */
  function ReadPieces(pieces: seq<string>, key: string): Option<string>
    decreases |pieces|
  {
    if |pieces| == 0 then None
    else if pieces[0] != "" && NameOf(pieces[0]) == key then Some(ValueOf(pieces[0]))
    else ReadPieces(pieces[1..], key)
  }

  /** What the landing page reads for `key` (`searchParams.get`) from the
      text as written: everything from the first `#` is dropped, the text
      after the first `?` is cut at every `&`, and the first piece with that
      name gives the value. The browser's URL parser and the `Location`
      header check change some text before the page sees it (a trailing
      space is trimmed; tabs and newlines are removed), and the page decodes
      `+` and `%XX`; none of that is modelled, so this is the page's reading
      only for the text `SafeQuery` admits. */
  function PageParam(u: Url, key: string): Option<string>
  {
    var text := BeforeFirst(LocationText(u), '#');
    var path := BeforeFirst(text, '?');
    if |path| == |text| then None else ReadPieces(Split(text[|path| + 1..], '&'), key)
  }

  /** Printable ASCII, U+0020 to U+007E. */
  predicate Printable(s: string)
  {
    forall c :: c in s ==> ' ' <= c <= '~'
  }

  /** A value the page reads back as written: printable ASCII (a space inside
      the query is encoded by the browser and decoded by the page), and none
      of the characters that split a query, end it, or are decoded. */
  predicate SafeValue(v: string)
  {
    Printable(v) && '&' !in v && '#' !in v && '+' !in v && '%' !in v
  }

  /** A space at the very end of the `Location` text is trimmed: by the
      header check of `new Response`, and by the URL parser behind
      `new URL`. */
  predicate NoTrailingSpace(v: string)
  {
    |v| == 0 || v[|v| - 1] != ' '
  }

  predicate SafeKey(k: string)
  {
    k != "" && SafeValue(k) && '=' !in k
  }

  predicate SafeQuery(q: seq<(string, string)>)
  {
    && (forall i :: 0 <= i < |q| ==> SafeKey(q[i].0) && SafeValue(q[i].1))
    && (|q| > 0 ==> NoTrailingSpace(q[|q| - 1].1))
  }

  predicate SafePath(p: string)
  {
    Printable(p) && '?' !in p && '#' !in p && NoTrailingSpace(p)
  }

  predicate HttpWhitespace(c: char)
  {
    c == '\t' || c == '\n' || c == '\r' || c == ' '
  }

  /** The header value with its trailing HTTP whitespace removed, as the
      Fetch `Headers` object normalises it. The `Location` value starts with
      the request's origin, so there is no leading whitespace to remove. */
  function TrimHttpEnd(s: string): (t: string)
    ensures |t| <= |s| && t == s[..|t|]
    ensures |t| == 0 || !HttpWhitespace(t[|t| - 1])
    decreases |s|
  {
    if |s| > 0 && HttpWhitespace(s[|s| - 1]) then TrimHttpEnd(s[..|s| - 1]) else s
  }

  /** The Fetch `Headers` check: a character above U+00FF does not convert
      to a byte string, and after normalisation no NUL, CR or LF may remain.
      Either failure throws a `TypeError`. */
  predicate HeaderValid(s: string)
  {
    && (forall c :: c in s ==> c <= '\U{FF}')
    && var t := TrimHttpEnd(s);
       '\0' !in t && '\r' !in t && '\n' !in t
  }

  /** `new Response(null, { status, headers: { Location } })` accepts the
      location's text; otherwise it throws. The origin in front is ASCII and
      does not change the outcome. */
  predicate Sendable(u: Url)
  {
    HeaderValid(LocationText(u))
  }

  /** Printable text passes the header check. */
  lemma PrintableIsHeaderValid(s: string)
    requires Printable(s)
    ensures HeaderValid(s)
  {
    var t := TrimHttpEnd(s);
    forall c | c in t
      ensures c in s
    {
      var i :| 0 <= i < |t| && t[i] == c;
      assert s[i] == c;
    }
  }

  lemma {:induction false} PrintableQueryText(q: seq<(string, string)>)
    requires forall i :: 0 <= i < |q| ==> Printable(q[i].0) && Printable(q[i].1)
    ensures Printable(QueryText(q))
    decreases |q|
  {
    if |q| > 1 {
      PrintableQueryText(q[1..]);
    }
  }

  /** A location with a safe path and safe parameters can be sent. */
  lemma SafeIsSendable(u: Url)
    requires SafePath(u.path) && SafeQuery(u.query)
    ensures Sendable(u)
  {
    PrintableQueryText(u.query);
    PrintableIsHeaderValid(LocationText(u));
  }

  /** Every character of a written value appears in the query text. */
  lemma {:induction false} ValueInQueryText(q: seq<(string, string)>, i: nat, c: char)
    requires i < |q| && c in q[i].1
    ensures c in QueryText(q)
    decreases |q|
  {
    if i > 0 {
      ValueInQueryText(q[1..], i - 1, c);
    }
  }

  /** A written value holding a character above U+00FF makes
      `new Response` throw, wherever it stands in the query. */
  lemma WideCharUnsendable(u: Url, i: nat, c: char)
    requires i < |u.query| && c in u.query[i].1 && c > '\U{FF}'
    ensures !Sendable(u)
  {
    ValueInQueryText(u.query, i, c);
    assert LocationText(u) == u.path + "?" + QueryText(u.query);
    assert c in LocationText(u);
  }

  /** When the path, keys and values hold no character the page treats
      specially, the page reads every parameter exactly as the handler wrote
      it. */
  lemma PageReadsWritten(u: Url, key: string)
    requires SafePath(u.path) && SafeQuery(u.query)
    ensures PageParam(u, key) == QueryValue(u, key)
  {
    var q := u.query;
    if |q| == 0 {
      BeforeFirstSpec(u.path, '#');
      BeforeFirstSpec(u.path, '?');
    } else {
      HashFree(q);
      BeforeFirstSpec(LocationText(u), '#');
      BeforeFirstOf(u.path, QueryText(q), '?');
      assert LocationText(u)[|u.path| + 1..] == QueryText(q);
      SplitQueryText(q);
      ReadPairs(q, key);
    }
  }

  lemma {:induction false} HashFree(q: seq<(string, string)>)
    requires SafeQuery(q)
    ensures '#' !in QueryText(q)
    decreases |q|
  {
    if |q| > 1 {
      HashFree(q[1..]);
    }
  }

  /** The pieces of the query text are the written pairs. */
  lemma {:induction false} SplitQueryText(q: seq<(string, string)>)
    requires |q| > 0 && SafeQuery(q)
    ensures Split(QueryText(q), '&') == seq(|q|, i requires 0 <= i < |q| => Pair(q[i]))
    decreases |q|
  {
    if |q| == 1 {
      SplitWhole(Pair(q[0]), '&');
    } else {
      SplitQueryText(q[1..]);
      assert Pair(q[0]) + "&" + QueryText(q[1..]) == Pair(q[0]) + ['&'] + QueryText(q[1..]);
      SplitAppend(Pair(q[0]), QueryText(q[1..]), '&');
    }
  }

  lemma {:induction false} ReadPairs(q: seq<(string, string)>, key: string)
    requires SafeQuery(q)
    ensures ReadPieces(seq(|q|, i requires 0 <= i < |q| => Pair(q[i])), key) == QueryValueIn(q, key)
    decreases |q|
  {
    if |q| > 0 {
      var pieces := seq(|q|, i requires 0 <= i < |q| => Pair(q[i]));
      var k := q[0].0;
      var v := q[0].1;
      assert Pair(q[0]) == k + ['='] + v;
      BeforeFirstOf(k, v, '=');
      assert (k + ['='] + v)[|k| + 1..] == v;
      assert pieces[1..] == seq(|q[1..]|, i requires 0 <= i < |q[1..]| => Pair(q[1..][i]));
      ReadPairs(q[1..], key);
    }
  }

  /** `PageReadsWritten` for a location with one parameter. */
  lemma PageReadsOne(path: string, k: string, v: string)
    requires SafePath(path) && SafeKey(k) && SafeValue(v) && NoTrailingSpace(v)
    ensures Sendable(Url(path, [(k, v)]))
    ensures PageParam(Url(path, [(k, v)]), k) == Some(v)
  {
    SafeIsSendable(Url(path, [(k, v)]));
    PageReadsWritten(Url(path, [(k, v)]), k);
  }

  /** `PageReadsWritten` for a location with two parameters. */
  lemma PageReadsTwo(path: string, k1: string, v1: string, k2: string, v2: string)
    requires SafePath(path) && SafeKey(k1) && SafeKey(k2) && k1 != k2
    requires SafeValue(v1) && SafeValue(v2) && NoTrailingSpace(v2)
    ensures Sendable(Url(path, [(k1, v1), (k2, v2)]))
    ensures PageParam(Url(path, [(k1, v1), (k2, v2)]), k1) == Some(v1)
    ensures PageParam(Url(path, [(k1, v1), (k2, v2)]), k2) == Some(v2)
  {
    var u := Url(path, [(k1, v1), (k2, v2)]);
    SafeIsSendable(u);
    PageReadsWritten(u, k1);
    PageReadsWritten(u, k2);
    QueryValueAt(u.query, k2, 1);
  }

  /** `PageReadsWritten` for a location with three parameters. */
  lemma PageReadsThree(path: string, k1: string, v1: string, k2: string, v2: string, k3: string, v3: string)
    requires SafePath(path) && SafeKey(k1) && SafeKey(k2) && SafeKey(k3)
    requires k1 != k2 && k1 != k3 && k2 != k3
    requires SafeValue(v1) && SafeValue(v2) && SafeValue(v3) && NoTrailingSpace(v3)
    ensures Sendable(Url(path, [(k1, v1), (k2, v2), (k3, v3)]))
    ensures PageParam(Url(path, [(k1, v1), (k2, v2), (k3, v3)]), k1) == Some(v1)
    ensures PageParam(Url(path, [(k1, v1), (k2, v2), (k3, v3)]), k2) == Some(v2)
    ensures PageParam(Url(path, [(k1, v1), (k2, v2), (k3, v3)]), k3) == Some(v3)
  {
    var u := Url(path, [(k1, v1), (k2, v2), (k3, v3)]);
    SafeIsSendable(u);
    PageReadsWritten(u, k1);
    PageReadsWritten(u, k2);
    PageReadsWritten(u, k3);
    QueryValueAt(u.query, k2, 1);
    QueryValueAt(u.query, k3, 2);
  }

  /** A written value `a&b=c` reaches the page as the value `a` and a
      separate parameter `b` with value `c`. */
  lemma AmpersandSplitsValue(path: string, k1: string, v1: string, k2: string, a: string, b: string, c: string)
    requires SafePath(path) && SafeKey(k1) && SafeKey(k2) && SafeKey(b)
    requires k1 != k2 && b != k1 && b != k2
    requires SafeValue(v1) && SafeValue(a) && SafeValue(c) && NoTrailingSpace(c)
    ensures Sendable(Url(path, [(k1, v1), (k2, a + "&" + b + "=" + c)]))
    ensures PageParam(Url(path, [(k1, v1), (k2, a + "&" + b + "=" + c)]), k2) == Some(a)
    ensures PageParam(Url(path, [(k1, v1), (k2, a + "&" + b + "=" + c)]), b) == Some(c)
  {
    var u := Url(path, [(k1, v1), (k2, a + "&" + b + "=" + c)]);
    var w := Url(path, [(k1, v1), (k2, a), (b, c)]);
    assert w.query[1..] == [(k2, a), (b, c)];
    assert w.query[1..][1..] == [(b, c)];
    assert QueryText(u.query) == Pair(u.query[0]) + "&" + QueryText(u.query[1..]);
    assert QueryText(w.query) == Pair(w.query[0]) + "&" + (Pair(w.query[1]) + "&" + QueryText(w.query[1..][1..]));
    assert Pair(u.query[1]) == Pair(w.query[1]) + "&" + Pair(w.query[2]);
    assert LocationText(u) == LocationText(w);
    SafeIsSendable(w);
    PageReadsWritten(w, k2);
    PageReadsWritten(w, b);
    QueryValueAt(w.query, k2, 1);
    QueryValueAt(w.query, b, 2);
  }
}
