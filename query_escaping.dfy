/** Escaping of the username embedded in the stats query. The username sits inside a
    GraphQL string literal, and the whole GraphQL document sits inside the JSON string
    that forms the request body, so the server undoes two layers of backslash escapes. */
module QueryEscaping {
  import opened Wrappers

  /** Neither a quote nor a backslash: no escaping step here changes such text. */
  predicate Plain(s: string) {
    '"' !in s && '\\' !in s
  }

  /** The escaping `fetchStats` applies: each `"` becomes `\"`, all else is copied. */
  function EscapeQuotes(u: string): (r: string)
    ensures forall k :: 0 <= k < |r| && r[k] == '"' ==> 0 < k && r[k - 1] == '\\'
    ensures Plain(u) ==> r == u
  {
    if u == [] then []
    else (if u[0] == '"' then "\\\"" else [u[0]]) + EscapeQuotes(u[1..])
  }

  /** Removes the backslash in front of each quote. */
  function UnescapeQuotes(s: string): string {
    if s == [] then []
    else if |s| >= 2 && s[0] == '\\' && s[1] == '"' then ['"'] + UnescapeQuotes(s[2..])
    else [s[0]] + UnescapeQuotes(s[1..])
  }

  /** `EscapeQuotes` loses nothing: the username is recovered by dropping the
      backslash put before each quote. */
  lemma {:induction false} EscapeQuotesRoundTrip(u: string)
    ensures UnescapeQuotes(EscapeQuotes(u)) == u
  {
    if u != [] {
      EscapeQuotesRoundTrip(u[1..]);
      var tail := EscapeQuotes(u[1..]);
      if u[0] == '"' {
        assert EscapeQuotes(u) == "\\\"" + tail;
        assert ("\\\"" + tail)[2..] == tail;
      } else {
        assert EscapeQuotes(u) == [u[0]] + tail;
        assert ([u[0]] + tail)[1..] == tail;
        assert tail != [] ==> tail[0] != '"';
      }
    }
  }

  /** Backslash escaping of one character inside a JSON or GraphQL string literal. */
  function EscapeChar(c: char): string {
    if c == '"' || c == '\\' then ['\\', c] else [c]
  }

  /** Backslash escaping of `\` and `"` for one string-literal layer. */
  function Escape(x: string): (r: string)
    ensures |r| >= |x|
  {
    if x == [] then [] else EscapeChar(x[0]) + Escape(x[1..])
  }

  /** Text without quotes or backslashes is its own escaping. */
  lemma {:induction false} EscapePlain(x: string)
    requires Plain(x)
    ensures Escape(x) == x
  {
    if x != [] {
      assert x == [x[0]] + x[1..];
      assert Plain(x[1..]);
      EscapePlain(x[1..]);
    }
  }

  lemma {:induction false} EscapeConcat(a: string, b: string)
    ensures Escape(a + b) == Escape(a) + Escape(b)
  {
    if a == [] {
      assert a + b == b;
    } else {
      assert (a + b)[0] == a[0] && (a + b)[1..] == a[1..] + b;
      EscapeConcat(a[1..], b);
    }
  }

  /** The escape sequences both JSON and GraphQL give a meaning to (`\u` is not read). */
  function UnescapeChar(c: char): Option<char> {
    match c
    case '"' => Some('"')
    case '\\' => Some('\\')
    case '/' => Some('/')
    case 'b' => Some('\U{8}')
    case 'f' => Some('\U{C}')
    case 'n' => Some('\n')
    case 'r' => Some('\r')
    case 't' => Some('\t')
    case _ => None
  }

  function Prefixed(a: string, o: Option<(string, string)>): Option<(string, string)> {
    match o
    case None => None
    case Some(p) => Some((a + p.0, p.1))
  }

  /** Reads the inside of a quoted string literal up to its closing quote, giving the
      decoded value and the text after the quote; None when there is no closing quote
      or an escape is not understood. */
  function ReadQuoted(s: string): Option<(string, string)>
    decreases |s|
  {
    if s == [] then None
    else if s[0] == '"' then Some(([], s[1..]))
    else if s[0] == '\\' then
      if |s| < 2 then None
      else match UnescapeChar(s[1])
        case None => None
        case Some(c) => Prefixed([c], ReadQuoted(s[2..]))
    else Prefixed([s[0]], ReadQuoted(s[1..]))
  }

  /** Reading undoes escaping: whatever follows the escaped text is read on unchanged. */
  lemma {:induction false} ReadEscaped(x: string, s: string)
    ensures ReadQuoted(Escape(x) + s) == Prefixed(x, ReadQuoted(s))
  {
    if x == [] {
      assert Escape(x) + s == s;
      match ReadQuoted(s)
      case None =>
      case Some(p) => assert x + p.0 == p.0;
    } else {
      var c := x[0];
      ReadEscaped(x[1..], s);
      var rest := Escape(x[1..]) + s;
      assert Escape(x) + s == EscapeChar(c) + rest;
      if c == '"' || c == '\\' {
        assert (EscapeChar(c) + rest)[2..] == rest;
      } else {
        assert (EscapeChar(c) + rest)[1..] == rest;
      }
      match ReadQuoted(s)
      case None =>
      case Some(p) => assert [c] + (x[1..] + p.0) == x + p.0;
    }
  }

  /** Plain text is read as itself. */
  lemma {:induction false} ReadPlain(a: string, s: string)
    requires Plain(a)
    ensures ReadQuoted(a + s) == Prefixed(a, ReadQuoted(s))
  {
    EscapePlain(a);
    ReadEscaped(a, s);
  }

  /** The closing quote ends the literal. */
  lemma ReadClosing(s: string)
    ensures ReadQuoted("\"" + s) == Some(([], s))
  {
    assert ("\"" + s)[1..] == s;
  }

  /** What the server makes of a request body `jsonOpen + <JSON string> + "}"` whose
      decoded text starts with `argOpen`: the GraphQL string literal that follows
      `argOpen`, decoded in turn, paired with the rest of the document after its
      closing quote. */
  function ArgumentAfter(body: string, jsonOpen: string, argOpen: string): Option<(string, string)> {
    if |body| < |jsonOpen| || body[..|jsonOpen|] != jsonOpen then None
    else match ReadQuoted(body[|jsonOpen|..])
      case None => None
      case Some(document) =>
        if document.1 != "}" || |document.0| < |argOpen| || document.0[..|argOpen|] != argOpen then None
        else ReadQuoted(document.0[|argOpen|..])
  }

  /** Escaping a document `a"m"b` whose fixed parts are plain escapes only the quotes around `m`, and `m`. */
  lemma {:induction false} EscapeDocument(a: string, b: string, m: string)
    requires Plain(a) && Plain(b)
    ensures Escape(a + "\"" + m + "\"" + b) == a + "\\\"" + Escape(m) + "\\\"" + b
  {
    var q := "\"";
    assert Escape(q) == "\\\"";
    EscapePlain(a);
    EscapePlain(b);
    EscapeConcat(a + q + m + q, b);
    EscapeConcat(a + q + m, q);
    EscapeConcat(a + q, m);
    EscapeConcat(a, q);
  }

  /** The JSON layer: the request's string decodes to the document `a"m"b`. */
  lemma {:induction false} OuterRead(a: string, b: string, m: string)
    requires Plain(a) && Plain(b)
    ensures ReadQuoted(a + "\\\"" + Escape(m) + "\\\"" + b + "\"}") == Some((a + "\"" + m + "\"" + b, "}"))
  {
    var document := a + "\"" + m + "\"" + b;
    EscapeDocument(a, b, m);
    ReadEscaped(document, "\"}");
    ReadClosing("}");
    assert document + [] == document;
  }

  /** A literal written between two escaped quotes inside a JSON string is read in two
      steps: the JSON layer removes one level of escaping, then the GraphQL literal is
      read from what is left. */
  lemma {:induction false} NestedArgument(jsonOpen: string, a: string, b: string, m: string)
    requires Plain(a) && Plain(b)
    ensures ArgumentAfter(jsonOpen + a + "\\\"" + Escape(m) + "\\\"" + b + "\"}", jsonOpen, a + "\"")
      == ReadQuoted(m + "\"" + b)
  {
    var q := "\"";
    var inside := a + "\\\"" + Escape(m) + "\\\"" + b + "\"}";
    var body := jsonOpen + a + "\\\"" + Escape(m) + "\\\"" + b + "\"}";
    assert body == jsonOpen + inside;
    assert body[..|jsonOpen|] == jsonOpen && body[|jsonOpen|..] == inside;
    OuterRead(a, b, m);
    var document := a + q + m + q + b;
    assert document == (a + q) + (m + q + b);
    assert document[..|a + q|] == a + q && document[|a + q|..] == m + q + b;
  }
}
