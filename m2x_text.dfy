/** The text the M2X client writes into a request: decimal numbers as
    Arduino's `Print::print(int)` renders them, the query string built by
    `WRITE_QUERY_PART`, and the header lines of `writeHttpHeader`. */
module M2XText {
  import opened Wrappers
  import opened PercentEncoding

  /** What `println` appends. */
  const CRLF: string := "\r\n"

  /** `kDefaultM2XPort` (declared in M2XStreamClient.h). */
  const DEFAULT_PORT: int := 80

  predicate IsDigit(c: char)
  {
    '0' <= c <= '9'
  }

  function DigitChar(d: nat): (c: char)
    requires d < 10
    ensures IsDigit(c)
  {
    (d + '0' as int) as char
  }

  /** The base-10 digits of `n`, most significant first, without leading zeros. */
  function Digits(n: nat): (s: string)
    ensures |s| >= 1 && forall i :: 0 <= i < |s| ==> IsDigit(s[i])
    ensures n > 0 ==> s[0] != '0'
  {
    if n < 10 then [DigitChar(n)] else Digits(n / 10) + [DigitChar(n % 10)]
  }

  /** `Print::print(int)`: a minus sign for negative numbers, then the digits. */
  function DecimalString(n: int): (s: string)
    ensures |s| >= 1
    ensures s[0] == '-' <==> n < 0
  {
    if n < 0 then "-" + Digits(-n) else Digits(n)
  }

  /** The value the response reader accumulates from the characters `s`,
      starting from `acc`: `acc = acc * 10 + (c - '0')` for each one, with
      no check that `c` is a digit. */
  function Accumulate(acc: int, s: string): int
    decreases |s|
  {
    if s == [] then acc else Accumulate(acc * 10 + (s[0] as int - '0' as int), s[1..])
  }

  lemma {:induction false} AccumulateAppend(acc: int, s: string, t: string)
    ensures Accumulate(acc, s + t) == Accumulate(Accumulate(acc, s), t)
    decreases |s|
  {
    if s == [] {
      assert s + t == t;
    } else {
      assert (s + t)[0] == s[0];
      assert (s + t)[1..] == s[1..] + t;
      AccumulateAppend(acc * 10 + (s[0] as int - '0' as int), s[1..], t);
    }
  }

  /** Reading back what `Digits` wrote gives the number. */
  lemma {:induction false} AccumulateDigits(n: nat)
    ensures Accumulate(0, Digits(n)) == n
  {
    if n >= 10 {
      AccumulateDigits(n / 10);
      AccumulateAppend(0, Digits(n / 10), [DigitChar(n % 10)]);
    }
  }

  /** One `WRITE_QUERY_PART`: nothing for a missing value, otherwise the
      separator (`?` for the first part, `&` after), `name=` and the value
      as given (it is not percent-encoded). */
  function QueryPart(started: bool, name: string, value: Option<string>): string
  {
    match value
    case None => ""
    case Some(v) => (if started then "&" else "?") + name + "=" + v
  }

  /** The text a run of `WRITE_QUERY_PART`s writes, threading the `started` flag. */
  function WriteParts(started: bool, parts: seq<(string, Option<string>)>): string
    decreases |parts|
  {
    if parts == [] then ""
    else QueryPart(started, parts[0].0, parts[0].1) + WriteParts(started || parts[0].1.Some?, parts[1..])
  }

  /** The `name=value` items of the parts that have a value, in order. */
  function PresentItems(parts: seq<(string, Option<string>)>): (items: seq<string>)
    ensures |items| <= |parts|
  {
    if parts == [] then []
    else match parts[0].1
      case None => PresentItems(parts[1..])
      case Some(v) => [parts[0].0 + "=" + v] + PresentItems(parts[1..])
  }

  function Join(sep: string, items: seq<string>): string
  {
    if items == [] then ""
    else if |items| == 1 then items[0]
    else items[0] + sep + Join(sep, items[1..])
  }

  /** The query string in the usual form: empty without items, otherwise
      `?` and the items separated by `&`. */
  function QueryString(parts: seq<(string, Option<string>)>): string
  {
    var items := PresentItems(parts);
    if items == [] then "" else "?" + Join("&", items)
  }

  /** Once a part has been written, every later item is written as `&item`. */
  function AmpersandEach(items: seq<string>): string
  {
    if items == [] then "" else "&" + items[0] + AmpersandEach(items[1..])
  }

  lemma {:induction false} WritePartsStarted(parts: seq<(string, Option<string>)>)
    ensures WriteParts(true, parts) == AmpersandEach(PresentItems(parts))
  {
    if parts != [] {
      WritePartsStarted(parts[1..]);
      match parts[0].1
      case None =>
      case Some(v) =>
        var items := PresentItems(parts);
        assert items[1..] == PresentItems(parts[1..]);
    }
  }

  lemma {:induction false} JoinAfterFirst(items: seq<string>)
    requires items != []
    ensures Join("&", items) == items[0] + AmpersandEach(items[1..])
  {
    if |items| > 1 {
      JoinAfterFirst(items[1..]);
      assert items[1..][1..] == items[2..];
    }
  }

  /** Writing the parts one macro at a time, starting with no part written,
      builds the query string: `?` before the first present part, `&`
      before each later one, absent parts skipped. */
  lemma {:induction false} WritePartsIsQueryString(parts: seq<(string, Option<string>)>)
    ensures WriteParts(false, parts) == QueryString(parts)
  {
    if parts != [] {
      match parts[0].1
      case None =>
        WritePartsIsQueryString(parts[1..]);
      case Some(v) =>
        WritePartsStarted(parts[1..]);
        var items := PresentItems(parts);
        var item := parts[0].0 + "=" + v;
        var more := AmpersandEach(PresentItems(parts[1..]));
        assert items == [item] + PresentItems(parts[1..]);
        assert items[0] == item && items[1..] == PresentItems(parts[1..]);
        JoinAfterFirst(items);
        assert QueryString(parts) == "?" + (item + more);
        assert QueryPart(false, parts[0].0, parts[0].1) == "?" + parts[0].0 + "=" + v;
        assert WriteParts(false, parts) == "?" + parts[0].0 + "=" + v + more;
    }
  }

  /** Three parts written in a row, as `fetchValues` writes them. */
  lemma QueryOfThree(a: (string, Option<string>), b: (string, Option<string>), c: (string, Option<string>))
    ensures QueryString([a, b, c]) ==
      QueryPart(false, a.0, a.1) + QueryPart(a.1.Some?, b.0, b.1) + QueryPart(a.1.Some? || b.1.Some?, c.0, c.1)
  {
    var parts := [a, b, c];
    WritePartsIsQueryString(parts);
    assert parts[1..] == [b, c] && parts[1..][1..] == [c] && parts[1..][1..][1..] == [];
    var s1 := a.1.Some?;
    var s2 := s1 || b.1.Some?;
    var p1, p2, p3 := QueryPart(false, a.0, a.1), QueryPart(s1, b.0, b.1), QueryPart(s2, c.0, c.1);
    assert WriteParts(s2, [c]) == p3 + "";
    assert WriteParts(s1, [b, c]) == p2 + (p3 + "");
    assert WriteParts(false, parts) == p1 + (p2 + (p3 + ""));
    assert p1 + (p2 + (p3 + "")) == p1 + p2 + p3;
  }

  /** The `Host:` line's port suffix: only a non-default port is written. */
  function PortSuffix(port: int): string
  {
    if port != DEFAULT_PORT then ":" + DecimalString(port) else ""
  }

  /** The two body headers, written only for a positive content length. */
  function BodyHeaders(contentLength: int): string
  {
    if contentLength > 0 then
      "Content-Type: application/json" + CRLF + "Content-Length: " + DecimalString(contentLength) + CRLF
    else ""
  }

  /** The header up to the encoded host name. */
  function HostPrefix(userAgent: string, key: string, host: string): string
    requires IsText(host)
  {
    userAgent + CRLF + "X-M2X-KEY: " + key + CRLF + "Host: " + Encode(host)
  }

  /** The user-agent, key and host lines. */
  function HeaderLines(userAgent: string, key: string, host: string, port: int): string
    requires IsText(host)
  {
    HostPrefix(userAgent, key, host) + PortSuffix(port) + CRLF
  }

  /** Everything `writeHttpHeader` writes. */
  function HttpHeader(userAgent: string, key: string, host: string, port: int, contentLength: int): string
    requires IsText(host)
  {
    HeaderLines(userAgent, key, host, port) + BodyHeaders(contentLength) + CRLF
  }

  /** The header always ends with an empty line. */
  lemma HeaderEndsWithBlankLine(userAgent: string, key: string, host: string, port: int, contentLength: int)
    requires IsText(host)
    ensures var h := HttpHeader(userAgent, key, host, port, contentLength);
      |h| >= 4 && h[|h| - 4..] == "\r\n\r\n"
  {
    var pre := HostPrefix(userAgent, key, host) + PortSuffix(port);
    var body := BodyHeaders(contentLength);
    var h := HttpHeader(userAgent, key, host, port, contentLength);
    var lines := HeaderLines(userAgent, key, host, port);
    if body == [] {
      assert h == pre + "\r\n\r\n";
    } else {
      var pre := "Content-Type: application/json" + CRLF + "Content-Length: " + DecimalString(contentLength);
      assert h == lines + pre + "\r\n\r\n";
    }
  }

  /** A request with a body differs from one without exactly by the two
      body headers, inserted before the final empty line; a non-positive
      length writes the same header as no body at all. */
  lemma HeaderWithBody(userAgent: string, key: string, host: string, port: int, contentLength: int)
    requires IsText(host)
    ensures var plain := HttpHeader(userAgent, key, host, port, 0);
      HttpHeader(userAgent, key, host, port, contentLength) ==
        plain[..|plain| - 2] + BodyHeaders(contentLength) + CRLF &&
      (contentLength <= 0 ==> HttpHeader(userAgent, key, host, port, contentLength) == plain)
  {
    var lines := HeaderLines(userAgent, key, host, port);
    var plain := HttpHeader(userAgent, key, host, port, 0);
    assert BodyHeaders(0) == [];
    assert lines + [] == lines;
    assert plain == lines + CRLF;
    assert plain[..|plain| - 2] == lines;
  }

  /** Only a non-default port shows up in the header, as `:port` right after
      the encoded host name. */
  lemma HeaderPort(userAgent: string, key: string, host: string, port: int, contentLength: int)
    requires IsText(host)
    ensures var h := HttpHeader(userAgent, key, host, DEFAULT_PORT, contentLength);
      var cut := |HostPrefix(userAgent, key, host)|;
      HttpHeader(userAgent, key, host, port, contentLength) ==
        h[..cut] + (if port == DEFAULT_PORT then "" else ":" + DecimalString(port)) + h[cut..]
  {
    var pre := HostPrefix(userAgent, key, host);
    var post := CRLF + BodyHeaders(contentLength) + CRLF;
    var h := HttpHeader(userAgent, key, host, DEFAULT_PORT, contentLength);
    HeaderSplit(userAgent, key, host, DEFAULT_PORT, contentLength);
    HeaderSplit(userAgent, key, host, port, contentLength);
    assert h[..|pre|] == pre;
    assert h[|pre|..] == post;
  }

  lemma HeaderSplit(userAgent: string, key: string, host: string, port: int, contentLength: int)
    requires IsText(host)
    ensures HttpHeader(userAgent, key, host, port, contentLength) ==
      HostPrefix(userAgent, key, host) + PortSuffix(port) + (CRLF + BodyHeaders(contentLength) + CRLF)
  {
  }
}
