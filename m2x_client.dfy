/** The M2X client's request writing and response reading, as the loops
    of M2XStreamClient.cpp run them over a connection object. */
module M2XClient {
  import opened Wrappers
  import opened PercentEncoding
  import opened M2XText
  import opened M2XReply
  import Words

  /** The Arduino `Client` the M2X client talks through: the bytes it has
      received and not read yet, whether the server still holds the
      connection, and everything written to it so far.  All bytes the
      server will ever send are in `incoming` from the start. */
  class Client {
    var incoming: string
    var connected: bool
    var outgoing: string

    constructor (incoming: string, connected: bool)
      ensures this.incoming == incoming && this.connected == connected && outgoing == []
    {
      this.incoming := incoming;
      this.connected := connected;
      outgoing := [];
    }

    /** `print`; every byte is written, so it returns `|s|`. */
    method Print(s: string) returns (n: int)
      modifies this
      ensures outgoing == old(outgoing) + s && n == |s|
      ensures incoming == old(incoming) && connected == old(connected)
    {
      outgoing := outgoing + s;
      n := |s|;
    }

    /** `read`, called only when `available()` holds. */
    method Read() returns (c: char)
      requires incoming != []
      modifies this
      ensures c == old(incoming)[0] && incoming == old(incoming)[1..]
      ensures outgoing == old(outgoing) && connected == old(connected)
    {
      c := incoming[0];
      incoming := incoming[1..];
    }

    /** `flush` then `stop`: unread input is dropped and the connection closed. */
    method Close()
      modifies this
      ensures incoming == [] && !connected && outgoing == old(outgoing)
    {
      incoming := [];
      connected := false;
    }
  }

  /** `print_encoded_string`: prints `str` percent-encoded, one byte at a
      time, and returns the number of bytes printed. */
  method PrintEncodedString(sink: Client, str: string) returns (bytes: int)
    requires IsText(str)
    modifies sink
    ensures sink.outgoing == old(sink.outgoing) + Encode(str)
    ensures bytes == |Encode(str)| == |str| + 2 * EscapedCount(str)
    ensures sink.incoming == old(sink.incoming) && sink.connected == old(sink.connected)
  {
    bytes := 0;
    for i := 0 to |str|
      invariant sink.outgoing == old(sink.outgoing) + Encode(str[..i])
      invariant bytes == |sink.outgoing| - |old(sink.outgoing)|
      invariant sink.incoming == old(sink.incoming) && sink.connected == old(sink.connected)
    {
      EncodePrefixStep(str, i);
      var n := PrintEncodedByte(sink, str[i]);
      bytes := bytes + n;
      Associate(old(sink.outgoing), Encode(str[..i]), EncodeByte(str[i]));
    }
    assert str[..|str|] == str;
  }

  /** The body of `print_encoded_string`'s loop: an unreserved byte as
      itself, any other as `%` and two upper-case hex digits. */
  method PrintEncodedByte(sink: Client, c: char) returns (n: int)
    requires IsTextByte(c)
    modifies sink
    ensures sink.outgoing == old(sink.outgoing) + EncodeByte(c) && n == |EncodeByte(c)|
    ensures sink.incoming == old(sink.incoming) && sink.connected == old(sink.connected)
  {
    if IsUnreserved(c) {
      n := sink.Print([c]);
    } else {
      var m: int;
      n := sink.Print(['%']);
      m := sink.Print([HexDigit(c as int / 16)]);
      n := n + m;
      m := sink.Print([HexDigit(c as int % 16)]);
      n := n + m;
      assert sink.outgoing == old(sink.outgoing) + EncodeByte(c);
    }
  }

  lemma EncodePrefixStep(str: string, i: nat)
    requires IsText(str) && i < |str|
    ensures IsText(str[..i]) && IsText(str[..i + 1])
    ensures Encode(str[..i + 1]) == Encode(str[..i]) + EncodeByte(str[i])
  {
    assert str[..i + 1] == str[..i] + [str[i]];
    EncodeAppend(str[..i], [str[i]]);
    assert Encode([str[i]]) == EncodeByte(str[i]) + Encode([]);
  }

  /** `WRITE_QUERY_PART`: writes the part and returns the new `started` flag. */
  method WriteQueryPart(client: Client, started: bool, name: string, value: Option<string>)
    returns (started': bool)
    modifies client
    ensures client.outgoing == old(client.outgoing) + QueryPart(started, name, value)
    ensures started' == (started || value.Some?)
    ensures client.incoming == old(client.incoming) && client.connected == old(client.connected)
  {
    started' := started;
    if value.Some? {
      var n: int;
      if started {
        n := client.Print("&");
      } else {
        n := client.Print("?");
        started' := true;
      }
      n := client.Print(name + "=");
      n := client.Print(value.value);
    }
  }

  class M2XStreamClient {
    const client: Client
    const key: string
    const caseInsensitive: bool
    const host: string
    const port: int
    /** `USER_AGENT` (defined in M2XStreamClient.h). */
    const userAgent: string

    constructor (client: Client, key: string, caseInsensitive: bool, host: string, port: int, userAgent: string)
      requires IsText(host)
      ensures this.client == client && this.key == key && this.caseInsensitive == caseInsensitive
      ensures this.host == host && this.port == port && this.userAgent == userAgent
    {
      this.client := client;
      this.key := key;
      this.caseInsensitive := caseInsensitive;
      this.host := host;
      this.port := port;
      this.userAgent := userAgent;
    }

    /** The query of `fetchValues`: the start, end and limit parts in that order. */
    method WriteFetchQuery(startTime: Option<string>, endTime: Option<string>, limit: Option<string>)
      modifies client
      ensures client.outgoing == old(client.outgoing) +
        QueryString([("start", startTime), ("end", endTime), ("limit", limit)])
      ensures client.incoming == old(client.incoming) && client.connected == old(client.connected)
    {
      ghost var start := client.outgoing;
      var started := false;
      started := WriteQueryPart(client, started, "start", startTime);
      ghost var w := QueryPart(false, "start", startTime);
      started := WriteQueryPart(client, started, "end", endTime);
      w := Written(start, w, QueryPart(startTime.Some?, "end", endTime));
      started := WriteQueryPart(client, started, "limit", limit);
      w := Written(start, w, QueryPart(startTime.Some? || endTime.Some?, "limit", limit));
      QueryOfThree(("start", startTime), ("end", endTime), ("limit", limit));
    }

    /** `writeHttpHeader`. */
    method WriteHttpHeader(contentLength: int)
      requires IsText(host)
      modifies client
      ensures client.outgoing == old(client.outgoing) + HttpHeader(userAgent, key, host, port, contentLength)
      ensures client.incoming == old(client.incoming) && client.connected == old(client.connected)
    {
      ghost var start := client.outgoing;
      var n: int;
      n := client.Print(userAgent);
      ghost var w := userAgent;
      assert client.outgoing == start + w;
      n := client.Print(CRLF);
      w := Written(start, w, CRLF);
      assert client.outgoing == start + w;
      n := client.Print("X-M2X-KEY: ");
      w := Written(start, w, "X-M2X-KEY: ");
      assert client.outgoing == start + w;
      n := client.Print(key);
      w := Written(start, w, key);
      assert client.outgoing == start + w;
      n := client.Print(CRLF);
      w := Written(start, w, CRLF);
      assert client.outgoing == start + w;
      n := client.Print("Host: ");
      w := Written(start, w, "Host: ");
      assert client.outgoing == start + w;
      n := PrintEncodedString(client, host);
      w := Written(start, w, Encode(host));
      assert client.outgoing == start + w;
      assert w == HostPrefix(userAgent, key, host);
      if port != DEFAULT_PORT {
        n := client.Print(":");
        n := client.Print(DecimalString(port));
        Associate(start + w, ":", DecimalString(port));
      }
      w := Written(start, w, PortSuffix(port));
      assert client.outgoing == start + w;
      n := client.Print(CRLF);
      w := Written(start, w, CRLF);
      assert client.outgoing == start + w;
      assert w == HeaderLines(userAgent, key, host, port);
      if contentLength > 0 {
        n := client.Print("Content-Type: application/json");
        n := client.Print(CRLF);
        n := client.Print("Content-Length: ");
        n := client.Print(DecimalString(contentLength));
        n := client.Print(CRLF);
        Associate5(start + w, "Content-Type: application/json", CRLF, "Content-Length: ", DecimalString(contentLength), CRLF);
      }
      w := Written(start, w, BodyHeaders(contentLength));
      assert client.outgoing == start + w;
      n := client.Print(CRLF);
      w := Written(start, w, CRLF);
      assert client.outgoing == start + w;
      assert w == HttpHeader(userAgent, key, host, port, contentLength);
      assert client.outgoing == start + w;
      assert start == old(client.outgoing);
    }

    /** `waitForString`: reads until the pattern has been seen, comparing
        with `tolower` when the client is case-insensitive. */
    method WaitForString(p: string) returns (r: Outcome)
      modifies client
      ensures var w := WaitFor(old(client.incoming), old(client.connected), p, caseInsensitive);
        r == w.outcome && client.incoming == w.rest
      ensures client.connected == old(client.connected) && client.outgoing == old(client.outgoing)
    {
      if p == [] {
        return Returns(E_OK);
      }
      var k := 0;
      while client.incoming != []
        invariant 0 <= k < |p|
        invariant |client.incoming| <= |old(client.incoming)|
        invariant client.incoming == old(client.incoming)[|old(client.incoming)| - |client.incoming|..]
        invariant Match(old(client.incoming), p, caseInsensitive, 0) ==
          Shift(Match(client.incoming, p, caseInsensitive, k), |old(client.incoming)| - |client.incoming|)
        invariant client.connected == old(client.connected) && client.outgoing == old(client.outgoing)
        decreases |client.incoming|
      {
        ghost var before := client.incoming;
        MatchStep(before, p, caseInsensitive, k, |old(client.incoming)| - |before|);
        var c := client.Read();
        var cmp: int;
        if caseInsensitive {
          cmp := ToLower(c) as int - ToLower(p[k]) as int;
        } else {
          cmp := c as int - p[k] as int;
        }
        if p[k] == '*' || cmp == 0 {
          k := k + 1;
          if k == |p| {
            return Returns(E_OK);
          }
        } else {
          k := 0;
        }
        assert before[1..] == client.incoming;
      }
      if !client.connected {
        client.Close();
        return Returns(E_DISCONNECTED);
      }
      return Hang;
    }

    /** `readStatusCode`. */
    method ReadStatusCode(closeClient: bool) returns (r: Outcome)
      modifies client
      ensures var s := StatusCode(old(client.incoming), old(client.connected), caseInsensitive);
        r == s.outcome &&
        if closeClient && r.Returns? then client.incoming == [] && !client.connected
        else client.incoming == s.rest && client.connected == old(client.connected)
      ensures client.outgoing == old(client.outgoing)
    {
      var responseCode := 0;
      var w := WaitForString(STATUS_PATTERN);
      if w != Returns(E_OK) {
        if closeClient && w.Returns? {
          client.Close();
        }
        return w;
      }
      ghost var rest := client.incoming;
      var n := 0;
      while client.incoming != []
        invariant 0 <= n < 3 && n <= |rest|
        invariant client.incoming == rest[n..]
        invariant responseCode == Accumulate(0, rest[..n])
        invariant client.connected == old(client.connected) && client.outgoing == old(client.outgoing)
        decreases |client.incoming|
      {
        var c := client.Read();
        responseCode := responseCode * 10 + (c as int - '0' as int);
        AccumulateAppend(0, rest[..n], [c]);
        assert rest[..n + 1] == rest[..n] + [c];
        n := n + 1;
        if n == 3 {
          if closeClient {
            client.Close();
          }
          return Returns(responseCode);
        }
      }
      if !client.connected {
        if closeClient {
          client.Close();
        }
        return Returns(E_DISCONNECTED);
      }
      return Hang;
    }

    /** `readContentLength`. */
    method ReadContentLength() returns (r: Outcome)
      modifies client
      ensures var s := ContentLength(old(client.incoming), old(client.connected), caseInsensitive);
        r == s.outcome && client.incoming == s.rest
      ensures client.connected == old(client.connected) && client.outgoing == old(client.outgoing)
    {
      var w := WaitForString(LENGTH_PATTERN);
      if w != Returns(E_OK) {
        return w;
      }
      ghost var rest := client.incoming;
      var ret := 0;
      while client.incoming != []
        invariant LengthField(rest, client.connected, 0) == LengthField(client.incoming, client.connected, ret)
        invariant client.connected == old(client.connected) && client.outgoing == old(client.outgoing)
        decreases |client.incoming|
      {
        var c := client.Read();
        if c == '\r' || c == '\n' {
          return Returns(if ret == 0 then E_INVALID else ret);
        } else {
          ret := Words.WrapInt(ret * 10 + (c as int - '0' as int));
        }
      }
      if !client.connected {
        return Returns(E_DISCONNECTED);
      }
      return Hang;
    }

    /** `skipHttpHeader`. */
    method SkipHttpHeader() returns (r: Outcome)
      modifies client
      ensures var w := WaitFor(old(client.incoming), old(client.connected), HEADER_END_PATTERN, caseInsensitive);
        r == w.outcome && client.incoming == w.rest
      ensures client.connected == old(client.connected) && client.outgoing == old(client.outgoing)
    {
      r := WaitForString(HEADER_END_PATTERN);
    }

    /** The body reading shared by `readStreamValue` and `readLocation`:
        Content-Length, the end of the header, then chunks of at most
        `bufLen` bytes handed to the tokenizer (`verdict` gives its result
        after the bytes fed so far) until `length` bytes have been read. */
    method ReadJsonBody(bufLen: nat, verdict: string -> JsonResult) returns (r: Outcome, chunks: seq<string>)
      requires bufLen > 0
      modifies client
      ensures BodyRead(r, chunks) == ReadBody(old(client.incoming), old(client.connected), caseInsensitive, bufLen, verdict)
      ensures r.Returns? ==> client.incoming == [] && !client.connected
      ensures client.outgoing == old(client.outgoing)
    {
      chunks := [];
      var length := ReadContentLength();
      if length.Hang? {
        return Hang, chunks;
      }
      if length.code < 0 {
        client.Close();
        return length, chunks;
      }
      var skip := SkipHttpHeader();
      if skip != Returns(E_OK) {
        if skip.Returns? {
          client.Close();
        }
        return skip, chunks;
      }
      r, chunks := ReadChunks(length.code, bufLen, verdict);
    }

    /** The chunk loop: reads buffers of up to `bufLen` bytes until `length`
        bytes have been read, handing each to the tokenizer. */
    method ReadChunks(length: int, bufLen: nat, verdict: string -> JsonResult) returns (r: Outcome, chunks: seq<string>)
      requires bufLen > 0
      modifies client
      ensures BodyRead(r, chunks) ==
        ChunkLoop(old(client.incoming), old(client.connected), length, 0, bufLen, "", JsonUnknown, verdict)
      ensures r.Returns? ==> client.incoming == [] && !client.connected
      ensures client.outgoing == old(client.outgoing)
    {
      ghost var whole := ChunkLoop(client.incoming, client.connected, length, 0, bufLen, "", JsonUnknown, verdict);
      ghost var conn := client.connected;
      chunks := [];
      var index := 0;
      var result := JsonUnknown;
      var fed := "";
      while index < length
        invariant client.connected == conn && client.outgoing == old(client.outgoing)
        invariant whole == Prepend(chunks, ChunkLoop(client.incoming, conn, length, index, bufLen, fed, result, verdict))
        decreases |client.incoming|
      {
        ghost var before := client.incoming;
        var buf := ReadBuffer(bufLen);
        ChunkLoopRound(before, buf, client.incoming, conn, length, index, bufLen, fed, result, verdict);
        if !client.connected && client.incoming == [] && index + |buf| < length {
          assert chunks + [] == chunks;
          client.Close();
          return Returns(E_NOCONNECTION), chunks;
        }
        var res := verdict(fed + buf);
        ghost var tail := ChunkLoop(client.incoming, conn, length, index + |buf|, bufLen, fed + buf, res, verdict);
        PrependSnoc(chunks, buf, tail);
        if res != JsonOk && res != JsonEndOfStream {
          assert chunks + [buf] + [] == chunks + [buf];
          chunks := chunks + [buf];
          client.Close();
          return Returns(E_JSON_INVALID), chunks;
        }
        if |buf| == 0 {
          assert chunks + [buf] + [] == chunks + [buf];
          chunks := chunks + [buf];
          return Hang, chunks;
        }
        assert ChunkLoop(before, conn, length, index, bufLen, fed, result, verdict) ==
          BodyRead(tail.outcome, [buf] + tail.chunks);
        chunks := chunks + [buf];
        result := res;
        fed := fed + buf;
        index := index + |buf|;
        assert whole == Prepend(chunks, tail);
      }
      assert chunks + [] == chunks;
      client.Close();
      r := Returns(if result == JsonOk then E_OK else E_JSON_INVALID);
    }

    /** The inner loop: reads while a byte is available, up to `bufLen` bytes. */
    method ReadBuffer(bufLen: nat) returns (buf: string)
      modifies client
      ensures |buf| == Min(bufLen, |old(client.incoming)|)
      ensures buf == old(client.incoming)[..|buf|] && client.incoming == old(client.incoming)[|buf|..]
      ensures client.connected == old(client.connected) && client.outgoing == old(client.outgoing)
    {
      buf := "";
      while |buf| < bufLen && client.incoming != []
        invariant |buf| <= bufLen && |buf| <= |old(client.incoming)|
        invariant buf == old(client.incoming)[..|buf|] && client.incoming == old(client.incoming)[|buf|..]
        invariant client.connected == old(client.connected) && client.outgoing == old(client.outgoing)
        decreases |client.incoming|
      {
        var c := client.Read();
        buf := buf + [c];
      }
    }

    /** `readStreamValue`'s reading of the body, 32 bytes at a time. */
    method ReadStreamValue(verdict: string -> JsonResult) returns (r: Outcome, chunks: seq<string>)
      modifies client
      ensures BodyRead(r, chunks) == ReadBody(old(client.incoming), old(client.connected), caseInsensitive, 32, verdict)
      ensures r.Returns? ==> client.incoming == [] && !client.connected
      ensures client.outgoing == old(client.outgoing)
    {
      r, chunks := ReadJsonBody(32, verdict);
    }

    /** `readLocation`'s reading of the body, 40 bytes at a time. */
    method ReadLocation(verdict: string -> JsonResult) returns (r: Outcome, chunks: seq<string>)
      modifies client
      ensures BodyRead(r, chunks) == ReadBody(old(client.incoming), old(client.connected), caseInsensitive, 40, verdict)
      ensures r.Returns? ==> client.incoming == [] && !client.connected
      ensures client.outgoing == old(client.outgoing)
    {
      r, chunks := ReadJsonBody(40, verdict);
    }
  }

  /** The text written so far after `start` grows by `s`: a ghost step
      that moves one concatenation to the right. */
  ghost function Written(start: string, w: string, s: string): (w': string)
    ensures w' == w + s && start + w + s == start + w'
  {
    w + s
  }

  lemma Associate(a: string, b: string, c: string)
    ensures a + b + c == a + (b + c)
  {
  }

  lemma Associate5(a: string, b: string, c: string, d: string, e: string, f: string)
    ensures a + b + c + d + e + f == a + (b + c + d + e + f)
  {
  }

  /** One character of the matcher, `d` characters in. */
  lemma MatchStep(data: string, p: string, caseInsensitive: bool, k: nat, d: nat)
    requires data != [] && k < |p|
    ensures var k' := if Accepts(p[k], data[0], caseInsensitive) then k + 1 else 0;
      Shift(Match(data, p, caseInsensitive, k), d) ==
        if k' == |p| then Some(1 + d) else Shift(Match(data[1..], p, caseInsensitive, k'), d + 1)
  {
  }

  /** Chunks already handed over, in front of what the rest of the loop hands over. */
  function Prepend(chunks: seq<string>, r: BodyRead): BodyRead
  {
    BodyRead(r.outcome, chunks + r.chunks)
  }

  lemma PrependSnoc(chunks: seq<string>, c: string, r: BodyRead)
    ensures Prepend(chunks + [c], r) == Prepend(chunks, BodyRead(r.outcome, [c] + r.chunks))
  {
    assert chunks + [c] + r.chunks == chunks + ([c] + r.chunks);
  }
}
