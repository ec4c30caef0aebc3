/** What the M2X client reads back from the server, as functions of the
    bytes the connection will deliver (`data`) and of whether the server
    keeps the connection open once they are used up (`connected`).

    The client polls forever while the connection is open and no byte is
    available; with a finite `data` that is the outcome `Hang`: the call
    does not return. */
module M2XReply {
  import opened Wrappers
  import opened M2XText
  import opened Words

  /** Return codes (declared in M2XStreamClient.h). */
  const E_OK: int := 0
  const E_NOCONNECTION: int := -1
  const E_DISCONNECTED: int := -2
  const E_INVALID: int := -4
  const E_JSON_INVALID: int := -5

  /** The patterns the reader waits for. */
  const STATUS_PATTERN: string := "HTTP/*.* "
  const LENGTH_PATTERN: string := "Content-Length: "
  const HEADER_END_PATTERN: string := "\r\n\r\n"

  datatype Outcome = Returns(code: int) | Hang

  /** What a read returns and the input it leaves unread. */
  datatype Read = Read(outcome: Outcome, rest: string)

  /** The JSON tokenizer's verdict after the bytes fed to it so far. */
  datatype JsonResult = JsonUnknown | JsonOk | JsonEndOfStream | JsonError

  /** The ASCII `tolower` of the client. */
  function ToLower(c: char): char
  {
    if 'A' <= c <= 'Z' then (c as int + 32) as char else c
  }

  /** Case folding identifies exactly an upper-case letter with the
      lower-case letter 32 code points above it. */
  lemma ToLowerIdentifies(a: char, b: char)
    ensures ToLower(a) == ToLower(b) <==>
      a == b ||
      ('A' <= a <= 'Z' && b as int == a as int + 32) ||
      ('A' <= b <= 'Z' && a as int == b as int + 32)
  {
  }

  /** Whether the pattern character `pc` accepts the input character `c`. */
  predicate Accepts(pc: char, c: char, caseInsensitive: bool)
  {
    pc == '*' || (if caseInsensitive then ToLower(c) == ToLower(pc) else c == pc)
  }

  /** The streaming matcher of `waitForString`, `k` pattern characters
      already matched: the number of characters it consumes before the
      pattern is complete, or `None` if `data` runs out first.  On a
      mismatch it starts again from the beginning of the pattern with the
      next character. */
  function Match(data: string, p: string, caseInsensitive: bool, k: nat): (r: Option<nat>)
    requires k < |p|
    ensures r.Some? ==> 1 <= r.value <= |data|
    decreases |data|
  {
    if data == [] then None
    else
      var k' := if Accepts(p[k], data[0], caseInsensitive) then k + 1 else 0;
      if k' == |p| then Some(1)
      else match Match(data[1..], p, caseInsensitive, k')
        case None => None
        case Some(n) => Some(n + 1)
  }

  /** Matched characters end a full occurrence of the pattern. */
  predicate EndsWithMatch(data: string, n: nat, p: string, caseInsensitive: bool)
    requires |p| <= n <= |data|
  {
    forall j :: 0 <= j < |p| ==> Accepts(p[j], data[n - |p| + j], caseInsensitive)
  }

  /** From pattern position `k`: either the rest of the pattern matched
      straight away, or the matcher started over and consumed more than a
      whole pattern; in both cases the last consumed characters match the
      pattern. */
  lemma {:induction false} MatchSoundFrom(data: string, p: string, ci: bool, k: nat, n: nat)
    requires k < |p| && Match(data, p, ci, k) == Some(n)
    ensures n >= |p| - k
    ensures n != |p| - k ==> n > |p|
    ensures forall j :: 0 <= j < |p| && 0 <= n - |p| + j ==> Accepts(p[j], data[n - |p| + j], ci)
    decreases |data|
  {
    var k' := if Accepts(p[k], data[0], ci) then k + 1 else 0;
    if k' != |p| {
      MatchSoundFrom(data[1..], p, ci, k', n - 1);
      forall j | 0 <= j < |p| && 0 <= n - |p| + j
        ensures Accepts(p[j], data[n - |p| + j], ci)
      {
        if n - |p| + j > 0 {
          assert data[n - |p| + j] == data[1..][(n - 1) - |p| + j];
        } else {
          assert j == k && k' == k + 1 && n - |p| + j == 0;
        }
      }
    }
  }

  /** When the matcher succeeds, the characters it consumed end with a
      complete occurrence of the pattern (with `*` matching any character). */
  lemma MatchSound(data: string, p: string, ci: bool, n: nat)
    requires 0 < |p| && Match(data, p, ci, 0) == Some(n)
    ensures |p| <= n <= |data| && EndsWithMatch(data, n, p, ci)
  {
    MatchSoundFrom(data, p, ci, 0, n);
  }

  /** Input that starts with the rest of the pattern completes it at once. */
  lemma {:induction false} MatchAtStart(data: string, p: string, ci: bool, k: nat)
    requires k < |p| <= |data| + k
    requires forall j :: k <= j < |p| ==> Accepts(p[j], data[j - k], ci)
    ensures Match(data, p, ci, k) == Some(|p| - k)
    decreases |p| - k
  {
    if k + 1 < |p| {
      forall j | k + 1 <= j < |p| ensures Accepts(p[j], data[1..][j - (k + 1)], ci) {
        assert data[1..][j - (k + 1)] == data[j - k];
      }
      MatchAtStart(data[1..], p, ci, k + 1);
    }
  }

  /** A match found after `d` characters already consumed. */
  function Shift(m: Option<nat>, d: nat): Option<nat>
  {
    match m
    case None => None
    case Some(n) => Some(n + d)
  }

  /** Characters that the first pattern character rejects are passed over
      one by one, the matcher staying at the start of the pattern. */
  lemma {:induction false} MatchSkips(s: string, rest: string, p: string, ci: bool)
    requires |p| > 0
    requires forall i :: 0 <= i < |s| ==> !Accepts(p[0], s[i], ci)
    ensures Match(s + rest, p, ci, 0) == Shift(Match(rest, p, ci, 0), |s|)
    decreases |s|
  {
    if s == [] {
      assert s + rest == rest;
      match Match(rest, p, ci, 0) {
        case None =>
        case Some(_) =>
      }
    } else {
      assert (s + rest)[0] == s[0];
      assert (s + rest)[1..] == s[1..] + rest;
      MatchSkips(s[1..], rest, p, ci);
      match Match(rest, p, ci, 0) {
        case None =>
        case Some(_) =>
      }
    }
  }

  /** A character rejected both at position `k` and at the start of the
      pattern sends the matcher back to the start either way. */
  lemma MatchResets(data: string, p: string, ci: bool, k: nat)
    requires data != [] && k < |p|
    requires !Accepts(p[k], data[0], ci) && !Accepts(p[0], data[0], ci)
    ensures Match(data, p, ci, k) == Match(data, p, ci, 0)
  {
  }

  /** A CR or LF in a pattern accepts that character and no other, with or
      without case folding. */
  lemma AcceptsLineEnd(pc: char, c: char, ci: bool)
    requires IsLineEnd(pc)
    ensures Accepts(pc, c, ci) <==> c == pc
  {
    ToLowerIdentifies(c, pc);
  }

  /** The matcher does not back up: in `aaab` the occurrence of `aab` that
      starts at the second character is missed, because the third `a` is
      only compared with the `b`. */
  lemma MatchMissesOverlap()
    ensures Match("aaab", "aab", false, 0) == None
  {
    var p := "aab";
    assert Match("", p, false, 0) == None;
    assert Match("b", p, false, 0) == None;
    assert Match("ab", p, false, 2) == None;
    assert Match("aab", p, false, 1) == None;
  }

  /** `waitForString`. */
  function WaitFor(data: string, connected: bool, p: string, ci: bool): (r: Read)
    ensures |r.rest| <= |data|
    ensures r.outcome == Returns(E_OK) || r.outcome == Returns(E_DISCONNECTED) || r.outcome == Hang
  {
    if p == [] then Read(Returns(E_OK), data)
    else match Match(data, p, ci, 0)
      case Some(n) => Read(Returns(E_OK), data[n..])
      case None => Read(if connected then Hang else Returns(E_DISCONNECTED), [])
  }

  /** Every unmatched outcome of `waitForString`: the data ran out, and the
      call returns only if the server has disconnected. */
  lemma WaitForFails(data: string, connected: bool, p: string, ci: bool)
    requires WaitFor(data, connected, p, ci).outcome != Returns(E_OK)
    ensures p != [] && Match(data, p, ci, 0) == None
    ensures WaitFor(data, connected, p, ci).outcome == (if connected then Hang else Returns(E_DISCONNECTED))
  {
  }

  /** `readStatusCode`: the three characters after the first match of
      the status pattern, taken as decimal digits without a check. */
  function StatusCode(data: string, connected: bool, ci: bool): (r: Read)
    ensures |r.rest| <= |data|
  {
    var w := WaitFor(data, connected, STATUS_PATTERN, ci);
    if w.outcome != Returns(E_OK) then w
    else if |w.rest| >= 3 then Read(Returns(Accumulate(0, w.rest[..3])), w.rest[3..])
    else Read(if connected then Hang else Returns(E_DISCONNECTED), [])
  }

  lemma {:induction false} AccumulateDigitsBound(s: string)
    requires forall i :: 0 <= i < |s| ==> IsDigit(s[i])
    ensures 0 <= Accumulate(0, s) < Pow10(|s|)
    decreases |s|
  {
    if s != [] {
      var init := s[..|s| - 1];
      assert s == init + [s[|s| - 1]];
      AccumulateDigitsBound(init);
      AccumulateAppend(0, init, [s[|s| - 1]]);
    }
  }

  function Pow10(n: nat): (r: nat)
    ensures r >= 1
  {
    if n == 0 then 1 else 10 * Pow10(n - 1)
  }

  /** Input that starts with a full occurrence of the pattern satisfies
      the wait right there, leaving everything after it unread. */
  lemma WaitForPrefix(line: string, tail: string, connected: bool, p: string, ci: bool)
    requires |line| == |p| > 0
    requires forall j :: 0 <= j < |p| ==> Accepts(p[j], line[j], ci)
    ensures WaitFor(line + tail, connected, p, ci) == Read(Returns(E_OK), tail)
  {
    MatchAtStart(line + tail, p, ci, 0);
    assert (line + tail)[|p|..] == tail;
  }

  lemma ThreeDigits(n: nat)
    requires 100 <= n <= 999
    ensures |Digits(n)| == 3
  {
    assert Digits(n / 10) == Digits(n / 100) + [DigitChar(n / 10 % 10)];
  }

  /** A status line `HTTP/x.y ` followed by a three-digit code yields the
      code, and the rest of the input stays unread. */
  lemma StatusLineRoundTrip(major: char, minor: char, code: nat, rest: string, connected: bool, ci: bool)
    requires 100 <= code <= 999
    ensures StatusCode("HTTP/" + [major] + "." + [minor] + " " + Digits(code) + rest, connected, ci)
      == Read(Returns(code), rest)
  {
    var line := "HTTP/" + [major] + "." + [minor] + " ";
    var tail := Digits(code) + rest;
    WaitForPrefix(line, tail, connected, STATUS_PATTERN, ci);
    assert line + Digits(code) + rest == line + tail;
    ThreeDigits(code);
    assert tail[..3] == Digits(code);
    assert tail[3..] == rest;
    AccumulateDigits(code);
  }

  /** Three digits after the status pattern give a code in 0..999. */
  lemma StatusCodeRange(data: string, connected: bool, ci: bool)
    requires var w := WaitFor(data, connected, STATUS_PATTERN, ci);
      w.outcome == Returns(E_OK) && |w.rest| >= 3 &&
      forall i :: 0 <= i < 3 ==> IsDigit(w.rest[i])
    ensures var r := StatusCode(data, connected, ci);
      r.outcome.Returns? && 0 <= r.outcome.code <= 999
  {
    var w := WaitFor(data, connected, STATUS_PATTERN, ci);
    AccumulateDigitsBound(w.rest[..3]);
  }

  /** `v` fits the 32-bit `int` of the target. */
  predicate IsInt(v: int)
  {
    -0x8000_0000 <= v < 0x8000_0000
  }

  /** One step `ret = ret * 10 + (c - '0')` of `readContentLength` on its
      `int` accumulator. */
  function LengthStep(acc: int, c: char): int
  {
    WrapInt(acc * 10 + (c as int - '0' as int))
  }

  /** The `int` that `readContentLength` accumulates from `s`. */
  function AccumulateInt(acc: int, s: string): int
    decreases |s|
  {
    if s == [] then acc else AccumulateInt(LengthStep(acc, s[0]), s[1..])
  }

  /** Wrapping at every step leaves what wrapping the exact decimal value
      once leaves: the accumulator is that value modulo 2^32, read as an
      `int`. */
  lemma {:induction false} AccumulateIntWraps(acc: int, s: string)
    ensures AccumulateInt(WrapInt(acc), s) == WrapInt(Accumulate(acc, s))
    decreases |s|
  {
    if s != [] {
      var d := s[0] as int - '0' as int;
      var q := (acc - WrapInt(acc)) / WORD_MODULUS;
      assert acc - WrapInt(acc) == q * WORD_MODULUS;
      assert (WrapInt(acc) * 10 + d) - (acc * 10 + d) == (-10 * q) * WORD_MODULUS;
      ModuloShift(0, -10 * q);
      WrapIntCongruent(WrapInt(acc) * 10 + d, acc * 10 + d);
      AccumulateIntWraps(acc * 10 + d, s[1..]);
    }
  }

  /** The value part of `readContentLength`, `acc` accumulated so far:
      characters up to the first CR or LF, with 0 reported as invalid. */
  function LengthField(data: string, connected: bool, acc: int): (r: Read)
    ensures |r.rest| < |data| || r.rest == []
    ensures IsInt(acc) && r.outcome.Returns? ==> IsInt(r.outcome.code)
    decreases |data|
  {
    if data == [] then Read(if connected then Hang else Returns(E_DISCONNECTED), [])
    else if data[0] == '\r' || data[0] == '\n' then Read(Returns(if acc == 0 then E_INVALID else acc), data[1..])
    else LengthField(data[1..], connected, LengthStep(acc, data[0]))
  }

  /** `readContentLength`. */
  function ContentLength(data: string, connected: bool, ci: bool): (r: Read)
    ensures |r.rest| <= |data|
    ensures r.outcome.Returns? ==> IsInt(r.outcome.code)
  {
    var w := WaitFor(data, connected, LENGTH_PATTERN, ci);
    if w.outcome != Returns(E_OK) then w else LengthField(w.rest, connected, 0)
  }

  predicate IsLineEnd(c: char)
  {
    c == '\r' || c == '\n'
  }

  lemma {:induction false} LengthFieldAppend(s: string, t: string, connected: bool, acc: int)
    requires forall i :: 0 <= i < |s| ==> !IsLineEnd(s[i])
    ensures LengthField(s + t, connected, acc) == LengthField(t, connected, AccumulateInt(acc, s))
    decreases |s|
  {
    if s == [] {
      assert s + t == t;
    } else {
      assert (s + t)[0] == s[0];
      assert (s + t)[1..] == s[1..] + t;
      LengthFieldAppend(s[1..], t, connected, LengthStep(acc, s[0]));
    }
  }

  /** A length field of digits ended by CR or LF yields its decimal value
      as an `int` (the value itself below 2^31, a wrapped one above), and a
      field whose `int` is 0 is reported invalid. */
  lemma LengthFieldDigits(s: string, eol: char, rest: string, connected: bool)
    requires forall i :: 0 <= i < |s| ==> IsDigit(s[i])
    requires IsLineEnd(eol)
    ensures var v := WrapInt(Accumulate(0, s));
      LengthField(s + [eol] + rest, connected, 0) == Read(Returns(if v == 0 then E_INVALID else v), rest)
    ensures Accumulate(0, s) < 0x8000_0000 ==>
      LengthField(s + [eol] + rest, connected, 0) == Read(Returns(if Accumulate(0, s) == 0 then E_INVALID else Accumulate(0, s)), rest)
  {
    AccumulateDigitsBound(s);
    AccumulateIntWraps(0, s);
    LengthFieldAppend(s, [eol] + rest, connected, 0);
    assert s + [eol] + rest == s + ([eol] + rest);
    assert ([eol] + rest)[1..] == rest;
  }

  /** A Content-Length header with any positive decimal value is read as
      that value reduced to an `int`, with the LF of the line end left
      unread. */
  lemma ContentLengthWraps(n: nat, rest: string, connected: bool, ci: bool)
    requires n > 0
    ensures ContentLength(LENGTH_PATTERN + DecimalString(n) + "\r\n" + rest, connected, ci)
      == Read(Returns(if WrapInt(n) == 0 then E_INVALID else WrapInt(n)), "\n" + rest)
  {
    var tail := Digits(n) + ['\r'] + ("\n" + rest);
    WaitForPrefix(LENGTH_PATTERN, tail, connected, LENGTH_PATTERN, ci);
    assert LENGTH_PATTERN + DecimalString(n) + "\r\n" + rest == LENGTH_PATTERN + tail;
    LengthFieldDigits(Digits(n), '\r', "\n" + rest, connected);
    AccumulateDigits(n);
  }

  /** The Content-Length header the client writes is read back by the
      client's own reader: every positive length an `int` holds, with the
      LF of the line end left unread. */
  lemma ContentLengthRoundTrip(n: nat, rest: string, connected: bool, ci: bool)
    requires 0 < n < 0x8000_0000
    ensures ContentLength(LENGTH_PATTERN + DecimalString(n) + "\r\n" + rest, connected, ci)
      == Read(Returns(n), "\n" + rest)
  {
    ContentLengthWraps(n, rest, connected, ci);
  }

  /** `readContentLength` never reports 0, so a successful read is a
      positive length. */
  lemma ContentLengthNotZero(data: string, connected: bool, ci: bool)
    ensures ContentLength(data, connected, ci).outcome != Returns(0)
  {
    var w := WaitFor(data, connected, LENGTH_PATTERN, ci);
    if w.outcome == Returns(E_OK) {
      LengthFieldNotZero(w.rest, connected, 0);
    }
  }

  lemma {:induction false} LengthFieldNotZero(data: string, connected: bool, acc: int)
    ensures LengthField(data, connected, acc).outcome != Returns(0)
    decreases |data|
  {
    if data != [] && !IsLineEnd(data[0]) {
      LengthFieldNotZero(data[1..], connected, LengthStep(acc, data[0]));
    }
  }

  function Flatten(chunks: seq<string>): string
  {
    if chunks == [] then "" else chunks[0] + Flatten(chunks[1..])
  }

  lemma {:induction false} FlattenAppend(chunks: seq<string>, c: string)
    ensures Flatten(chunks + [c]) == Flatten(chunks) + c
  {
    if chunks == [] {
      assert [] + [c] == [c];
    } else {
      assert (chunks + [c])[1..] == chunks[1..] + [c];
      FlattenAppend(chunks[1..], c);
    }
  }

  lemma FlattenCons(c: string, chunks: seq<string>)
    ensures Flatten([c] + chunks) == c + Flatten(chunks)
  {
    assert ([c] + chunks)[1..] == chunks;
  }

  lemma FedCons(fed: string, c: string, chunks: seq<string>)
    ensures fed + Flatten([c] + chunks) == (fed + c) + Flatten(chunks)
  {
    FlattenCons(c, chunks);
  }

  /** The outcome of reading a JSON body and the buffers handed to the
      tokenizer, in order. */
  datatype BodyRead = BodyRead(outcome: Outcome, chunks: seq<string>)

  function Min(a: int, b: int): int
  {
    if a <= b then a else b
  }

  /** The chunk loop of `readStreamValue` and `readLocation`: `index`
      bytes of a body of `length` bytes read so far, `fed` the bytes given
      to the tokenizer, `last` its last verdict.  Each round reads up to
      `bufLen` bytes; the loop gives up when the server has gone and the
      body is short, stops on a tokenizer error, and otherwise ends once
      `length` bytes have been read. */
  function ChunkLoop(data: string, connected: bool, length: int, index: int, bufLen: nat,
                     fed: string, last: JsonResult, verdict: string -> JsonResult): BodyRead
    requires bufLen > 0
    decreases |data|
  {
    if index >= length then BodyRead(Returns(if last == JsonOk then E_OK else E_JSON_INVALID), [])
    else
      var i := Min(bufLen, |data|);
      var chunk := data[..i];
      if !connected && i == |data| && index + i < length then BodyRead(Returns(E_NOCONNECTION), [])
      else
        var res := verdict(fed + chunk);
        if res != JsonOk && res != JsonEndOfStream then BodyRead(Returns(E_JSON_INVALID), [chunk])
        else if i == 0 then BodyRead(Hang, [chunk])
        else
          var tail := ChunkLoop(data[i..], connected, length, index + i, bufLen, fed + chunk, res, verdict);
          BodyRead(tail.outcome, [chunk] + tail.chunks)
  }

  /** One round of the chunk loop, in terms of the buffer `buf` it reads
      and the data `rest` left after it. */
  lemma ChunkLoopRound(data: string, buf: string, rest: string, connected: bool, length: int, index: int,
                       bufLen: nat, fed: string, last: JsonResult, verdict: string -> JsonResult)
    requires bufLen > 0 && index < length
    requires |buf| == Min(bufLen, |data|) && buf == data[..|buf|] && rest == data[|buf|..]
    ensures var r := ChunkLoop(data, connected, length, index, bufLen, fed, last, verdict);
      var res := verdict(fed + buf);
      var tail := ChunkLoop(rest, connected, length, index + |buf|, bufLen, fed + buf, res, verdict);
      if !connected && rest == [] && index + |buf| < length then r == BodyRead(Returns(E_NOCONNECTION), [])
      else if res != JsonOk && res != JsonEndOfStream then r == BodyRead(Returns(E_JSON_INVALID), [buf])
      else if buf == [] then r == BodyRead(Hang, [buf])
      else r == BodyRead(tail.outcome, [buf] + tail.chunks)
  {
  }

  /** A round hands over nothing, only the buffer it read, or that buffer
      followed by the later rounds' buffers. */
  lemma ChunkLoopHead(data: string, connected: bool, length: int, index: int, bufLen: nat,
                      fed: string, last: JsonResult, verdict: string -> JsonResult)
    requires bufLen > 0 && index < length
    ensures var i := Min(bufLen, |data|);
      var chunk := data[..i];
      var r := ChunkLoop(data, connected, length, index, bufLen, fed, last, verdict);
      var tail := ChunkLoop(data[i..], connected, length, index + i, bufLen, fed + chunk, verdict(fed + chunk), verdict);
      r.chunks == [] || r.chunks == [chunk] || (0 < i && r.chunks == [chunk] + tail.chunks)
  {
  }

  /** The buffers handed to the tokenizer are the body as received, in
      order. */
  lemma {:induction false} ChunkLoopPrefix(data: string, connected: bool, length: int, index: int, bufLen: nat,
                                      fed: string, last: JsonResult, verdict: string -> JsonResult)
    requires bufLen > 0
    ensures var f := Flatten(ChunkLoop(data, connected, length, index, bufLen, fed, last, verdict).chunks);
      |f| <= |data| && f == data[..|f|]
    decreases |data|
  {
    var r := ChunkLoop(data, connected, length, index, bufLen, fed, last, verdict);
    if index < length {
      ChunkLoopHead(data, connected, length, index, bufLen, fed, last, verdict);
      var i := Min(bufLen, |data|);
      var res := verdict(fed + data[..i]);
      var tail := ChunkLoop(data[i..], connected, length, index + i, bufLen, fed + data[..i], res, verdict);
      if r.chunks == [] || r.chunks == [data[..i]] {
        PrefixCases(data, i, [], r.chunks);
      } else {
        ChunkLoopPrefix(data[i..], connected, length, index + i, bufLen, fed + data[..i], res, verdict);
        PrefixCases(data, i, tail.chunks, r.chunks);
      }
    } else {
      assert Flatten(r.chunks) == [];
    }
  }

  /** Nothing, one buffer from the front of the data, or that buffer and
      then buffers along the rest of the data, lie along the data. */
  lemma PrefixCases(data: string, i: nat, tail: seq<string>, chunks: seq<string>)
    requires i <= |data|
    requires chunks == [] || chunks == [data[..i]] || chunks == [data[..i]] + tail
    requires var ft := Flatten(tail); |ft| <= |data| - i && ft == data[i..][..|ft|]
    ensures var f := Flatten(chunks); |f| <= |data| && f == data[..|f|]
  {
    if chunks == [] {
      assert Flatten(chunks) == [];
    } else if chunks == [data[..i]] {
      PrefixStep(data, i, [], chunks);
    } else {
      PrefixStep(data, i, tail, chunks);
    }
  }

  /** A buffer taken from the front of the data, then buffers that lie
      along the rest of it, lie along the data. */
  lemma PrefixStep(data: string, i: nat, tail: seq<string>, chunks: seq<string>)
    requires i <= |data| && chunks == [data[..i]] + tail
    requires var ft := Flatten(tail); |ft| <= |data| - i && ft == data[i..][..|ft|]
    ensures var f := Flatten(chunks); |f| <= |data| && f == data[..|f|]
  {
    var ft := Flatten(tail);
    FlattenCons(data[..i], tail);
    SliceSplit(data, i, |ft|);
  }

  lemma SliceSplit(data: string, i: nat, n: nat)
    requires i + n <= |data|
    ensures data[..i + n] == data[..i] + data[i..][..n]
  {
  }

  /** Each buffer handed to the tokenizer holds at most `bufLen` bytes. */
  lemma {:induction false} ChunkLoopBufferSize(data: string, connected: bool, length: int, index: int, bufLen: nat,
                                      fed: string, last: JsonResult, verdict: string -> JsonResult)
    requires bufLen > 0
    ensures var r := ChunkLoop(data, connected, length, index, bufLen, fed, last, verdict);
      forall k :: 0 <= k < |r.chunks| ==> |r.chunks[k]| <= bufLen
    decreases |data|
  {
    var r := ChunkLoop(data, connected, length, index, bufLen, fed, last, verdict);
    if index < length {
      ChunkLoopHead(data, connected, length, index, bufLen, fed, last, verdict);
      var i := Min(bufLen, |data|);
      var chunk := data[..i];
      var res := verdict(fed + chunk);
      var tail := ChunkLoop(data[i..], connected, length, index + i, bufLen, fed + chunk, res, verdict);
      if r.chunks != [] && r.chunks != [chunk] {
        ChunkLoopBufferSize(data[i..], connected, length, index + i, bufLen, fed + chunk, res, verdict);
        assert r.chunks == [chunk] + tail.chunks;
        forall k | 0 <= k < |r.chunks|
          ensures |r.chunks[k]| <= bufLen
        {
          if k > 0 {
            assert r.chunks[k] == tail.chunks[k - 1];
          }
        }
      }
    }
  }

  /** The loop gives up (server gone) or hangs (server silent) only when
      the body is short. */
  lemma {:induction false} ChunkLoopShort(data: string, connected: bool, length: int, index: int, bufLen: nat,
                                      fed: string, last: JsonResult, verdict: string -> JsonResult)
    requires bufLen > 0
    ensures var r := ChunkLoop(data, connected, length, index, bufLen, fed, last, verdict);
      (r.outcome == Returns(E_NOCONNECTION) ==> !connected && index + |data| < length) &&
      (r.outcome.Hang? ==> connected && index + |data| < length)
    decreases |data|
  {
    if index < length {
      var i := Min(bufLen, |data|);
      var chunk := data[..i];
      if !(!connected && i == |data| && index + i < length) {
        var res := verdict(fed + chunk);
        if (res == JsonOk || res == JsonEndOfStream) && i != 0 {
          ChunkLoopShort(data[i..], connected, length, index + i, bufLen, fed + chunk, res, verdict);
        }
      }
    }
  }

  /** The loop returns only the three documented codes. */
  lemma {:induction false} ChunkLoopCodes(data: string, connected: bool, length: int, index: int, bufLen: nat,
                                      fed: string, last: JsonResult, verdict: string -> JsonResult)
    requires bufLen > 0
    ensures var r := ChunkLoop(data, connected, length, index, bufLen, fed, last, verdict);
      r.outcome.Returns? ==>
        r.outcome.code == E_OK || r.outcome.code == E_NOCONNECTION || r.outcome.code == E_JSON_INVALID
    decreases |data|
  {
    if index < length {
      var i := Min(bufLen, |data|);
      var chunk := data[..i];
      if !(!connected && i == |data| && index + i < length) {
        var res := verdict(fed + chunk);
        if (res == JsonOk || res == JsonEndOfStream) && i != 0 {
          ChunkLoopCodes(data[i..], connected, length, index + i, bufLen, fed + chunk, res, verdict);
        }
      }
    }
  }

  /** On success at least the declared length, but less than one more
      buffer, was read. */
  lemma {:induction false} ChunkLoopSuccessLength(data: string, connected: bool, length: int, index: int, bufLen: nat,
                                      fed: string, last: JsonResult, verdict: string -> JsonResult)
    requires bufLen > 0
    ensures var r := ChunkLoop(data, connected, length, index, bufLen, fed, last, verdict);
      index < length && r.outcome == Returns(E_OK) ==>
        length <= index + |Flatten(r.chunks)| < length + bufLen
    decreases |data|
  {
    if index < length {
      var i := Min(bufLen, |data|);
      var chunk := data[..i];
      if !(!connected && i == |data| && index + i < length) {
        var res := verdict(fed + chunk);
        if (res == JsonOk || res == JsonEndOfStream) && i != 0 {
          var tail := ChunkLoop(data[i..], connected, length, index + i, bufLen, fed + chunk, res, verdict);
          var r := ChunkLoop(data, connected, length, index, bufLen, fed, last, verdict);
          assert r == BodyRead(tail.outcome, [chunk] + tail.chunks);
          FlattenCons(chunk, tail.chunks);
          if r.outcome == Returns(E_OK) {
            if index + i < length {
              ChunkLoopSuccessLength(data[i..], connected, length, index + i, bufLen, fed + chunk, res, verdict);
            } else {
              assert tail.chunks == [];
              assert Flatten(r.chunks) == chunk;
            }
          }
        }
      }
    }
  }

  /** A successful chunk loop that had something left to read took one
      non-empty buffer the tokenizer accepted, then carried on. */
  lemma ChunkLoopOkStep(data: string, connected: bool, length: int, index: int, bufLen: nat,
                        fed: string, last: JsonResult, verdict: string -> JsonResult)
    requires bufLen > 0 && index < length
    requires ChunkLoop(data, connected, length, index, bufLen, fed, last, verdict).outcome == Returns(E_OK)
    ensures var i := Min(bufLen, |data|);
      var res := verdict(fed + data[..i]);
      var tail := ChunkLoop(data[i..], connected, length, index + i, bufLen, fed + data[..i], res, verdict);
      0 < i && (res == JsonOk || res == JsonEndOfStream) &&
      ChunkLoop(data, connected, length, index, bufLen, fed, last, verdict) == BodyRead(tail.outcome, [data[..i]] + tail.chunks)
  {
  }

  /** On success the tokenizer accepted everything fed to it. */
  lemma {:induction false} ChunkLoopSuccessVerdict(data: string, connected: bool, length: int, index: int, bufLen: nat,
                                      fed: string, last: JsonResult, verdict: string -> JsonResult)
    requires bufLen > 0
    ensures var r := ChunkLoop(data, connected, length, index, bufLen, fed, last, verdict);
      index < length && r.outcome == Returns(E_OK) ==> verdict(fed + Flatten(r.chunks)) == JsonOk
    decreases |data|
  {
    var r := ChunkLoop(data, connected, length, index, bufLen, fed, last, verdict);
    if index < length && r.outcome == Returns(E_OK) {
      ChunkLoopOkStep(data, connected, length, index, bufLen, fed, last, verdict);
      var i := Min(bufLen, |data|);
      var chunk := data[..i];
      var res := verdict(fed + chunk);
      var tail := ChunkLoop(data[i..], connected, length, index + i, bufLen, fed + chunk, res, verdict);
      assert r.chunks == [chunk] + tail.chunks && tail.outcome == Returns(E_OK);
      FedCons(fed, chunk, tail.chunks);
      assert fed + Flatten(r.chunks) == (fed + chunk) + Flatten(tail.chunks);
      if index + i < length {
        ChunkLoopSuccessVerdict(data[i..], connected, length, index + i, bufLen, fed + chunk, res, verdict);
      } else {
        assert tail.chunks == [] && res == JsonOk;
        assert Flatten(tail.chunks) == "";
        assert (fed + chunk) + "" == fed + chunk;
      }
    }
  }

  /** A body that has fully arrived is always read to the end: the outcome
      is the tokenizer's verdict, never a hang or a lost connection. */
  lemma CompleteBodyIsRead(data: string, connected: bool, length: int, bufLen: nat, verdict: string -> JsonResult)
    requires bufLen > 0 && |data| >= length
    ensures var r := ChunkLoop(data, connected, length, 0, bufLen, "", JsonUnknown, verdict);
      r.outcome == Returns(E_OK) || r.outcome == Returns(E_JSON_INVALID)
  {
    ChunkLoopShort(data, connected, length, 0, bufLen, "", JsonUnknown, verdict);
    ChunkLoopCodes(data, connected, length, 0, bufLen, "", JsonUnknown, verdict);
  }

  /** The body part of `readStreamValue` (`bufLen` 32) and of the
      location reader (`bufLen` 40), from the Content-Length header on. */
  function ReadBody(data: string, connected: bool, ci: bool, bufLen: nat, verdict: string -> JsonResult): (r: BodyRead)
    requires bufLen > 0
  {
    ReadBodyUntil(data, connected, ci, bufLen, verdict, HEADER_END_PATTERN)
  }

  /** The body read with the header skip waiting for `headerEnd`. */
  function ReadBodyUntil(data: string, connected: bool, ci: bool, bufLen: nat, verdict: string -> JsonResult,
                         headerEnd: string): (r: BodyRead)
    requires bufLen > 0
  {
    var len := ContentLength(data, connected, ci);
    if len.outcome.Hang? then BodyRead(Hang, [])
    else if len.outcome.code < 0 then BodyRead(len.outcome, [])
    else
      var skip := WaitFor(len.rest, connected, headerEnd, ci);
      if skip.outcome != Returns(E_OK) then BodyRead(skip.outcome, [])
      else ChunkLoop(skip.rest, connected, len.outcome.code, 0, bufLen, "", JsonUnknown, verdict)
  }

  /** A body read succeeds only after the tokenizer has accepted at least
      the declared number of bytes, over-reading by less than one buffer. */
  lemma ReadBodyOk(data: string, connected: bool, ci: bool, bufLen: nat, verdict: string -> JsonResult)
    requires bufLen > 0 && ReadBody(data, connected, ci, bufLen, verdict).outcome == Returns(E_OK)
    ensures var len := ContentLength(data, connected, ci);
      var fed := Flatten(ReadBody(data, connected, ci, bufLen, verdict).chunks);
      len.outcome.Returns? && len.outcome.code > 0 &&
      len.outcome.code <= |fed| < len.outcome.code + bufLen && verdict(fed) == JsonOk
  {
    ContentLengthNotZero(data, connected, ci);
    var len := ContentLength(data, connected, ci);
    var skip := WaitFor(len.rest, connected, HEADER_END_PATTERN, ci);
    ChunkLoopSuccessLength(skip.rest, connected, len.outcome.code, 0, bufLen, "", JsonUnknown, verdict);
    ChunkLoopSuccessVerdict(skip.rest, connected, len.outcome.code, 0, bufLen, "", JsonUnknown, verdict);
    assert "" + Flatten(ReadBody(data, connected, ci, bufLen, verdict).chunks) == Flatten(ReadBody(data, connected, ci, bufLen, verdict).chunks);
  }

  /** A Content-Length between 2^31 and 2^32 - 1 wraps to a negative `int`,
      which the body read hands back as if it were an error code. */
  lemma ReadBodyLengthOverflow(n: nat, rest: string, connected: bool, ci: bool, bufLen: nat,
                               verdict: string -> JsonResult)
    requires 0x8000_0000 <= n < 0x1_0000_0000 && bufLen > 0
    ensures ReadBody(LENGTH_PATTERN + DecimalString(n) + "\r\n" + rest, connected, ci, bufLen, verdict)
      == BodyRead(Returns(n - 0x1_0000_0000), [])
  {
    ContentLengthWraps(n, rest, connected, ci);
  }

  /** The text of a header line: not empty, no CR or LF. */
  predicate IsHeaderText(l: string)
  {
    |l| > 0 && forall i :: 0 <= i < |l| ==> !IsLineEnd(l[i])
  }

  /** Header lines, each ended by CR LF. */
  function HeaderBlock(ls: seq<string>): string
  {
    if ls == [] then "" else ls[0] + CRLF + HeaderBlock(ls[1..])
  }

  /** CR LF at the start of the data advances a pattern that begins with
      CR LF by two characters. */
  lemma MatchCrLf(y: string, p: string, ci: bool)
    requires |p| >= 3 && p[0] == '\r' && p[1] == '\n'
    ensures Match(CRLF + y, p, ci, 0) == Shift(Match(y, p, ci, 2), 2)
  {
    AcceptsLineEnd(p[0], '\r', ci);
    AcceptsLineEnd(p[1], '\n', ci);
    assert (CRLF + y)[1..] == "\n" + y;
    assert ("\n" + y)[1..] == y;
  }

  /** The body read once the length has been read and the header skip has
      found `headerEnd`. */
  lemma ReadBodyUntilSkipped(data: string, connected: bool, ci: bool, bufLen: nat, verdict: string -> JsonResult,
                             headerEnd: string, n: nat, after: string, k: nat)
    requires bufLen > 0 && n > 0 && headerEnd != []
    requires ContentLength(data, connected, ci) == Read(Returns(n), after)
    requires Match(after, headerEnd, ci, 0) == Some(k)
    ensures ReadBodyUntil(data, connected, ci, bufLen, verdict, headerEnd)
      == ChunkLoop(after[k..], connected, n, 0, bufLen, "", JsonUnknown, verdict)
  {
  }

  /** A positive `int` length on a line of its own, then the header skip
      finding `headerEnd` `k` characters after the CR. */
  lemma ReadBodyAfterLengthLine(n: nat, x: string, connected: bool, ci: bool, bufLen: nat,
                                verdict: string -> JsonResult, headerEnd: string, k: nat)
    requires 0 < n < 0x8000_0000 && bufLen > 0 && headerEnd != []
    requires Match("\n" + x, headerEnd, ci, 0) == Some(k)
    ensures ReadBodyUntil(LENGTH_PATTERN + DecimalString(n) + CRLF + x, connected, ci, bufLen, verdict, headerEnd)
      == ChunkLoop(("\n" + x)[k..], connected, n, 0, bufLen, "", JsonUnknown, verdict)
  {
    ContentLengthRoundTrip(n, x, connected, ci);
    ReadBodyUntilSkipped(LENGTH_PATTERN + DecimalString(n) + CRLF + x, connected, ci, bufLen, verdict,
                         headerEnd, n, "\n" + x, k);
  }

  /** After one or more header lines, `"\r\n\r\n"` is found at the end of
      the blank line. */
  lemma {:induction false} HeaderEndAfterLines(ls: seq<string>, body: string, ci: bool)
    requires ls != [] && forall j :: 0 <= j < |ls| ==> IsHeaderText(ls[j])
    ensures Match(HeaderBlock(ls) + CRLF + body, HEADER_END_PATTERN, ci, 0) == Some(|HeaderBlock(ls)| + 2)
    decreases |ls|
  {
    var p := HEADER_END_PATTERN;
    var l, tail := ls[0], ls[1..];
    var y := HeaderBlock(tail) + CRLF + body;
    assert HeaderBlock(ls) + CRLF + body == l + (CRLF + y);
    forall i | 0 <= i < |l| ensures !Accepts(p[0], l[i], ci) {
      AcceptsLineEnd(p[0], l[i], ci);
    }
    MatchSkips(l, CRLF + y, p, ci);
    MatchCrLf(y, p, ci);
    if tail == [] {
      assert y == CRLF + body;
      MatchAtStart(y, p, ci, 2);
    } else {
      assert tail[0] == ls[1];
      assert y[0] == tail[0][0];
      AcceptsLineEnd(p[2], y[0], ci);
      AcceptsLineEnd(p[0], y[0], ci);
      MatchResets(y, p, ci, 2);
      HeaderEndAfterLines(tail, body, ci);
    }
  }

  /** With another header after Content-Length, the reader finds the end of
      the headers and reads the body that follows it. */
  lemma ReadBodyAfterLaterHeader(n: nat, ls: seq<string>, body: string, connected: bool, ci: bool,
                                 bufLen: nat, verdict: string -> JsonResult)
    requires 0 < n < 0x8000_0000 && bufLen > 0
    requires ls != [] && forall j :: 0 <= j < |ls| ==> IsHeaderText(ls[j])
    ensures ReadBody(LENGTH_PATTERN + DecimalString(n) + CRLF + HeaderBlock(ls) + CRLF + body,
                     connected, ci, bufLen, verdict)
      == ChunkLoop(body, connected, n, 0, bufLen, "", JsonUnknown, verdict)
  {
    var x := HeaderBlock(ls) + CRLF + body;
    var l := LENGTH_PATTERN + DecimalString(n) + CRLF;
    assert l + HeaderBlock(ls) + CRLF + body == l + x;
    HeaderEndAfterLengthLine(ls, body, ci);
    ReadBodyAfterLengthLine(n, x, connected, ci, bufLen, verdict, HEADER_END_PATTERN, |HeaderBlock(ls)| + 3);
  }

  /** The LF left after the Content-Length line, further header lines and
      a blank line: `"\r\n\r\n"` is found just before the body. */
  lemma HeaderEndAfterLengthLine(ls: seq<string>, body: string, ci: bool)
    requires ls != [] && forall j :: 0 <= j < |ls| ==> IsHeaderText(ls[j])
    ensures var y := "\n" + (HeaderBlock(ls) + CRLF + body);
      Match(y, HEADER_END_PATTERN, ci, 0) == Some(|HeaderBlock(ls)| + 3) && y[|HeaderBlock(ls)| + 3..] == body
  {
    var x := HeaderBlock(ls) + CRLF + body;
    AcceptsLineEnd('\r', '\n', ci);
    MatchSkips("\n", x, HEADER_END_PATTERN, ci);
    HeaderEndAfterLines(ls, body, ci);
    assert ("\n" + x)[|HeaderBlock(ls)| + 3..] == body;
  }

  /** When Content-Length is the last header, its CR has been consumed, the
      blank line never completes `"\r\n\r\n"`, and a body without CR is
      never read: the call hangs, or reports a disconnection. */
  lemma ReadBodyMissesLastLengthHeader(n: nat, body: string, connected: bool, ci: bool, bufLen: nat,
                                       verdict: string -> JsonResult)
    requires 0 < n < 0x8000_0000 && bufLen > 0
    requires forall i :: 0 <= i < |body| ==> body[i] != '\r'
    ensures ReadBody(LENGTH_PATTERN + DecimalString(n) + CRLF + CRLF + body, connected, ci, bufLen, verdict)
      == BodyRead(if connected then Hang else Returns(E_DISCONNECTED), [])
  {
    var p := HEADER_END_PATTERN;
    assert LENGTH_PATTERN + DecimalString(n) + CRLF + CRLF + body
      == LENGTH_PATTERN + DecimalString(n) + "\r\n" + (CRLF + body);
    ContentLengthRoundTrip(n, CRLF + body, connected, ci);
    var r := "\n" + (CRLF + body);
    AcceptsLineEnd('\r', '\n', ci);
    MatchSkips("\n", CRLF + body, p, ci);
    MatchCrLf(body, p, ci);
    if body != [] {
      AcceptsLineEnd(p[2], body[0], ci);
      AcceptsLineEnd(p[0], body[0], ci);
      MatchResets(body, p, ci, 2);
      forall i | 0 <= i < |body| ensures !Accepts(p[0], body[i], ci) {
        AcceptsLineEnd(p[0], body[i], ci);
      }
      MatchSkips(body, "", p, ci);
      assert body + "" == body;
    }
    assert Match(r, p, ci, 0) == None;
  }

  /** The reply `Content-Length: 2`, blank line, `{}` is never read. */
  lemma LastLengthHeaderExample(connected: bool, ci: bool, verdict: string -> JsonResult)
    ensures ReadBody("Content-Length: 2\r\n\r\n{}", connected, ci, 32, verdict).outcome
      == (if connected then Hang else Returns(E_DISCONNECTED))
  {
    assert DecimalString(2) == "2";
    assert "Content-Length: 2\r\n\r\n{}" == LENGTH_PATTERN + DecimalString(2) + CRLF + CRLF + "{}";
    ReadBodyMissesLastLengthHeader(2, "{}", connected, ci, 32, verdict);
  }

  /** What is left of the blank line after the CR that `readContentLength`
      consumed. */
  const BLANK_LINE_REST: string := "\n\r\n"

  /** The header skip as evidently intended: it waits for the rest of the
      blank line, which follows the Content-Length line directly or after
      further header lines. */
  function ReadBodyIntended(data: string, connected: bool, ci: bool, bufLen: nat, verdict: string -> JsonResult): (r: BodyRead)
    requires bufLen > 0
  {
    ReadBodyUntil(data, connected, ci, bufLen, verdict, BLANK_LINE_REST)
  }

  /** LF and then a header line ended by CR: the LF starts the pattern,
      the line's first character sends the matcher back, and the rest of
      the line is passed over. */
  lemma BlankLineRestSkipsLine(l: string, d: string, ci: bool)
    requires IsHeaderText(l)
    ensures Match("\n" + l + "\r" + d, BLANK_LINE_REST, ci, 0) == Shift(Match(d, BLANK_LINE_REST, ci, 0), |l| + 2)
  {
    var p := BLANK_LINE_REST;
    var s := l[1..] + "\r";
    var t := [l[0]] + (s + d);
    assert "\n" + l + "\r" + d == "\n" + t;
    AcceptsLineEnd('\n', '\n', ci);
    assert ("\n" + t)[1..] == t;
    assert Match("\n" + t, p, ci, 0) == Shift(Match(t, p, ci, 1), 1);
    AcceptsLineEnd(p[1], l[0], ci);
    AcceptsLineEnd(p[0], l[0], ci);
    assert t[1..] == s + d;
    assert Match(t, p, ci, 1) == Shift(Match(s + d, p, ci, 0), 1);
    forall i | 0 <= i < |s| ensures !Accepts(p[0], s[i], ci) {
      AcceptsLineEnd(p[0], s[i], ci);
    }
    MatchSkips(s, d, p, ci);
  }

  lemma {:induction false} BlankLineRestAfterLines(ls: seq<string>, body: string, ci: bool)
    requires forall j :: 0 <= j < |ls| ==> IsHeaderText(ls[j])
    ensures Match("\n" + HeaderBlock(ls) + CRLF + body, BLANK_LINE_REST, ci, 0) == Some(|HeaderBlock(ls)| + 3)
    decreases |ls|
  {
    var p := BLANK_LINE_REST;
    var data := "\n" + HeaderBlock(ls) + CRLF + body;
    if ls == [] {
      assert data == p + body;
      AcceptsLineEnd('\n', '\n', ci);
      AcceptsLineEnd('\r', '\r', ci);
      MatchAtStart(data, p, ci, 0);
    } else {
      var l, tail := ls[0], ls[1..];
      var d' := "\n" + HeaderBlock(tail) + CRLF + body;
      assert data == "\n" + l + "\r" + d';
      BlankLineRestSkipsLine(l, d', ci);
      BlankLineRestAfterLines(tail, body, ci);
    }
  }

  /** With the intended skip, the body is read whether Content-Length is
      the last header or other headers follow it. */
  lemma ReadBodyIntendedReadsBody(n: nat, ls: seq<string>, body: string, connected: bool, ci: bool,
                                  bufLen: nat, verdict: string -> JsonResult)
    requires 0 < n < 0x8000_0000 && bufLen > 0
    requires forall j :: 0 <= j < |ls| ==> IsHeaderText(ls[j])
    ensures ReadBodyIntended(LENGTH_PATTERN + DecimalString(n) + CRLF + HeaderBlock(ls) + CRLF + body,
                             connected, ci, bufLen, verdict)
      == ChunkLoop(body, connected, n, 0, bufLen, "", JsonUnknown, verdict)
  {
    var x := HeaderBlock(ls) + CRLF + body;
    var l := LENGTH_PATTERN + DecimalString(n) + CRLF;
    assert l + HeaderBlock(ls) + CRLF + body == l + x;
    BlankLineRestAfterLengthLine(ls, body, ci);
    ReadBodyAfterLengthLine(n, x, connected, ci, bufLen, verdict, BLANK_LINE_REST, |HeaderBlock(ls)| + 3);
  }

  /** The LF left after the Content-Length line, any header lines and a
      blank line: the rest of the blank line is found just before the
      body. */
  lemma BlankLineRestAfterLengthLine(ls: seq<string>, body: string, ci: bool)
    requires forall j :: 0 <= j < |ls| ==> IsHeaderText(ls[j])
    ensures var y := "\n" + (HeaderBlock(ls) + CRLF + body);
      Match(y, BLANK_LINE_REST, ci, 0) == Some(|HeaderBlock(ls)| + 3) && y[|HeaderBlock(ls)| + 3..] == body
  {
    var x := HeaderBlock(ls) + CRLF + body;
    BlankLineRestAfterLines(ls, body, ci);
    assert "\n" + x == "\n" + HeaderBlock(ls) + CRLF + body;
    assert ("\n" + x)[|HeaderBlock(ls)| + 3..] == body;
  }
}
