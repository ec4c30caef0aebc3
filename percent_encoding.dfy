/** Percent-encoding of a C string as `print_encoded_string` of the M2X
    client performs it: the unreserved characters of section 2.3 of
    RFC 3986 are copied, every other byte becomes `%` and two upper-case
    hexadecimal digits.  A decoder is defined alongside, as the reference
    the encoder is checked against. */
module PercentEncoding {
  import opened Wrappers

  /** A byte of a C string on the target: plain `char` is unsigned on the
      ARM toolchain, and the terminating NUL is not part of the text. */
  predicate IsTextByte(c: char)
  {
    0 < c as int < 256
  }

  predicate IsText(s: string)
  {
    forall i :: 0 <= i < |s| ==> IsTextByte(s[i])
  }

  predicate IsUnreserved(c: char)
  {
    ('A' <= c <= 'Z') || ('a' <= c <= 'z') || ('0' <= c <= '9') ||
    c == '-' || c == '_' || c == '.' || c == '~'
  }

  predicate IsHexDigit(c: char)
  {
    ('0' <= c <= '9') || ('A' <= c <= 'F')
  }

  /** The `HEX` macro: a nibble as an upper-case hexadecimal digit. */
  function HexDigit(n: nat): (c: char)
    requires n < 16
    ensures IsHexDigit(c) && IsUnreserved(c)
    ensures n < 10 <==> '0' <= c <= '9'
  {
    if n > 9 then (n - 10 + 'A' as int) as char else (n + '0' as int) as char
  }

  /** The value of a hexadecimal digit (either case is accepted by the decoder). */
  function HexValue(c: char): (n: nat)
    requires IsHexDigit(c)
    ensures n < 16
  {
    if '0' <= c <= '9' then c as int - '0' as int else c as int - 'A' as int + 10
  }

  lemma HexValueOfHexDigit(n: nat)
    requires n < 16
    ensures HexValue(HexDigit(n)) == n
  {
  }

  /** The number of bytes of `s` that must be escaped. */
  function EscapedCount(s: string): (k: nat)
    ensures k <= |s|
  {
    if s == [] then 0 else (if IsUnreserved(s[0]) then 0 else 1) + EscapedCount(s[1..])
  }

  function EncodeByte(c: char): (e: string)
    requires IsTextByte(c)
  {
    if IsUnreserved(c) then [c] else ['%', HexDigit(c as int / 16), HexDigit(c as int % 16)]
  }

  /** What `print_encoded_string` prints for the text `s`. */
  function Encode(s: string): (e: string)
    requires IsText(s)
    ensures |e| == |s| + 2 * EscapedCount(s)
  {
    if s == [] then [] else EncodeByte(s[0]) + Encode(s[1..])
  }

  /** The encoder writes only unreserved characters and `%`: no space,
      slash, `?`, `&` or line end can leak into a request line. */
  lemma {:induction false} EncodeAlphabet(s: string)
    requires IsText(s)
    ensures forall i :: 0 <= i < |Encode(s)| ==> IsUnreserved(Encode(s)[i]) || Encode(s)[i] == '%'
  {
    if s != [] {
      assert IsText(s[1..]);
      EncodeAlphabet(s[1..]);
      var head := EncodeByte(s[0]);
      assert Encode(s) == head + Encode(s[1..]);
      forall i | 0 <= i < |Encode(s)| ensures IsUnreserved(Encode(s)[i]) || Encode(s)[i] == '%' {
        if i >= |head| {
          assert Encode(s)[i] == Encode(s[1..])[i - |head|];
        }
      }
    }
  }

  /** Percent-decoding: `None` for a stray `%`, a malformed escape or a
      reserved character left unescaped. */
  function Decode(e: string): (r: Option<string>)
    decreases |e|
  {
    if e == [] then Some([])
    else if e[0] == '%' then
      if |e| >= 3 && IsHexDigit(e[1]) && IsHexDigit(e[2]) then
        match Decode(e[3..])
        case None => None
        case Some(rest) => Some([(16 * HexValue(e[1]) + HexValue(e[2])) as char] + rest)
      else None
    else if IsUnreserved(e[0]) then
      match Decode(e[1..])
      case None => None
      case Some(rest) => Some([e[0]] + rest)
    else None
  }

  /** Decoding the encoder's output gives the text back. */
  lemma {:induction false} DecodeEncode(s: string)
    requires IsText(s)
    ensures Decode(Encode(s)) == Some(s)
  {
    if s != [] {
      var c := s[0];
      var e := Encode(s);
      assert IsText(s[1..]);
      DecodeEncode(s[1..]);
      assert e == EncodeByte(c) + Encode(s[1..]);
      assert s == [c] + s[1..];
      if IsUnreserved(c) {
        assert e[1..] == Encode(s[1..]);
        assert Decode(e) == Some([c] + s[1..]);
      } else {
        var hi, lo := c as int / 16, c as int % 16;
        HexValueOfHexDigit(hi);
        HexValueOfHexDigit(lo);
        assert e[0] == '%' && e[1] == HexDigit(hi) && e[2] == HexDigit(lo);
        assert e[3..] == Encode(s[1..]);
        assert (16 * hi + lo) as char == c;
        assert Decode(e) == Some([c] + s[1..]);
      }
    }
  }

  /** The encoding is injective: two texts with the same encoding are equal. */
  lemma EncodeInjective(s: string, t: string)
    requires IsText(s) && IsText(t) && Encode(s) == Encode(t)
    ensures s == t
  {
    DecodeEncode(s);
    DecodeEncode(t);
  }

  /** A text is printed unchanged exactly when it has no byte to escape. */
  lemma {:induction false} EncodeIsIdentity(s: string)
    requires IsText(s)
    ensures Encode(s) == s <==> forall i :: 0 <= i < |s| ==> IsUnreserved(s[i])
  {
    if s != [] {
      assert IsText(s[1..]);
      EncodeIsIdentity(s[1..]);
      if IsUnreserved(s[0]) {
        assert Encode(s) == [s[0]] + Encode(s[1..]);
        if forall i :: 0 <= i < |s[1..]| ==> IsUnreserved(s[1..][i]) {
          assert forall i :: 0 <= i < |s| ==> IsUnreserved(s[i]) by {
            forall i | 0 < i < |s| ensures IsUnreserved(s[i]) {
              assert s[i] == s[1..][i - 1];
            }
          }
        }
      } else {
        assert |Encode(s)| > |s|;
      }
    }
  }

  /** Encoding distributes over concatenation, so encoding a text byte by
      byte in a loop builds the same string. */
  lemma {:induction false} EncodeAppend(s: string, t: string)
    requires IsText(s) && IsText(t)
    ensures IsText(s + t) && Encode(s + t) == Encode(s) + Encode(t)
  {
    if s == [] {
      assert s + t == t;
    } else {
      assert (s + t)[1..] == s[1..] + t;
      assert IsText(s[1..]);
      EncodeAppend(s[1..], t);
    }
  }
}
