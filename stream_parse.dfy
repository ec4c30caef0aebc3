/** The callbacks `readStreamValue` hands to the JSON tokenizer
    (StreamParseFunctions.h): key tokens arm the `at` and `value` fields,
    string tokens fill them, and once both are filled the pair is passed to
    the user's callback with a running index and the state starts over. */
module StreamParse {
  import opened ParseText

  /** `STREAM_BUF_LEN`: the string buffers hold 20 characters and a NUL. */
  const STREAM_BUF_LEN: nat := 20

  const WAITING_AT: bv8 := 0x1
  const GOT_AT: bv8 := 0x2
  const WAITING_VALUE: bv8 := 0x4
  const GOT_VALUE: bv8 := 0x8
  const GOT_STREAM: bv8 := 0xA

  /** `TEST_GOT_STREAM`: both fields filled. */
  predicate GotStream(state: bv8)
  {
    (state & GOT_STREAM) == GOT_STREAM
  }

  /** `TEST_IS_AT`: armed for `at` and not filled yet. */
  predicate IsAt(state: bv8)
  {
    (state & (WAITING_AT | GOT_AT)) == WAITING_AT
  }

  /** `TEST_IS_VALUE`: armed for `value` and not filled yet. */
  predicate IsValue(state: bv8)
  {
    (state & (WAITING_VALUE | GOT_VALUE)) == WAITING_VALUE
  }

  /** A key arming `at`: its first two characters are `at`. */
  predicate IsAtKey(key: string)
  {
    HasPrefix(key, "at")
  }

  /** A key arming `value`: it starts with `value` and is not `values`
      (the character after `value` is the closing quote when the key is
      exactly `value`). */
  predicate IsValueKey(key: string)
  {
    HasPrefix(key, "value") && (|key| == 5 || key[5] != 's')
  }

  /** One call of the user's callback: timestamp, value and index. */
  datatype StreamValue = StreamValue(at: string, value: string, index: int)

  /** The parsing context as a value: the flag byte, the two buffers, the
      running index and the callbacks made so far. */
  datatype StreamState = StreamState(state: bv8, atStr: string, valueStr: string, index: int,
                                     emitted: seq<StreamValue>)

  /** `state.state = state.index = 0` in `readStreamValue`; the buffers
      are not initialised there and start out empty here. */
  function Initial(): (s: StreamState)
    ensures s.state == 0 && s.index == 0 && s.emitted == []
  {
    StreamState(0, "", "", 0, [])
  }

  /** `on_stream_key_found`. */
  function KeyFound(s: StreamState, key: string): (r: StreamState)
    ensures r == s.(state := r.state)
    ensures (r.state & WAITING_AT != 0) <==> (s.state & WAITING_AT != 0 || IsAtKey(key))
    ensures (r.state & WAITING_VALUE != 0) <==> (s.state & WAITING_VALUE != 0 || (!IsAtKey(key) && IsValueKey(key)))
    ensures (r.state & !(WAITING_AT | WAITING_VALUE)) == (s.state & !(WAITING_AT | WAITING_VALUE))
  {
    if IsAtKey(key) then s.(state := s.state | WAITING_AT)
    else if IsValueKey(key) then s.(state := s.state | WAITING_VALUE)
    else s
  }

  /** The first half of `on_stream_string_found`: the string goes to the
      field that is armed and not yet filled, `at` first. */
  function Fill(s: StreamState, token: string): (r: StreamState)
    ensures r.index == s.index && r.emitted == s.emitted
  {
    if IsAt(s.state) then s.(atStr := Truncate(token, STREAM_BUF_LEN), state := s.state | GOT_AT)
    else if IsValue(s.state) then s.(valueStr := Truncate(token, STREAM_BUF_LEN), state := s.state | GOT_VALUE)
    else s
  }

  /** `on_stream_string_found`: fill, then report the pair once both
      fields are filled. */
  function StringFound(s: StreamState, token: string): (r: StreamState)
  {
    var f := Fill(s, token);
    if GotStream(f.state) then
      f.(emitted := f.emitted + [StreamValue(f.atStr, f.valueStr, f.index)], index := f.index + 1, state := 0)
    else f
  }

  /** The tokens the tokenizer reports to these two callbacks. */
  datatype Token = Key(text: string) | Str(text: string)

  function Step(s: StreamState, t: Token): StreamState
  {
    match t
    case Key(k) => KeyFound(s, k)
    case Str(v) => StringFound(s, v)
  }

  /** The callbacks over a whole token sequence, in order. */
  function Run(s: StreamState, tokens: seq<Token>): StreamState
    decreases |tokens|
  {
    if tokens == [] then s else Run(Step(s, tokens[0]), tokens[1..])
  }

  /** A string token fills `at` exactly when `at` is armed and empty, and
      `value` exactly when `value` is armed and empty and `at` is not. */
  lemma StringFoundFills(s: StreamState, token: string)
    ensures var r := Fill(s, token);
      (r.atStr != s.atStr ==> IsAt(s.state) && r.atStr == Truncate(token, STREAM_BUF_LEN)) &&
      (r.valueStr != s.valueStr ==> !IsAt(s.state) && IsValue(s.state) && r.valueStr == Truncate(token, STREAM_BUF_LEN)) &&
      (IsAt(s.state) <==> r.state & GOT_AT != 0 && s.state & GOT_AT == 0) &&
      (!IsAt(s.state) && IsValue(s.state) <==> r.state & GOT_VALUE != 0 && s.state & GOT_VALUE == 0) &&
      (r.state & !(GOT_AT | GOT_VALUE)) == (s.state & !(GOT_AT | GOT_VALUE)) &&
      (!IsAt(s.state) && !IsValue(s.state) ==> r == s)
  {
  }

  /** A record is reported exactly when both fields are filled after the
      string; it carries the buffers and the index, the index then goes up
      by one and the state is cleared.  Otherwise nothing is reported. */
  lemma StringFoundEmits(s: StreamState, token: string)
    ensures var f := Fill(s, token);
      var r := StringFound(s, token);
      if GotStream(f.state) then
        r.emitted == s.emitted + [StreamValue(f.atStr, f.valueStr, s.index)] &&
        r.index == s.index + 1 && r.state == 0
      else
        r.emitted == s.emitted && r.index == s.index && r.state == f.state
  {
  }

  /** Between two reports the flags only accumulate: every update is an
      `|=`, and only a report clears them. */
  lemma FlagsAccumulate(s: StreamState, t: Token)
    requires |Step(s, t).emitted| == |s.emitted|
    ensures (s.state & Step(s, t).state) == s.state
  {
    match t
    case Key(k) =>
    case Str(v) =>
      var f := Fill(s, v);
      assert (s.state & f.state) == s.state;
  }

  /** Reported indices run on from the running index: the `k`-th report
      of the context carries the index it started with plus `k`. */
  ghost predicate Consecutive(s: StreamState)
  {
    forall k :: 0 <= k < |s.emitted| ==> s.emitted[k].index == s.index - |s.emitted| + k
  }

  /** Each buffer holds at most 20 characters, and so does every report. */
  ghost predicate Bounded(s: StreamState)
  {
    |s.atStr| <= STREAM_BUF_LEN && |s.valueStr| <= STREAM_BUF_LEN &&
    forall k :: 0 <= k < |s.emitted| ==>
      |s.emitted[k].at| <= STREAM_BUF_LEN && |s.emitted[k].value| <= STREAM_BUF_LEN
  }

  lemma StepKeepsInvariants(s: StreamState, t: Token)
    requires Consecutive(s) && Bounded(s)
    ensures Consecutive(Step(s, t)) && Bounded(Step(s, t))
    ensures |Step(s, t).emitted| - Step(s, t).index == |s.emitted| - s.index
  {
    match t
    case Key(k) =>
    case Str(v) =>
      var f := Fill(s, v);
      var r := StringFound(s, v);
      if GotStream(f.state) {
        assert r.emitted == s.emitted + [StreamValue(f.atStr, f.valueStr, s.index)];
        forall k | 0 <= k < |r.emitted|
          ensures r.emitted[k].index == r.index - |r.emitted| + k
          ensures |r.emitted[k].at| <= STREAM_BUF_LEN && |r.emitted[k].value| <= STREAM_BUF_LEN
        {
          if k < |s.emitted| {
            assert r.emitted[k] == s.emitted[k];
          }
        }
      }
  }

  lemma {:induction false} RunKeepsInvariants(s: StreamState, tokens: seq<Token>)
    requires Consecutive(s) && Bounded(s)
    ensures Consecutive(Run(s, tokens)) && Bounded(Run(s, tokens))
    decreases |tokens|
  {
    if tokens != [] {
      StepKeepsInvariants(s, tokens[0]);
      RunKeepsInvariants(Step(s, tokens[0]), tokens[1..]);
    }
  }

  /** Over any token sequence from the initial state, the reports carry
      the indices 0, 1, 2, ... in order, the running index counts them, and
      every reported string is at most 20 characters long. */
  lemma RunReportsInOrder(tokens: seq<Token>)
    ensures var r := Run(Initial(), tokens);
      r.index == |r.emitted| &&
      (forall k :: 0 <= k < |r.emitted| ==> r.emitted[k].index == k) &&
      forall k :: 0 <= k < |r.emitted| ==>
        |r.emitted[k].at| <= STREAM_BUF_LEN && |r.emitted[k].value| <= STREAM_BUF_LEN
  {
    RunKeepsInvariants(Initial(), tokens);
    RunIndexCount(Initial(), tokens);
  }

  lemma {:induction false} RunIndexCount(s: StreamState, tokens: seq<Token>)
    ensures |Run(s, tokens).emitted| - Run(s, tokens).index == |s.emitted| - s.index
    decreases |tokens|
  {
    if tokens != [] {
      var t := tokens[0];
      if t.Str? {
        StringFoundEmits(s, t.text);
      }
      RunIndexCount(Step(s, t), tokens[1..]);
    }
  }

  /** Reports are only ever appended: a run's reports begin with those
      made before it. */
  lemma {:induction false} RunAppends(s: StreamState, tokens: seq<Token>)
    ensures |s.emitted| <= |Run(s, tokens).emitted| && Run(s, tokens).emitted[..|s.emitted|] == s.emitted
    decreases |tokens|
  {
    if tokens != [] {
      var t := tokens[0];
      if t.Str? {
        StringFoundEmits(s, t.text);
      }
      RunAppends(Step(s, t), tokens[1..]);
      var n := Step(s, t).emitted;
      assert n[..|s.emitted|] == s.emitted;
    }
  }

  /** The parsing context `stream_parsing_context_state`, updated in place
      by the two callbacks; `emitted` records the user callback's calls. */
  class StreamParsingContext {
    var state: bv8
    var atStr: string
    var valueStr: string
    var index: int
    var emitted: seq<StreamValue>

    function Snapshot(): StreamState
      reads this
    {
      StreamState(state, atStr, valueStr, index, emitted)
    }

    constructor ()
      ensures Snapshot() == Initial()
    {
      state := 0;
      index := 0;
      atStr := "";
      valueStr := "";
      emitted := [];
    }

    /** `on_stream_key_found`. */
    method OnKeyFound(key: string)
      modifies this
      ensures Snapshot() == KeyFound(old(Snapshot()), key)
    {
      HasPrefixIsPrefix(key, "at");
      HasPrefixIsPrefix(key, "value");
      if |key| >= 2 && key[..2] == "at" {
        state := state | WAITING_AT;
      } else if |key| >= 5 && key[..5] == "value" && (|key| == 5 || key[5] != 's') {
        state := state | WAITING_VALUE;
      }
    }

    /** `on_stream_string_found`. */
    method OnStringFound(token: string)
      modifies this
      ensures Snapshot() == StringFound(old(Snapshot()), token)
    {
      var n := if |token| < STREAM_BUF_LEN then |token| else STREAM_BUF_LEN;
      if (state & (WAITING_AT | GOT_AT)) == WAITING_AT {
        atStr := token[..n];
        state := state | GOT_AT;
      } else if (state & (WAITING_VALUE | GOT_VALUE)) == WAITING_VALUE {
        valueStr := token[..n];
        state := state | GOT_VALUE;
      }
      if (state & GOT_STREAM) == GOT_STREAM {
        emitted := emitted + [StreamValue(atStr, valueStr, index)];
        index := index + 1;
        state := 0;
      }
    }
  }
}
