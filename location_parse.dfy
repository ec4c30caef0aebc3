/** The callbacks `readLocation` hands to the JSON tokenizer
    (LocationParseFunctions.h): five fields, each with a WAITING and a GOT
    flag; key tokens arm a field, string tokens fill the first armed one,
    and once all five are filled the location is passed to the user's
    callback with a running index and the state starts over.  The key
    `waypoints` clears the state, so only the waypoints are reported.

    The 16-bit flag word is modelled as the set of flags that are on: the
    callbacks only ever or-in one of the ten flags, test flags, or clear
    the word, and the ten flags are distinct bits (`FlagsAreDistinctBits`),
    so the set and the word determine each other. */
module LocationParse {
  import opened ParseText

  /** `LOCATION_BUF_LEN`: the name and timestamp buffers hold 20
      characters and a NUL. */
  const LOCATION_BUF_LEN: nat := 20

  /** The fields in the order the callbacks test them: name, latitude,
      longitude, elevation, timestamp. */
  const FIELDS: nat := 5

  /** The flags of the state word: field `i` is armed, field `i` is filled. */
  datatype Flag = Waiting(field: nat) | Got(field: nat)

  /** The bit of the `uint16_t` state word each flag stands for
      (`WAITING_NAME` 0x1 ... `GOT_TIMESTAMP` 0x200). */
  function Bit(f: Flag): bv16
    requires f.field < FIELDS
  {
    match f
    case Waiting(0) => 0x1
    case Waiting(1) => 0x2
    case Waiting(2) => 0x4
    case Waiting(3) => 0x8
    case Waiting(_) => 0x10
    case Got(0) => 0x20
    case Got(1) => 0x40
    case Got(2) => 0x80
    case Got(3) => 0x100
    case Got(_) => 0x200
  }

  /** The ten flags are distinct single bits of the 16-bit state word, and
      the GOT bits together make `GOT_LOCATION`, 0x3E0. */
  lemma FlagsAreDistinctBits()
    ensures forall f: Flag :: f.field < FIELDS ==> Bit(f) != 0 && (Bit(f) & (Bit(f) - 1)) == 0
    ensures forall f: Flag, g: Flag :: f.field < FIELDS && g.field < FIELDS && f != g ==> (Bit(f) & Bit(g)) == 0
    ensures Bit(Got(0)) | Bit(Got(1)) | Bit(Got(2)) | Bit(Got(3)) | Bit(Got(4)) == 0x3E0
  {
    forall f: Flag, g: Flag | f.field < FIELDS && g.field < FIELDS && f != g
      ensures (Bit(f) & Bit(g)) == 0
    {
      var a, b := Bit(f), Bit(g);
      assert a != b by {
        if f.Waiting? == g.Waiting? {
          assert f.field != g.field;
        }
      }
    }
  }

  function Key(i: nat): string
    requires i < FIELDS
  {
    match i
    case 0 => "name"
    case 1 => "latitude"
    case 2 => "longitude"
    case 3 => "elevation"
    case _ => "timestamp"
  }

  /** `GOT_LOCATION`: the GOT flags of all five fields. */
  const GOT_LOCATION: set<Flag> := {Got(0), Got(1), Got(2), Got(3), Got(4)}

  /** `TEST_IS_NAME` and its siblings: field `i` armed and not filled yet. */
  predicate Armed(state: set<Flag>, i: nat)
  {
    Waiting(i) in state && Got(i) !in state
  }

  /** `TEST_GOT_LOCATION`: all five fields filled. */
  predicate GotLocation(state: set<Flag>)
  {
    GOT_LOCATION <= state
  }

  /** The field a string token goes to: the first armed one, or `FIELDS`
      when none is. */
  function FirstArmed(state: set<Flag>): nat
  {
    if Armed(state, 0) then 0
    else if Armed(state, 1) then 1
    else if Armed(state, 2) then 2
    else if Armed(state, 3) then 3
    else if Armed(state, 4) then 4
    else 5
  }

  /** The field a key arms: the first whose name the key starts with, or
      `FIELDS` for any other key. */
  function KeyField(key: string): nat
  {
    if HasPrefix(key, "name") then 0
    else if HasPrefix(key, "latitude") then 1
    else if HasPrefix(key, "longitude") then 2
    else if HasPrefix(key, "elevation") then 3
    else if HasPrefix(key, "timestamp") then 4
    else 5
  }

  /** A string token goes to the first field, in the callbacks' order,
      that is armed and not yet filled. */
  lemma FirstArmedIsFirst(state: set<Flag>)
    ensures var k := FirstArmed(state);
      k <= FIELDS && (k < FIELDS ==> Armed(state, k)) &&
      forall j :: 0 <= j < k ==> !Armed(state, j)
  {
    var k := FirstArmed(state);
    forall j | 0 <= j < k
      ensures !Armed(state, j)
    {
      if j == 0 {} else if j == 1 {} else if j == 2 {} else if j == 3 {} else {}
    }
  }

  /** A key arms the first field, in the callbacks' order, whose name it
      starts with. */
  lemma KeyFieldIsFirst(key: string)
    ensures var k := KeyField(key);
      k <= FIELDS && (k < FIELDS ==> HasPrefix(key, Key(k))) &&
      forall j :: 0 <= j < k ==> !HasPrefix(key, Key(j))
  {
    var k := KeyField(key);
    forall j | 0 <= j < k
      ensures !HasPrefix(key, Key(j))
    {
      if j == 0 {} else if j == 1 {} else if j == 2 {} else if j == 3 {} else {}
    }
  }

  /** One call of the user's callback.  The coordinates are the token
      text `atof` converts; the conversion itself is not modelled. */
  datatype Location = Location(name: string, latitude: string, longitude: string, elevation: string,
                               timestamp: string, index: int)

  /** The parsing context as a value: the flags, the five fields, the
      running index and the callbacks made so far. */
  datatype LocationState = LocationState(state: set<Flag>, name: string, latitude: string, longitude: string,
                                         elevation: string, timestamp: string, index: int,
                                         emitted: seq<Location>)

  function Field(s: LocationState, i: nat): string
    requires i < FIELDS
  {
    match i
    case 0 => s.name
    case 1 => s.latitude
    case 2 => s.longitude
    case 3 => s.elevation
    case _ => s.timestamp
  }

  /** What filling field `i` from a token stores: name and timestamp are
      copied into their 21-byte buffers, the coordinates keep the text. */
  function Stored(i: nat, token: string): (v: string)
    requires i < FIELDS
    ensures i == 0 || i == 4 ==> |v| <= LOCATION_BUF_LEN && |v| <= |token| && v == token[..|v|]
  {
    if i == 0 || i == 4 then Truncate(token, LOCATION_BUF_LEN) else token
  }

  /** `state.state = state.index = 0` in `readLocation`. */
  function Initial(): (s: LocationState)
    ensures s.state == {} && s.index == 0 && s.emitted == []
  {
    LocationState({}, "", "", "", "", "", 0, [])
  }

  /** What `on_location_key_found` does with a key: `waypoints` starts
      over, a field's name arms that field, anything else is ignored. */
  datatype KeyKind = Waypoints | Arms(field: nat) | Ignored

  /** The key tests in the callback's order: `waypoints` first, then the
      five field names. */
  function Classify(key: string): (r: KeyKind)
    ensures r.Arms? ==> r.field < FIELDS
  {
    if HasPrefix(key, "waypoints") then Waypoints
    else if KeyField(key) < FIELDS then Arms(KeyField(key))
    else Ignored
  }

  /** The flags after `on_location_key_found` for a key of the given kind. */
  function KeyFlags(state: set<Flag>, kind: KeyKind): set<Flag>
  {
    match kind
    case Waypoints => {}
    case Arms(k) => state + {Waiting(k)}
    case Ignored => state
  }

  /** `on_location_key_found`: only the flags change. */
  function KeyFound(s: LocationState, key: string): LocationState
  {
    s.(state := KeyFlags(s.state, Classify(key)))
  }

  /** Replaces field `i`. */
  function SetField(s: LocationState, i: nat, v: string): LocationState
    requires i < FIELDS
  {
    match i
    case 0 => s.(name := v)
    case 1 => s.(latitude := v)
    case 2 => s.(longitude := v)
    case 3 => s.(elevation := v)
    case _ => s.(timestamp := v)
  }

  /** The first half of `on_location_string_found`: the token goes to the
      first armed field, which is marked GOT. */
  function Fill(s: LocationState, token: string): (r: LocationState)
    ensures r.index == s.index && r.emitted == s.emitted
  {
    var k := FirstArmed(s.state);
    if k < FIELDS then SetField(s, k, Stored(k, token)).(state := s.state + {Got(k)}) else s
  }

  /** `on_location_string_found`: fill, then report once all five fields
      are filled. */
  function StringFound(s: LocationState, token: string): LocationState
  {
    var f := Fill(s, token);
    if GotLocation(f.state) then
      f.(emitted := f.emitted + [Location(f.name, f.latitude, f.longitude, f.elevation, f.timestamp, f.index)],
         index := f.index + 1, state := {})
    else f
  }

  /** `waypoints` clears the whole state; a field's key sets that field's
      WAITING flag and no other; any other key changes nothing. */
  lemma KeyRule(state: set<Flag>, kind: KeyKind)
    ensures var r := KeyFlags(state, kind);
      match kind
      case Waypoints => r == {}
      case Arms(k) => Waiting(k) in r && r - {Waiting(k)} == state - {Waiting(k)}
      case Ignored => r == state
  {
  }

  /** A string token fills exactly the first armed field, setting its GOT
      flag and no other; with no field armed nothing changes. */
  lemma FillRule(s: LocationState, token: string)
    ensures var r := Fill(s, token);
      var k := FirstArmed(s.state);
      (forall i :: 0 <= i < FIELDS ==> Field(r, i) == if i == k then Stored(i, token) else Field(s, i)) &&
      (k < FIELDS ==> Got(k) !in s.state && Got(k) in r.state && r.state - {Got(k)} == s.state) &&
      (k == FIELDS ==> r == s)
  {
    var r := Fill(s, token);
    var k := FirstArmed(s.state);
    forall i | 0 <= i < FIELDS
      ensures Field(r, i) == if i == k then Stored(i, token) else Field(s, i)
    {
      if k == 0 {} else if k == 1 {} else if k == 2 {} else if k == 3 {} else if k == 4 {}
    }
    FirstArmedIsFirst(s.state);
  }

  /** A location is reported exactly when all five GOT flags are set after
      the string; the index then goes up by one and the state is cleared. */
  lemma StringFoundEmits(s: LocationState, token: string)
    ensures var f := Fill(s, token);
      var r := StringFound(s, token);
      if GotLocation(f.state) then
        r.emitted == s.emitted + [Location(f.name, f.latitude, f.longitude, f.elevation, f.timestamp, s.index)] &&
        r.index == s.index + 1 && r.state == {}
      else
        r.emitted == s.emitted && r.index == s.index && r.state == f.state
  {
  }

  /** The tokens the tokenizer reports to these two callbacks. */
  datatype Token = Key(text: string) | Str(text: string)

  function Step(s: LocationState, t: Token): LocationState
  {
    match t
    case Key(k) => KeyFound(s, k)
    case Str(v) => StringFound(s, v)
  }

  function Run(s: LocationState, tokens: seq<Token>): LocationState
    decreases |tokens|
  {
    if tokens == [] then s else Run(Step(s, tokens[0]), tokens[1..])
  }

  /** Every report so far carries its position among the reports, and
      its name and timestamp fit their buffers. */
  ghost predicate Reports(s: LocationState)
  {
    s.index == |s.emitted| &&
    |s.name| <= LOCATION_BUF_LEN && |s.timestamp| <= LOCATION_BUF_LEN &&
    forall k :: 0 <= k < |s.emitted| ==>
      s.emitted[k].index == k &&
      |s.emitted[k].name| <= LOCATION_BUF_LEN && |s.emitted[k].timestamp| <= LOCATION_BUF_LEN
  }

  lemma StepKeepsReports(s: LocationState, t: Token)
    requires Reports(s)
    ensures Reports(Step(s, t))
  {
    if t.Str? {
      var f := Fill(s, t.text);
      var r := StringFound(s, t.text);
      FillRule(s, t.text);
      assert Field(f, 0) == f.name && Field(f, 4) == f.timestamp;
      if GotLocation(f.state) {
        assert r.emitted == s.emitted + [Location(f.name, f.latitude, f.longitude, f.elevation, f.timestamp, s.index)];
        forall k | 0 <= k < |r.emitted|
          ensures r.emitted[k].index == k
          ensures |r.emitted[k].name| <= LOCATION_BUF_LEN && |r.emitted[k].timestamp| <= LOCATION_BUF_LEN
        {
          if k < |s.emitted| {
            assert r.emitted[k] == s.emitted[k];
          }
        }
      }
    }
  }

  /** Over any token sequence from the initial state, the locations are
      reported with the indices 0, 1, 2, ... in order, the running index
      counts them, and every reported name and timestamp is at most 20
      characters long. */
  lemma RunReportsInOrder(tokens: seq<Token>)
    ensures Reports(Run(Initial(), tokens))
  {
    RunKeepsReports(Initial(), tokens);
  }

  lemma {:induction false} RunKeepsReports(s: LocationState, tokens: seq<Token>)
    requires Reports(s)
    ensures Reports(Run(s, tokens))
    decreases |tokens|
  {
    if tokens != [] {
      StepKeepsReports(s, tokens[0]);
      RunKeepsReports(Step(s, tokens[0]), tokens[1..]);
    }
  }

  /** The parsing context `location_parsing_context_state`, updated in
      place by the two callbacks; `emitted` records the user callback's
      calls. */
  class LocationParsingContext {
    var state: set<Flag>
    var name: string
    var latitude: string
    var longitude: string
    var elevation: string
    var timestamp: string
    var index: int
    var emitted: seq<Location>

    function Snapshot(): LocationState
      reads this
    {
      LocationState(state, name, latitude, longitude, elevation, timestamp, index, emitted)
    }

    constructor ()
      ensures Snapshot() == Initial()
    {
      state := {};
      index := 0;
      name, latitude, longitude, elevation, timestamp := "", "", "", "", "";
      emitted := [];
    }

    /** `on_location_key_found`. */
    method OnKeyFound(key: string)
      modifies this
      ensures Snapshot() == KeyFound(old(Snapshot()), key)
    {
      match Classify(key)
      case Waypoints =>
        state := {};
      case Arms(k) =>
        state := state + {Waiting(k)};
      case Ignored =>
    }

    /** `on_location_string_found`: fill the first armed field, then
        report once all five are filled. */
    method OnStringFound(token: string)
      modifies this
      ensures Snapshot() == StringFound(old(Snapshot()), token)
    {
      var n := if |token| < LOCATION_BUF_LEN then |token| else LOCATION_BUF_LEN;
      if Armed(state, 0) {
        name := token[..n];
        state := state + {Got(0)};
      } else if Armed(state, 1) {
        latitude := token;
        state := state + {Got(1)};
      } else if Armed(state, 2) {
        longitude := token;
        state := state + {Got(2)};
      } else if Armed(state, 3) {
        elevation := token;
        state := state + {Got(3)};
      } else if Armed(state, 4) {
        timestamp := token[..n];
        state := state + {Got(4)};
      }
      if GotLocation(state) {
        emitted := emitted + [Location(name, latitude, longitude, elevation, timestamp, index)];
        index := index + 1;
        state := {};
      }
    }
  }
}
