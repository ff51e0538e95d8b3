/** The status line (`DoorHandler::Response` and `getState`): fifteen
    `KEY=value` fields after a leading `!`, separated by commas, in a fixed
    order. A reader for that line is given as its inverse. */
module Status {
  import opened Bytes
  import opened Decimal
  import opened Settings
  import opened Position

  /** Size of the character buffer the line is formatted into. */
  const ResponseLength: nat := 250

  /** The fifteen values handed to the `Response` constructor. */
  datatype Response = Response(
    id: Byte, state: Byte, position: Byte, topPosition: Byte,
    upperThreshold: Byte, lowerThreshold: Byte, light: Byte,
    automated: Byte, ldrEnabled: Byte, timeEnabled: Byte,
    positionSaved: Byte, moveTime: Byte,
    closingMinute: Word16, openingMinute: Word16, minuteOffset: Byte)

  /** The keys of the line, in the order they are printed. */
  const Keys: seq<string> :=
    ["ID", "STATE", "MTR_POS", "TOPPOS", "UL", "LL", "LIT", "AUTO", "LDR",
     "TIME", "MTRSAVE", "MTRTIME", "CLOSE", "OPEN", "MOFF"]

  /** The printed values, in key order. The offset code is printed doubled,
      computed as an `int` so it is never truncated. */
  function Shown(r: Response): (vs: seq<nat>)
    ensures |vs| == |Keys|
  {
    [r.id, r.state, r.position, r.topPosition, r.upperThreshold,
     r.lowerThreshold, r.light, r.automated, r.ldrEnabled, r.timeEnabled,
     r.positionSaved, r.moveTime, r.closingMinute, r.openingMinute,
     r.minuteOffset * 2]
  }

  /** `KEY=value` for each key and value. */
  function Tagged(keys: seq<string>, vals: seq<nat>): (fs: seq<string>)
    requires |keys| == |vals|
    ensures |fs| == |keys|
    decreases |keys|
  {
    if |keys| == 0 then []
    else [keys[0] + "=" + Dec(vals[0])] + Tagged(keys[1..], vals[1..])
  }

  /** The fields separated by commas. */
  function Join(fs: seq<string>): string
    requires |fs| > 0
    decreases |fs|
  {
    if |fs| == 1 then fs[0] else fs[0] + "," + Join(fs[1..])
  }

  /** The formatted line: `!ID=..,STATE=..,...,MOFF=..`. */
  function Format(r: Response): (line: string)
    ensures |line| >= 1 && line[0] == '!'
    ensures Split(line[1..]) == Tagged(Keys, Shown(r))
  {
    var fs := Tagged(Keys, Shown(r));
    KeysShape();
    TaggedNoComma(Keys, Shown(r));
    SplitJoin(fs);
    assert ("!" + Join(fs))[1..] == Join(fs);
    "!" + Join(fs)
  }

  /** `getLength`: the character count `sprintf` returns, kept in a
      `uint8_t`. It is the full length of the line, and the line with its
      terminating NUL fits the 250-character buffer. */
  function Length(r: Response): (n: Byte)
    ensures n == |Format(r)|
    ensures n + 1 <= ResponseLength
  {
    FormatFits(r);
    ToByte(|Format(r)|)
  }

  /** `getState`: the handler's fields in the order the constructor takes
      them, closing minute before opening minute, flags as 0 or 1. */
  function GetState(h: Handler, light: Byte): (r: Response)
    ensures r.id == h.cfg.id && r.state == DoorState(h.cfg) && r.light == light
    ensures r.position == h.cfg.position && r.topPosition == h.cfg.topPosition
    ensures r.upperThreshold == h.cfg.upperThreshold && r.lowerThreshold == h.cfg.lowerThreshold
    ensures r.automated <= 1 && ByteBool(r.automated) == h.cfg.automated
    ensures r.ldrEnabled <= 1 && ByteBool(r.ldrEnabled) == h.cfg.ldrEnabled
    ensures r.timeEnabled <= 1 && ByteBool(r.timeEnabled) == h.cfg.timeEnabled
    ensures r.positionSaved <= 1 && ByteBool(r.positionSaved) == h.cfg.positionSaved
    ensures r.moveTime == h.cfg.moveTime && r.minuteOffset == h.cfg.minuteOffset
    ensures r.closingMinute == h.cfg.minuteToClose && r.openingMinute == h.cfg.minuteToOpen
  {
    var c := h.cfg;
    Response(c.id, DoorState(c), c.position, c.topPosition,
             c.upperThreshold, c.lowerThreshold, light,
             BoolByte(c.automated), BoolByte(c.ldrEnabled), BoolByte(c.timeEnabled),
             BoolByte(c.positionSaved), c.moveTime,
             c.minuteToClose, c.minuteToOpen, c.minuteOffset)
  }

  // ---------------------------------------------------------------------
  // Reading the line back.

  /** The comma-separated pieces of a string. */
  function Split(s: string): (parts: seq<string>)
    ensures |parts| >= 1
    decreases |s|
  {
    if |s| == 0 then [""]
    else
      var rest := Split(s[1..]);
      if s[0] == ',' then [""] + rest else [[s[0]] + rest[0]] + rest[1..]
  }

  /** The value of the field `key=digits`, if `f` has that shape. */
  function FieldValue(f: string, key: string): Option<nat> {
    var n := |key| + 1;
    if |f| > n && f[..n] == key + "=" && AllDigits(f[n..]) then Some(Value(f[n..]))
    else None
  }

  /** The values of fields with the given keys, in order. */
  function FieldValues(fs: seq<string>, keys: seq<string>): Option<seq<nat>>
    requires |fs| == |keys|
    decreases |fs|
  {
    if |fs| == 0 then Some([])
    else match (FieldValue(fs[0], keys[0]), FieldValues(fs[1..], keys[1..]))
      case (Some(v), Some(vs)) => Some([v] + vs)
      case _ => None
  }

  /** The response printing `vs`, if every value is in its field's range. */
  function FromShown(vs: seq<nat>): Option<Response>
    requires |vs| == |Keys|
  {
    if (forall i :: 0 <= i < 12 ==> vs[i] < 0x100) &&
       vs[12] < 0x1_0000 && vs[13] < 0x1_0000 &&
       vs[14] < 0x200 && vs[14] % 2 == 0
    then Some(Response(vs[0], vs[1], vs[2], vs[3], vs[4], vs[5], vs[6], vs[7],
                       vs[8], vs[9], vs[10], vs[11], vs[12], vs[13], vs[14] / 2))
    else None
  }

  /** Reader of a status line. */
  function Parse(line: string): Option<Response> {
    if |line| == 0 || line[0] != '!' then None
    else
      var parts := Split(line[1..]);
      if |parts| != |Keys| then None
      else match FieldValues(parts, Keys)
        case Some(vs) => if |vs| == |Keys| then FromShown(vs) else None
        case None => None
  }

  // ---------------------------------------------------------------------
  // Proofs.

  predicate NoComma(s: string) {
    forall i :: 0 <= i < |s| ==> s[i] != ','
  }

  lemma {:induction false} SplitNoComma(a: string)
    requires NoComma(a)
    ensures Split(a) == [a]
    decreases |a|
  {
    if |a| > 0 {
      SplitNoComma(a[1..]);
      assert [a[0]] + a[1..] == a;
    }
  }

  lemma {:induction false} SplitAfter(a: string, b: string)
    requires NoComma(a)
    ensures Split(a + "," + b) == [a] + Split(b)
    decreases |a|
  {
    var s := a + "," + b;
    if |a| == 0 {
      assert s[1..] == b;
    } else {
      assert s[1..] == a[1..] + "," + b;
      SplitAfter(a[1..], b);
      assert [a[0]] + a[1..] == a;
    }
  }

  /** Splitting joined comma-free fields gives the fields back. */
  lemma {:induction false} SplitJoin(fs: seq<string>)
    requires |fs| > 0
    requires forall i :: 0 <= i < |fs| ==> NoComma(fs[i])
    ensures Split(Join(fs)) == fs
    decreases |fs|
  {
    if |fs| == 1 {
      SplitNoComma(fs[0]);
    } else {
      SplitAfter(fs[0], Join(fs[1..]));
      SplitJoin(fs[1..]);
    }
  }

  lemma FieldRoundTrip(key: string, v: nat)
    ensures FieldValue(key + "=" + Dec(v), key) == Some(v)
  {
    var f := key + "=" + Dec(v);
    var n := |key| + 1;
    assert f[..n] == key + "=";
    assert f[n..] == Dec(v);
    ValueOfDec(v);
  }

  lemma {:induction false} TaggedRoundTrip(keys: seq<string>, vals: seq<nat>)
    requires |keys| == |vals|
    ensures FieldValues(Tagged(keys, vals), keys) == Some(vals)
    decreases |keys|
  {
    if |keys| > 0 {
      var fs := Tagged(keys, vals);
      assert fs[1..] == Tagged(keys[1..], vals[1..]);
      FieldRoundTrip(keys[0], vals[0]);
      TaggedRoundTrip(keys[1..], vals[1..]);
      assert [vals[0]] + vals[1..] == vals;
    }
  }

  lemma {:induction false} TaggedNoComma(keys: seq<string>, vals: seq<nat>)
    requires |keys| == |vals|
    requires forall i :: 0 <= i < |keys| ==> NoComma(keys[i])
    ensures forall i :: 0 <= i < |keys| ==> NoComma(Tagged(keys, vals)[i])
    decreases |keys|
  {
    if |keys| > 0 {
      TaggedNoComma(keys[1..], vals[1..]);
      var f := keys[0] + "=" + Dec(vals[0]);
      assert forall j :: |keys[0]| + 1 <= j < |f| ==> IsDigit(f[j]);
    }
  }

  lemma KeysShape()
    ensures forall i :: 0 <= i < |Keys| ==> NoComma(Keys[i]) && |Keys[i]| <= 7
  {
    forall i | 0 <= i < |Keys|
      ensures NoComma(Keys[i]) && |Keys[i]| <= 7
    {
    }
  }

  lemma FromShownRoundTrip(r: Response)
    ensures FromShown(Shown(r)) == Some(r)
  {
    var vs := Shown(r);
    assert forall i :: 0 <= i < 12 ==> vs[i] < 0x100;
  }

  /** Reading a formatted line gives back exactly the response it was
      formatted from: the field order, the keys and the doubled offset
      code lose nothing. */
  lemma ParseFormat(r: Response)
    ensures Parse(Format(r)) == Some(r)
  {
    var vs := Shown(r);
    var fs := Tagged(Keys, vs);
    var line := Format(r);
    KeysShape();
    TaggedNoComma(Keys, vs);
    SplitJoin(fs);
    assert line[1..] == Join(fs);
    TaggedRoundTrip(Keys, vs);
    FromShownRoundTrip(r);
  }

  lemma {:induction false} SplitHeadIsPrefix(s: string)
    ensures Split(s)[0] <= s
    decreases |s|
  {
    if |s| > 0 && s[0] != ',' {
      SplitHeadIsPrefix(s[1..]);
    }
  }

  /** Any line the reader accepts starts with `!ID=`. */
  lemma AcceptedLineStartsWithId(line: string)
    requires Parse(line).Some?
    ensures |line| >= 4 && line[..4] == "!ID="
  {
    var parts := Split(line[1..]);
    SplitHeadIsPrefix(line[1..]);
    assert FieldValue(parts[0], Keys[0]).Some?;
    assert parts[0][..3] == "ID=";
    assert line[1..4] == parts[0][..3];
  }

  /** The formatted line starts with `!ID=`. */
  lemma FormatStartsWithId(r: Response)
    ensures |Format(r)| >= 4 && Format(r)[..4] == "!ID="
  {
    ParseFormat(r);
    AcceptedLineStartsWithId(Format(r));
  }

  lemma {:induction false} JoinLength(fs: seq<string>, m: nat)
    requires |fs| > 0
    requires forall i :: 0 <= i < |fs| ==> |fs[i]| <= m
    ensures |Join(fs)| <= |fs| * (m + 1) - 1
    decreases |fs|
  {
    if |fs| > 1 {
      JoinLength(fs[1..], m);
    }
  }

  lemma {:induction false} TaggedLength(keys: seq<string>, vals: seq<nat>, k: nat, d: nat)
    requires |keys| == |vals| && 1 <= d
    requires forall i :: 0 <= i < |keys| ==> |keys[i]| <= k && vals[i] < Pow10(d)
    ensures forall i :: 0 <= i < |keys| ==> |Tagged(keys, vals)[i]| <= k + 1 + d
    decreases |keys|
  {
    if |keys| > 0 {
      DecLength(vals[0], d);
      TaggedLength(keys[1..], vals[1..], k, d);
    }
  }

  /** Every printed value has at most five digits and every key at most
      seven characters, so the line is at most 210 characters long. */
  lemma FormatFits(r: Response)
    ensures |Format(r)| <= 210
  {
    var vs := Shown(r);
    assert Pow10(5) == 100000;
    assert forall i :: 0 <= i < |vs| ==> vs[i] < Pow10(5);
    KeysShape();
    TaggedLength(Keys, vs, 7, 5);
    var fs := Tagged(Keys, vs);
    assert |fs| == 15;
    JoinLength(fs, 13);
    assert |Join(fs)| <= 209;
    assert Format(r) == "!" + Join(fs);
  }

  /** The status line of a handler reports its fields: the state code, the
      closing minute under CLOSE, the opening minute under OPEN and the
      offset code under MOFF. */
  lemma StatusReportsHandler(h: Handler, light: Byte)
    ensures var p := Parse(Format(GetState(h, light)));
            p.Some? &&
            p.value.id == h.cfg.id &&
            p.value.state == DoorState(h.cfg) &&
            p.value.closingMinute == h.cfg.minuteToClose &&
            p.value.openingMinute == h.cfg.minuteToOpen &&
            p.value.minuteOffset == h.cfg.minuteOffset &&
            p.value.light == light
  {
    ParseFormat(GetState(h, light));
  }
}
