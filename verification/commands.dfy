/** Command packets (`ParameterBuffer` in src/main.cpp): the first byte is
    the command code, and up to three following characters are read as a
    decimal argument with C `atoi` and kept in a `uint8_t`. */
module Commands {
  import opened Bytes
  import opened Decimal

  /** The code that stands for "no command": an empty packet gets it, and
      a packet whose first byte is this character is treated the same. */
  const IllegalCommand: char := '`'

  /** At most this many argument characters are parsed. */
  const MaxArgumentLength: nat := 3

  /** A parsed packet. `length` is the number of argument characters
      parsed, `hasParameter` whether any followed the code. */
  datatype Parameters = Parameters(command: char, hasParameter: bool, length: nat, argument: Byte)

  /** `isspace` of the C locale. */
  predicate IsSpace(ch: char) {
    ch == ' ' || 9 <= ch as int <= 13
  }

  /** The longest prefix of `s` made of digits. */
  function DigitPrefix(s: string): (p: string)
    ensures AllDigits(p) && p <= s
    ensures |p| < |s| ==> !IsDigit(s[|p|])
    decreases |s|
  {
    if |s| == 0 || !IsDigit(s[0]) then [] else [s[0]] + DigitPrefix(s[1..])
  }

  /** C `atoi`: leading white space is skipped, an optional sign is read,
      then the digits that follow; anything else ends the number. */
  function Atoi(s: string): int
    decreases |s|
  {
    if |s| > 0 && IsSpace(s[0]) then Atoi(s[1..])
    else if |s| > 0 && s[0] == '-' then -(Value(DigitPrefix(s[1..])) as int)
    else if |s| > 0 && s[0] == '+' then Value(DigitPrefix(s[1..]))
    else Value(DigitPrefix(s))
  }

  /** `ParameterBuffer(buf, len)`. The code is the first byte, or '`' for
      an empty packet; a parameter is present iff more than one byte
      arrived; the argument is `atoi` of at most three following
      characters, truncated to a byte, and 0 without a parameter. */
  function Parse(buf: string): (p: Parameters)
    ensures p.command == if |buf| > 0 then buf[0] else IllegalCommand
    ensures p.hasParameter <==> |buf| > 1
    ensures p.hasParameter ==> p.length == if |buf| - 1 > 3 then 3 else |buf| - 1
    ensures !p.hasParameter ==> p.length == 0 && p.argument == 0
    ensures p.hasParameter ==> (p.argument - Atoi(buf[1..1 + p.length])) % 0x100 == 0
  {
    var command := if |buf| > 0 then buf[0] else IllegalCommand;
    if |buf| <= 1 then Parameters(command, false, 0, 0)
    else
      var length := if |buf| - 1 > MaxArgumentLength then MaxArgumentLength else |buf| - 1;
      Parameters(command, true, length, ToByte(Atoi(buf[1..1 + length])))
  }

  /** `hasCommand`: false exactly for the illegal code. */
  predicate HasCommand(p: Parameters) {
    p.command != IllegalCommand
  }

  /** A packet has a command iff it is non-empty and its first byte is not
      '`': the empty packet and a literal '`' are indistinguishable. */
  lemma HasCommandIffLegalFirstByte(buf: string)
    ensures HasCommand(Parse(buf)) <==> |buf| > 0 && buf[0] != IllegalCommand
    ensures !HasCommand(Parse(buf)) ==> Parse(buf).command == Parse([]).command
  {
  }

  /** A packet carrying `code` and, if given, a byte argument in decimal. */
  function Packet(code: char, arg: Option<Byte>): string {
    match arg
    case None => [code]
    case Some(v) => [code] + Dec(v)
  }

  lemma {:induction false} DigitPrefixOfDigits(s: string)
    requires AllDigits(s)
    ensures DigitPrefix(s) == s
    decreases |s|
  {
    if |s| > 0 {
      DigitPrefixOfDigits(s[1..]);
      assert [s[0]] + s[1..] == s;
    }
  }

  /** Parsing a packet built from a code and an optional byte argument
      gives back the code and the argument. */
  lemma ParsePacket(code: char, arg: Option<Byte>)
    ensures Parse(Packet(code, arg)).command == code
    ensures HasCommand(Parse(Packet(code, arg))) <==> code != IllegalCommand
    ensures Parse(Packet(code, arg)).hasParameter <==> arg.Some?
    ensures arg.Some? ==> Parse(Packet(code, arg)).argument == arg.value
  {
    if arg.Some? {
      var v := arg.value;
      var buf := Packet(code, arg);
      assert Pow10(3) == 1000;
      DecLength(v, 3);
      assert buf[1..] == Dec(v);
      var p := Parse(buf);
      assert buf[1..1 + p.length] == Dec(v);
      DigitPrefixOfDigits(Dec(v));
      ValueOfDec(v);
      assert Dec(v)[0] != '-' && Dec(v)[0] != '+' && !IsSpace(Dec(v)[0]);
    }
  }

  /** Only the first three argument characters count: "1234" reads as 123. */
  lemma ArgumentClippedToThree(code: char)
    ensures Parse([code] + "1234").argument == 123
  {
    var buf := [code] + "1234";
    assert buf[1..4] == "123";
    assert DigitPrefix("123") == "123" by { DigitPrefixOfDigits("123"); }
    assert Value("123") == 123 by {
      assert "123"[..2] == "12";
      assert "12"[..1] == "1";
      assert "1"[..0] == "";
    }
  }

  /** Three-digit arguments above 255 wrap modulo 256: "300" reads as 44. */
  lemma ArgumentWraps(code: char)
    ensures Parse([code] + "300").argument == 44
  {
    var buf := [code] + "300";
    assert buf[1..4] == "300";
    assert DigitPrefix("300") == "300" by { DigitPrefixOfDigits("300"); }
    assert Value("300") == 300 by {
      assert "300"[..2] == "30";
      assert "30"[..1] == "3";
      assert "3"[..0] == "";
    }
  }
}
