/** Percent-coding of Assuan arguments and data lines, over strings of 16-bit units. */
module AssuanCodec {
  import opened Base

  type Unit = u: int | 0 <= u < 0x1_0000

  const PERCENT: Unit := '%' as int
  const LF: Unit := '\n' as int
  const CR: Unit := '\r' as int

  /** `QChar::toLatin1`: a unit beyond Latin-1 becomes zero. */
  function Latin1(u: Unit): Unit {
    if u <= 0xFF then u else 0
  }

  function HexChar(d: int): Unit
    requires 0 <= d < 16
  {
    if d < 10 then '0' as int + d else 'A' as int + d - 10
  }

  function EncodeUnit(u: Unit): seq<Unit> {
    var c := Latin1(u);
    if c == PERCENT || c == LF || c == CR then [PERCENT, HexChar(c / 16), HexChar(c % 16)] else [u]
  }

  function Encode(s: seq<Unit>): seq<Unit> {
    if s == [] then [] else EncodeUnit(s[0]) + Encode(s[1..])
  }

  function HexValue(u: Unit): Option<int> {
    if '0' as int <= u <= '9' as int then Some(u - '0' as int)
    else if 'A' as int <= u <= 'F' as int then Some(u - 'A' as int + 10)
    else if 'a' as int <= u <= 'f' as int then Some(u - 'a' as int + 10)
    else None
  }

  /** Two units read as a hexadecimal number. The library also accepts some pairs that are not two digits (signs and
      blanks); `odd` says which, and what unit they stand for. */
  function PairValue(a: Unit, b: Unit, odd: (Unit, Unit) -> Option<Unit>): Option<Unit> {
    if HexValue(a).Some? && HexValue(b).Some? then Some(HexValue(a).value * 16 + HexValue(b).value) else odd(a, b)
  }

  function Decode(s: seq<Unit>, odd: (Unit, Unit) -> Option<Unit>): seq<Unit> {
    if s == [] then []
    else if s[0] == PERCENT && 2 < |s| && PairValue(s[1], s[2], odd).Some? then
      [PairValue(s[1], s[2], odd).value] + Decode(s[3..], odd)
    else [s[0]] + Decode(s[1..], odd)
  }

  lemma HexDigits(c: Unit)
    requires c <= 0xFF
    ensures HexValue(HexChar(c / 16)) == Some(c / 16) && HexValue(HexChar(c % 16)) == Some(c % 16)
    ensures HexChar(c / 16) != LF && HexChar(c / 16) != CR && HexChar(c % 16) != LF && HexChar(c % 16) != CR
  {
  }

  /** Decoding undoes encoding, for every string. */
  lemma {:induction false} DecodeEncode(s: seq<Unit>, odd: (Unit, Unit) -> Option<Unit>)
    ensures Decode(Encode(s), odd) == s
  {
    if s != [] {
      var e, rest := EncodeUnit(s[0]), Encode(s[1..]);
      DecodeEncode(s[1..], odd);
      assert e + rest == Encode(s);
      if |e| == 3 {
        HexDigits(s[0]);
        assert (e + rest)[3..] == rest;
      } else {
        assert (e + rest)[1..] == rest;
      }
    }
  }

  /** An encoded string has no line break in it, so a data line is never split. */
  lemma {:induction false} EncodedIsOneLine(s: seq<Unit>)
    ensures LF !in Encode(s) && CR !in Encode(s)
  {
    if s != [] {
      EncodedIsOneLine(s[1..]);
      HexDigits(Latin1(s[0]));
    }
  }

  lemma EncodeNext(s: seq<Unit>, i: nat)
    requires i < |s|
    ensures Encode(s[i..]) == EncodeUnit(s[i]) + Encode(s[i + 1..])
  {
    assert s[i..][1..] == s[i + 1..];
  }

  method AssuanEncode(input: seq<Unit>) returns (result: seq<Unit>)
    ensures result == Encode(input)
  {
    hide Encode, Latin1, HexChar;
    assert input[0..] == input;
    result := [];
    var i := 0;
    while i < |input|
      invariant 0 <= i <= |input|
      invariant result + Encode(input[i..]) == Encode(input)
    {
      var c := Latin1(input[i]);
      ghost var before, rest := result, Encode(input[i + 1..]);
      EncodeNext(input, i);
      if c == PERCENT || c == LF || c == CR {
        result := result + [PERCENT];
        result := result + [HexChar(c / 16)];
        result := result + [HexChar(c % 16)];
      } else {
        result := result + [input[i]];
      }
      assert result == before + EncodeUnit(input[i]);
      assert before + (EncodeUnit(input[i]) + rest) == (before + EncodeUnit(input[i])) + rest;
      i := i + 1;
    }
    EncodeNothing(input);
  }

  lemma EncodeNothing(s: seq<Unit>)
    ensures Encode(s[|s|..]) == []
  {
  }

  method AssuanDecode(input: seq<Unit>, odd: (Unit, Unit) -> Option<Unit>) returns (result: seq<Unit>)
    ensures result == Decode(input, odd)
  {
    result := [];
    var i := 0;
    while i < |input|
      invariant 0 <= i <= |input|
      invariant result + Decode(input[i..], odd) == Decode(input, odd)
    {
      assert input[i..][1..] == input[i + 1..];
      if input[i] == PERCENT && i + 2 < |input| {
        var code := PairValue(input[i + 1], input[i + 2], odd);
        if code.Some? {
          assert input[i..][3..] == input[i + 3..];
          result := result + [code.value];
          i := i + 3;
          continue;
        }
      }
      result := result + [input[i]];
      i := i + 1;
    }
  }
}
