/**
 * Go's base64.StdEncoding (the standard alphabet of section 4 of RFC 4648,
 * with '=' padding) as DecodeString and EncodeToString use it. The
 * decoder is Go's default, non-strict one: carriage returns and line
 * feeds are skipped wherever they occur, and unused bits in the last
 * quantum are not checked.
 */
module Base64 {
  import opened Wrappers

  type byte = b: int | 0 <= b < 256
  type sextet = s: int | 0 <= s < 64

  /** The character that encodes a 6-bit group. */
  function Alphabet(s: sextet): (c: char)
    ensures c != '=' && c != '\r' && c != '\n'
  {
    if s < 26 then ('A' as int + s) as char
    else if s < 52 then ('a' as int + (s - 26)) as char
    else if s < 62 then ('0' as int + (s - 52)) as char
    else if s == 62 then '+'
    else '/'
  }

  /** The 6-bit group a character encodes, if it is in the alphabet. */
  function SextetOf(c: char): Option<sextet> {
    if 'A' <= c <= 'Z' then Some(c as int - 'A' as int)
    else if 'a' <= c <= 'z' then Some(c as int - 'a' as int + 26)
    else if '0' <= c <= '9' then Some(c as int - '0' as int + 52)
    else if c == '+' then Some(62)
    else if c == '/' then Some(63)
    else None
  }

  /** The alphabet and its inverse agree in both directions. */
  lemma SextetOfAlphabet(s: sextet)
    ensures SextetOf(Alphabet(s)) == Some(s)
  {
  }

  lemma AlphabetOfSextet(c: char)
    requires SextetOf(c).Some?
    ensures Alphabet(SextetOf(c).value) == c
  {
  }

  /** The three bytes a full quantum of four groups carries. */
  function Bytes3(a: sextet, b: sextet, c: sextet, d: sextet): seq<byte> {
    [a * 4 + b / 16, (b % 16) * 16 + c / 4, (c % 4) * 64 + d]
  }

  /** The input with every '\r' and '\n' removed, as the decoder skips them. */
  function StripNewlines(s: string): (r: string)
    ensures |r| <= |s|
    ensures '\r' !in r && '\n' !in r
  {
    if s == [] then []
    else (if s[0] == '\r' || s[0] == '\n' then [] else [s[0]]) + StripNewlines(s[1..])
  }

  /** The decoder's only failure: base64.CorruptInputError (its offset is not modelled). */
  datatype CorruptInput = CorruptInput

  /** Decodes input free of line breaks, quantum by quantum; only the last may be padded. */
  function DecodeQuanta(s: string): Result<seq<byte>, CorruptInput>
    decreases |s|
  {
    if s == [] then Ok([])
    else if |s| < 4 then Err(CorruptInput)
    else
      var a, b, c, d := SextetOf(s[0]), SextetOf(s[1]), SextetOf(s[2]), SextetOf(s[3]);
      if a.None? || b.None? then Err(CorruptInput)
      else if c.Some? && d.Some? then
        match DecodeQuanta(s[4..])
        case Err(e) => Err(e)
        case Ok(rest) => Ok(Bytes3(a.value, b.value, c.value, d.value) + rest)
      else if |s| > 4 then Err(CorruptInput)
      else if c.Some? && s[3] == '=' then Ok(Bytes3(a.value, b.value, c.value, 0)[..2])
      else if s[2] == '=' && s[3] == '=' then Ok(Bytes3(a.value, b.value, 0, 0)[..1])
      else Err(CorruptInput)
  }

  /** base64.StdEncoding.DecodeString. */
  function DecodeString(s: string): Result<seq<byte>, CorruptInput> {
    DecodeQuanta(StripNewlines(s))
  }

  /** The four characters of a full three-byte group. */
  function Quantum3(x: byte, y: byte, z: byte): string {
    [Alphabet(x / 4), Alphabet((x % 4) * 16 + y / 16), Alphabet((y % 16) * 4 + z / 64), Alphabet(z % 64)]
  }

  /** base64.StdEncoding.EncodeToString: full groups, then a padded final group. */
  function Encode(data: seq<byte>): (r: string)
    ensures |r| % 4 == 0
    ensures '\r' !in r && '\n' !in r
    decreases |data|
  {
    if data == [] then []
    else if |data| == 1 then
      [Alphabet(data[0] / 4), Alphabet((data[0] % 4) * 16), '=', '=']
    else if |data| == 2 then
      [Alphabet(data[0] / 4), Alphabet((data[0] % 4) * 16 + data[1] / 16), Alphabet((data[1] % 16) * 4), '=']
    else Quantum3(data[0], data[1], data[2]) + Encode(data[3..])
  }

  lemma {:induction false} StripNewlinesFree(s: string)
    requires '\r' !in s && '\n' !in s
    ensures StripNewlines(s) == s
    decreases |s|
  {
    if s != [] {
      assert s == [s[0]] + s[1..];
      assert s[0] != '\r' && s[0] != '\n';
      StripNewlinesFree(s[1..]);
    }
  }

  lemma {:induction false} StripNewlinesAppend(a: string, b: string)
    ensures StripNewlines(a + b) == StripNewlines(a) + StripNewlines(b)
    decreases |a|
  {
    if a == [] {
      assert a + b == b;
    } else {
      assert (a + b)[0] == a[0];
      assert (a + b)[1..] == a[1..] + b;
      StripNewlinesAppend(a[1..], b);
    }
  }

  /** Line breaks inserted anywhere in the input do not change what it decodes to. */
  lemma LineBreaksIgnored(a: string, b: string)
    ensures DecodeString(a + "\r\n" + b) == DecodeString(a + b)
  {
    StripNewlinesAppend(a + "\r\n", b);
    StripNewlinesAppend(a, "\r\n");
    StripNewlinesAppend(a, b);
    assert StripNewlines("\r\n") == [];
    assert StripNewlines(a) + [] == StripNewlines(a);
  }

  lemma Split16(p: int, q: int)
    requires 0 <= q < 16
    ensures (p * 16 + q) / 16 == p && (p * 16 + q) % 16 == q
  {
  }

  lemma Split4(p: int, q: int)
    requires 0 <= q < 4
    ensures (p * 4 + q) / 4 == p && (p * 4 + q) % 4 == q
  {
  }

  lemma OneByte(x: byte)
    ensures Bytes3(x / 4, (x % 4) * 16, 0, 0)[..1] == [x]
  {
    Split16(x % 4, 0);
  }

  lemma TwoBytes(x: byte, y: byte)
    ensures Bytes3(x / 4, (x % 4) * 16 + y / 16, (y % 16) * 4, 0)[..2] == [x, y]
  {
    Split16(x % 4, y / 16);
    Split4(y % 16, 0);
  }

  lemma FullQuantum(x: byte, y: byte, z: byte)
    ensures Bytes3(x / 4, (x % 4) * 16 + y / 16, (y % 16) * 4 + z / 64, z % 64) == [x, y, z]
  {
    Split16(x % 4, y / 16);
    Split4(y % 16, z / 64);
  }

  /** Decoding what Encode produced gives the bytes back. */
  lemma {:induction false} DecodeEncode(data: seq<byte>)
    ensures DecodeString(Encode(data)) == Ok(data)
    decreases |data|
  {
    StripNewlinesFree(Encode(data));
    DecodeQuantaEncode(data);
  }

  lemma {:induction false} DecodeQuantaEncode(data: seq<byte>)
    ensures DecodeQuanta(Encode(data)) == Ok(data)
    decreases |data|
  {
    if |data| == 1 {
      DecodeEncodeOne(data);
    } else if |data| == 2 {
      DecodeEncodeTwo(data);
    } else if |data| >= 3 {
      DecodeQuantaEncode(data[3..]);
      DecodeEncodeStep(data);
    }
  }

  lemma DecodeEncodeOne(data: seq<byte>)
    requires |data| == 1
    ensures DecodeQuanta(Encode(data)) == Ok(data)
  {
    var s := Encode(data);
    var a: sextet := data[0] / 4;
    var b: sextet := (data[0] % 4) * 16;
    assert s == [Alphabet(a), Alphabet(b), '=', '='];
    assert DecodeQuanta(s) == Ok(Bytes3(a, b, 0, 0)[..1]) by {
      SextetOfAlphabet(a);
      SextetOfAlphabet(b);
      assert SextetOf('=') == None;
    }
    OneByte(data[0]);
    assert data == [data[0]];
  }

  lemma DecodeEncodeTwo(data: seq<byte>)
    requires |data| == 2
    ensures DecodeQuanta(Encode(data)) == Ok(data)
  {
    EncodeTwo(data);
    DecodeTwo(data[0], data[1]);
    assert [data[0], data[1]] == data;
  }

  lemma DecodeTwo(x: byte, y: byte)
    ensures DecodeQuanta([Alphabet(x / 4), Alphabet((x % 4) * 16 + y / 16), Alphabet((y % 16) * 4), '='])
            == Ok([x, y])
  {
    var a: sextet := x / 4;
    var b: sextet := (x % 4) * 16 + y / 16;
    var c: sextet := (y % 16) * 4;
    var s := [Alphabet(a), Alphabet(b), Alphabet(c), '='];
    assert DecodeQuanta(s) == Ok(Bytes3(a, b, c, 0)[..2]) by {
      SextetOfAlphabet(a);
      SextetOfAlphabet(b);
      SextetOfAlphabet(c);
      assert SextetOf('=') == None;
    }
    TwoBytes(x, y);
  }

  lemma EncodeTwo(data: seq<byte>)
    requires |data| == 2
    ensures Encode(data)
            == [Alphabet(data[0] / 4), Alphabet((data[0] % 4) * 16 + data[1] / 16), Alphabet((data[1] % 16) * 4), '=']
  {
  }

  lemma EncodeFull(data: seq<byte>)
    requires |data| >= 3
    ensures Encode(data) == Quantum3(data[0], data[1], data[2]) + Encode(data[3..])
  {
  }

  lemma DecodeEncodeStep(data: seq<byte>)
    requires |data| >= 3
    requires DecodeQuanta(Encode(data[3..])) == Ok(data[3..])
    ensures DecodeQuanta(Encode(data)) == Ok(data)
  {
    EncodeFull(data);
    DecodeQuantumThen(data[0], data[1], data[2], data[3..], Encode(data[3..]));
    SplitFirstThree(data);
  }

  lemma SplitFirstThree(data: seq<byte>)
    requires |data| >= 3
    ensures [data[0], data[1], data[2]] + data[3..] == data
  {
  }

  lemma DecodeQuantumThen(x: byte, y: byte, z: byte, rest: seq<byte>, t: string)
    requires DecodeQuanta(t) == Ok(rest)
    ensures DecodeQuanta(Quantum3(x, y, z) + t) == Ok([x, y, z] + rest)
  {
    QuantumDecodes(x, y, z);
    DecodeQuantaPrefix(Quantum3(x, y, z), t);
  }

  lemma QuantumDecodes(x: byte, y: byte, z: byte)
    ensures var q := Quantum3(x, y, z);
      && SextetOf(q[0]).Some? && SextetOf(q[1]).Some? && SextetOf(q[2]).Some? && SextetOf(q[3]).Some?
      && Bytes3(SextetOf(q[0]).value, SextetOf(q[1]).value, SextetOf(q[2]).value, SextetOf(q[3]).value) == [x, y, z]
  {
    SextetOfAlphabet(x / 4);
    SextetOfAlphabet((x % 4) * 16 + y / 16);
    SextetOfAlphabet((y % 16) * 4 + z / 64);
    SextetOfAlphabet(z % 64);
    FullQuantum(x, y, z);
  }

  /** A full unpadded quantum in front decodes to its three bytes in front. */
  lemma DecodeQuantaPrefix(q: string, t: string)
    requires |q| == 4
    requires SextetOf(q[0]).Some? && SextetOf(q[1]).Some? && SextetOf(q[2]).Some? && SextetOf(q[3]).Some?
    ensures DecodeQuanta(q + t)
            == match DecodeQuanta(t)
               case Err(e) => Err(e)
               case Ok(rest) => Ok(Bytes3(SextetOf(q[0]).value, SextetOf(q[1]).value, SextetOf(q[2]).value, SextetOf(q[3]).value) + rest)
  {
    var s := q + t;
    assert s[0] == q[0] && s[1] == q[1] && s[2] == q[2] && s[3] == q[3];
    assert s[4..] == t;
  }

  /** Decoded input is a whole number of quanta once line breaks are removed. */
  lemma {:induction false} DecodedLength(s: string)
    requires DecodeQuanta(s).Ok?
    ensures |s| % 4 == 0
    ensures |DecodeQuanta(s).value| <= |s| / 4 * 3
    decreases |s|
  {
    if s != [] {
      var c, d := SextetOf(s[2]), SextetOf(s[3]);
      if c.Some? && d.Some? {
        var rest := DecodeQuanta(s[4..]);
        assert rest.Ok? && |DecodeQuanta(s).value| == 3 + |rest.value|;
        DecodedLength(s[4..]);
        assert (|s| - 4) / 4 == |s| / 4 - 1;
      } else {
        assert |s| == 4;
      }
    }
  }

  /** The example from the adapter's tests: "SGVsbG8=" is "Hello". */
  lemma DecodeHello()
    ensures DecodeString("SGVsbG8=") == Ok([72, 101, 108, 108, 111])
  {
    var s := "SGVsbG8=";
    assert DecodeString(s) == DecodeQuanta(s) by {
      StripNewlinesFree(s);
    }
    assert DecodeQuanta(s) == Ok([72, 101, 108] + [108, 111]) by {
      DecodeFirstQuantum();
      DecodeLastQuantum();
    }
    assert [72, 101, 108] + [108, 111] == [72, 101, 108, 108, 111];
  }

  lemma DecodeFirstQuantum()
    ensures DecodeQuanta("SGVsbG8=") == match DecodeQuanta("bG8=")
      case Ok(rest) => Ok([72, 101, 108] + rest)
      case Err(e) => Err(e)
  {
    var s := "SGVsbG8=";
    assert s[4..] == "bG8=";
    assert SextetOf(s[0]) == Some(18) && SextetOf(s[1]) == Some(6);
    assert SextetOf(s[2]) == Some(21) && SextetOf(s[3]) == Some(44);
    assert Bytes3(18, 6, 21, 44) == [72, 101, 108];
  }

  lemma DecodeLastQuantum()
    ensures DecodeQuanta("bG8=") == Ok([108, 111])
  {
    var s := "bG8=";
    assert SextetOf(s[0]) == Some(27) && SextetOf(s[1]) == Some(6) && SextetOf(s[2]) == Some(60);
    assert SextetOf(s[3]) == None;
    assert Bytes3(27, 6, 60, 0)[..2] == [108, 111];
  }
}
