/** Section 4 of RFC 4648: the base64 encoding field ciphertexts are stored in. */
module Base64 {
  import opened Results

  newtype Byte = x: int | 0 <= x < 256

  /** The character of a six-bit group. */
  function Char(v: int): char
    requires 0 <= v < 64
  {
    if v < 26 then 'A' + v as char
    else if v < 52 then 'a' + (v - 26) as char
    else if v < 62 then '0' + (v - 52) as char
    else if v == 62 then '+' else '/'
  }

  /** Its inverse, None outside the alphabet. */
  function Value(c: char): (v: Option<int>)
    ensures v.Some? ==> 0 <= v.value < 64
  {
    if 'A' <= c <= 'Z' then Some(c as int - 'A' as int)
    else if 'a' <= c <= 'z' then Some(c as int - 'a' as int + 26)
    else if '0' <= c <= '9' then Some(c as int - '0' as int + 52)
    else if c == '+' then Some(62) else if c == '/' then Some(63) else None
  }

  lemma CharValue(v: int)
    requires 0 <= v < 64
    ensures Value(Char(v)) == Some(v) && Char(v) != '='
  {
  }

  function Encode(bytes: seq<Byte>): string {
    if |bytes| == 0 then ""
    else if |bytes| == 1 then
      var a := bytes[0] as int;
      [Char(a / 4), Char(a % 4 * 16), '=', '=']
    else if |bytes| == 2 then
      var a, b := bytes[0] as int, bytes[1] as int;
      [Char(a / 4), Char(a % 4 * 16 + b / 16), Char(b % 16 * 4), '=']
    else
      var a, b, c := bytes[0] as int, bytes[1] as int, bytes[2] as int;
      [Char(a / 4), Char(a % 4 * 16 + b / 16), Char(b % 16 * 4 + c / 64), Char(c % 64)] + Encode(bytes[3..])
  }

  /** Strict decoding: whole quanta, alphabet characters only, padding only at the end. */
  function Decode(s: string): Option<seq<Byte>> {
    if |s| == 0 then Some([])
    else if |s| < 4 then None
    else
      var p, q := Value(s[0]), Value(s[1]);
      if p.None? || q.None? then None
      else
        var a := (p.value * 4 + q.value / 16) as Byte;
        if s[2] == '=' then (if s[3] == '=' && |s| == 4 then Some([a]) else None)
        else
          var r := Value(s[2]);
          if r.None? then None
          else
            var b := (q.value % 16 * 16 + r.value / 4) as Byte;
            if s[3] == '=' then (if |s| == 4 then Some([a, b]) else None)
            else
              var t, rest := Value(s[3]), Decode(s[4..]);
              if t.None? || rest.None? then None
              else Some([a, b, (r.value % 4 * 64 + t.value) as Byte] + rest.value)
  }

  lemma Quantum(a: int, b: int, c: int)
    requires 0 <= a < 256 && 0 <= b < 256 && 0 <= c < 256
    ensures a / 4 * 4 + (a % 4 * 16 + b / 16) / 16 == a
    ensures (a % 4 * 16 + b / 16) % 16 * 16 + (b % 16 * 4 + c / 64) / 4 == b
    ensures (b % 16 * 4 + c / 64) % 4 * 64 + c % 64 == c
  {
  }

  lemma DecodeOne(a: Byte)
    ensures Decode(Encode([a])) == Some([a])
  {
    hide Char, Value;
    Quantum(a as int, 0, 0);
    CharValue(a as int / 4);
    CharValue(a as int % 4 * 16);
  }

  lemma DecodeTwo(a: Byte, b: Byte)
    ensures Decode(Encode([a, b])) == Some([a, b])
  {
    hide Char, Value;
    Quantum(a as int, b as int, 0);
    CharValue(a as int / 4);
    CharValue(a as int % 4 * 16 + b as int / 16);
    CharValue(b as int % 16 * 4);
  }

  /** A full quantum decodes to its three bytes, whatever follows it. */
  lemma DecodeThree(a: Byte, b: Byte, c: Byte, rest: string)
    requires Decode(rest).Some?
    ensures var x, y, z := a as int, b as int, c as int;
            Decode([Char(x / 4), Char(x % 4 * 16 + y / 16), Char(y % 16 * 4 + z / 64), Char(z % 64)] + rest)
            == Some([a, b, c] + Decode(rest).value)
  {
    hide Char, Value;
    var x, y, z := a as int, b as int, c as int;
    Quantum(x, y, z);
    CharValue(x / 4);
    CharValue(x % 4 * 16 + y / 16);
    CharValue(y % 16 * 4 + z / 64);
    CharValue(z % 64);
    var four := [Char(x / 4), Char(x % 4 * 16 + y / 16), Char(y % 16 * 4 + z / 64), Char(z % 64)];
    assert (four + rest)[4..] == rest;
  }

  lemma {:induction false} DecodeEncode(bytes: seq<Byte>)
    ensures Decode(Encode(bytes)) == Some(bytes)
  {
    hide Char, Decode;
    if |bytes| == 0 {
      DecodeEmpty();
    } else if |bytes| == 1 {
      DecodeOne(bytes[0]);
      assert bytes == [bytes[0]];
    } else if |bytes| == 2 {
      DecodeTwo(bytes[0], bytes[1]);
      assert bytes == [bytes[0], bytes[1]];
    } else {
      DecodeEncode(bytes[3..]);
      DecodeThree(bytes[0], bytes[1], bytes[2], Encode(bytes[3..]));
      assert bytes == [bytes[0], bytes[1], bytes[2]] + bytes[3..];
    }
  }

  lemma DecodeEmpty()
    ensures Decode("") == Some([])
  {
  }

  /** Test vectors of section 10 of RFC 4648, and the last two characters of the alphabet. */
  lemma {:induction false} TestVectors()
    ensures Encode([102, 111, 111, 98, 97, 114]) == "Zm9vYmFy"
    ensures Encode([102, 111]) == "Zm8=" && Encode([102]) == "Zg==" && Encode([251, 255]) == "+/8="
  {
    hide Encode, Char;
    WholeQuantum();
    ShortQuanta();
  }

  lemma {:induction false} WholeQuantum()
    ensures Encode([102, 111, 111, 98, 97, 114]) == "Zm9vYmFy"
  {
    hide Encode, Char;
    EncodeThree(102, 111, 111, [98, 97, 114]);
    EncodeThree(98, 97, 114, []);
    EncodeNothing();
    Characters();
    assert [102, 111, 111] + [98, 97, 114] == [102, 111, 111, 98, 97, 114];
    assert [98, 97, 114] + [] == [98, 97, 114];
  }

  lemma EncodeThree(a: Byte, b: Byte, c: Byte, rest: seq<Byte>)
    ensures var x, y, z := a as int, b as int, c as int;
            Encode([a, b, c] + rest)
            == [Char(x / 4), Char(x % 4 * 16 + y / 16), Char(y % 16 * 4 + z / 64), Char(z % 64)] + Encode(rest)
  {
    hide Char;
    assert ([a, b, c] + rest)[3..] == rest;
  }

  lemma EncodeNothing()
    ensures Encode([]) == ""
  {
  }

  lemma Characters()
    ensures Char(25) == 'Z' && Char(38) == 'm' && Char(61) == '9' && Char(47) == 'v'
    ensures Char(24) == 'Y' && Char(5) == 'F' && Char(50) == 'y'
  {
  }

  lemma {:induction false} ShortQuanta()
    ensures Encode([102, 111]) == "Zm8=" && Encode([102]) == "Zg==" && Encode([251, 255]) == "+/8="
  {
  }
}
