/** The standard base64 encoding of section 4 of RFC 4648 (alphabet `A-Z a-z 0-9 + /`,
    `=` padding), as Go's `base64.StdEncoding` implements it: `EncodeToString` always
    pads, and `DecodeString` skips carriage returns and line feeds, demands complete
    padded quanta, rejects anything after the padding and ignores the unused low bits
    of the last character before the padding. */
module Base64 {
  import opened Wrappers

  newtype byte = x: int | 0 <= x < 256

  type Bytes = seq<byte>

  const CorruptInput := "illegal base64 data at input byte"

  /** The character of the alphabet for a 6-bit value. */
  function EncodeChar(i: int): (c: char)
    requires 0 <= i < 64
    ensures IsAlphabetChar(c)
  {
    if i < 26 then ('A' as int + i) as char
    else if i < 52 then ('a' as int + i - 26) as char
    else if i < 62 then ('0' as int + i - 52) as char
    else if i == 62 then '+'
    else '/'
  }

  predicate IsAlphabetChar(c: char) {
    ('A' <= c <= 'Z') || ('a' <= c <= 'z') || ('0' <= c <= '9') || c == '+' || c == '/'
  }

  /** The 6-bit value of a character of the alphabet. */
  function DecodeChar(c: char): (i: int)
    requires IsAlphabetChar(c)
    ensures 0 <= i < 64
    ensures EncodeChar(i) == c
  {
    if 'A' <= c <= 'Z' then c as int - 'A' as int
    else if 'a' <= c <= 'z' then c as int - 'a' as int + 26
    else if '0' <= c <= '9' then c as int - '0' as int + 52
    else if c == '+' then 62
    else 63
  }

  lemma DecodeEncodeChar(i: int)
    requires 0 <= i < 64
    ensures DecodeChar(EncodeChar(i)) == i
  {
  }

  /** The four characters of a quantum, from its three bytes (absent bytes are zero). */
  function Char0(x: byte): (c: char)
    ensures IsAlphabetChar(c)
  {
    EncodeChar(x as int / 4)
  }

  function Char1(x: byte, y: byte): (c: char)
    ensures IsAlphabetChar(c)
  {
    EncodeChar((x as int % 4) * 16 + y as int / 16)
  }

  function Char2(y: byte, z: byte): (c: char)
    ensures IsAlphabetChar(c)
  {
    EncodeChar((y as int % 16) * 4 + z as int / 64)
  }

  function Char3(z: byte): (c: char)
    ensures IsAlphabetChar(c)
  {
    EncodeChar(z as int % 64)
  }

  /** `base64.StdEncoding.EncodeToString`. */
  function Encode(b: Bytes): (s: string)
    ensures |s| % 4 == 0 && (|b| > 0 ==> |s| >= 4)
    ensures forall i | 0 <= i < |s| :: IsAlphabetChar(s[i]) || s[i] == '='
  {
    if |b| == 0 then ""
    else if |b| == 1 then [Char0(b[0]), Char1(b[0], 0), '=', '=']
    else if |b| == 2 then [Char0(b[0]), Char1(b[0], b[1]), Char2(b[1], 0), '=']
    else [Char0(b[0]), Char1(b[0], b[1]), Char2(b[1], b[2]), Char3(b[2])] + Encode(b[3..])
  }

  /** The input with every `\r` and `\n` removed: the decoder ignores them wherever
      they occur, inside a quantum as well as around the padding. */
  function StripNewlines(s: string): (r: string)
    ensures |r| <= |s|
    ensures forall i | 0 <= i < |r| :: r[i] != '\r' && r[i] != '\n'
  {
    if s == [] then []
    else if s[0] == '\r' || s[0] == '\n' then StripNewlines(s[1..])
    else [s[0]] + StripNewlines(s[1..])
  }

  /** The first byte of a quantum, from its first two 6-bit values. */
  function Byte0(c0: int, c1: int): byte
    requires 0 <= c0 < 64 && 0 <= c1 < 64
  {
    (c0 * 4 + c1 / 16) as byte
  }

  /** The second byte of a quantum, from its second and third 6-bit values. */
  function Byte1(c1: int, c2: int): byte
    requires 0 <= c1 < 64 && 0 <= c2 < 64
  {
    ((c1 % 16) * 16 + c2 / 4) as byte
  }

  /** The third byte of a quantum, from its last two 6-bit values. */
  function Byte2(c2: int, c3: int): byte
    requires 0 <= c2 < 64 && 0 <= c3 < 64
  {
    ((c2 % 4) * 64 + c3) as byte
  }

  /** Decoding of the input once the line breaks are gone. */
  function DecodeQuanta(t: string): (r: Result<Bytes>)
    decreases |t|
  {
    if |t| == 0 then Ok([])
    else if |t| < 4 then Err(CorruptInput)
    else if !IsAlphabetChar(t[0]) || !IsAlphabetChar(t[1]) then Err(CorruptInput)
    else if t[2] == '=' then
      if t[3] == '=' && |t| == 4 then Ok([Byte0(DecodeChar(t[0]), DecodeChar(t[1]))])
      else Err(CorruptInput)
    else if !IsAlphabetChar(t[2]) then Err(CorruptInput)
    else if t[3] == '=' then
      if |t| == 4 then
        Ok([Byte0(DecodeChar(t[0]), DecodeChar(t[1])), Byte1(DecodeChar(t[1]), DecodeChar(t[2]))])
      else Err(CorruptInput)
    else if !IsAlphabetChar(t[3]) then Err(CorruptInput)
    else
      var rest :- DecodeQuanta(t[4..]);
      Ok([Byte0(DecodeChar(t[0]), DecodeChar(t[1])),
          Byte1(DecodeChar(t[1]), DecodeChar(t[2])),
          Byte2(DecodeChar(t[2]), DecodeChar(t[3]))] + rest)
  }

  /** `base64.StdEncoding.DecodeString`. */
  function Decode(s: string): Result<Bytes> {
    DecodeQuanta(StripNewlines(s))
  }

  lemma EncodeHasNoNewlines(b: Bytes)
    ensures StripNewlines(Encode(b)) == Encode(b)
  {
    var s := Encode(b);
    assert forall i | 0 <= i < |s| :: s[i] != '\r' && s[i] != '\n';
    NoNewlinesStrip(s);
  }

  lemma {:induction false} NoNewlinesStrip(s: string)
    requires forall i | 0 <= i < |s| :: s[i] != '\r' && s[i] != '\n'
    ensures StripNewlines(s) == s
  {
    if s != [] {
      assert forall i | 0 <= i < |s[1..]| :: s[1..][i] == s[i + 1];
      NoNewlinesStrip(s[1..]);
      assert [s[0]] + s[1..] == s;
    }
  }

  lemma ByteSplit(b: int)
    requires 0 <= b < 256
    ensures 0 <= b / 4 < 64 && (b / 4) * 4 + b % 4 == b
    ensures 0 <= b / 16 < 16 && (b / 16) * 16 + b % 16 == b
    ensures 0 <= b / 64 < 4 && (b / 64) * 64 + b % 64 == b
  {
  }

  /** The characters of a quantum decode back to its bytes. */
  lemma QuantumRoundTrip(x: byte, y: byte, z: byte)
    ensures Byte0(DecodeChar(Char0(x)), DecodeChar(Char1(x, y))) == x
    ensures Byte1(DecodeChar(Char1(x, y)), DecodeChar(Char2(y, z))) == y
    ensures Byte2(DecodeChar(Char2(y, z)), DecodeChar(Char3(z))) == z
  {
    var xi, yi, zi := x as int, y as int, z as int;
    ByteSplit(xi);
    ByteSplit(yi);
    ByteSplit(zi);
    var c0, c1, c2, c3 := xi / 4, (xi % 4) * 16 + yi / 16, (yi % 16) * 4 + zi / 64, zi % 64;
    DecodeEncodeChar(c0);
    DecodeEncodeChar(c1);
    DecodeEncodeChar(c2);
    DecodeEncodeChar(c3);
    assert c1 / 16 == xi % 4 && c1 % 16 == yi / 16;
    assert c2 / 4 == yi % 16 && c2 % 4 == zi / 64;
  }

  /** Decoding inverts encoding: `DecodeString(EncodeToString(b)) == b`. */
  lemma {:induction false} DecodeEncode(b: Bytes)
    ensures Decode(Encode(b)) == Ok(b)
  {
    EncodeHasNoNewlines(b);
    DecodeQuantaEncode(b);
  }

  lemma {:induction false} DecodeQuantaEncode(b: Bytes)
    ensures DecodeQuanta(Encode(b)) == Ok(b)
    decreases |b|
  {
    if |b| == 1 {
      QuantumRoundTrip(b[0], 0, 0);
      LastQuantumOne(b);
    } else if |b| == 2 {
      QuantumRoundTrip(b[0], b[1], 0);
      LastQuantumTwo(b);
    } else if |b| >= 3 {
      DecodeQuantaEncode(b[3..]);
      QuantumRoundTrip(b[0], b[1], b[2]);
      FullQuantum(b, Encode(b[3..]));
    }
  }

  lemma LastQuantumOne(b: Bytes)
    requires |b| == 1
    requires Byte0(DecodeChar(Char0(b[0])), DecodeChar(Char1(b[0], 0))) == b[0]
    ensures DecodeQuanta(Encode(b)) == Ok(b)
  {
    assert Encode(b) == [Char0(b[0]), Char1(b[0], 0), '=', '='];
    assert [b[0]] == b;
  }

  lemma LastQuantumTwo(b: Bytes)
    requires |b| == 2
    requires Byte0(DecodeChar(Char0(b[0])), DecodeChar(Char1(b[0], b[1]))) == b[0]
    requires Byte1(DecodeChar(Char1(b[0], b[1])), DecodeChar(Char2(b[1], 0))) == b[1]
    ensures DecodeQuanta(Encode(b)) == Ok(b)
  {
    assert Encode(b) == [Char0(b[0]), Char1(b[0], b[1]), Char2(b[1], 0), '='];
    assert [b[0], b[1]] == b;
  }

  lemma FullQuantum(b: Bytes, u: string)
    requires |b| >= 3
    requires DecodeQuanta(u) == Ok(b[3..])
    requires Byte0(DecodeChar(Char0(b[0])), DecodeChar(Char1(b[0], b[1]))) == b[0]
    requires Byte1(DecodeChar(Char1(b[0], b[1])), DecodeChar(Char2(b[1], b[2]))) == b[1]
    requires Byte2(DecodeChar(Char2(b[1], b[2])), DecodeChar(Char3(b[2]))) == b[2]
    ensures DecodeQuanta([Char0(b[0]), Char1(b[0], b[1]), Char2(b[1], b[2]), Char3(b[2])] + u) == Ok(b)
  {
    var t := [Char0(b[0]), Char1(b[0], b[1]), Char2(b[1], b[2]), Char3(b[2])] + u;
    QuantumThenRest(Char0(b[0]), Char1(b[0], b[1]), Char2(b[1], b[2]), Char3(b[2]), u);
    DecodeStep(t, b[3..]);
    SplitHead3(b);
  }

  lemma QuantumThenRest(c0: char, c1: char, c2: char, c3: char, u: string)
    ensures var t := [c0, c1, c2, c3] + u;
            |t| >= 4 && t[0] == c0 && t[1] == c1 && t[2] == c2 && t[3] == c3 && t[4..] == u
  {
  }

  lemma SplitHead3(b: Bytes)
    requires |b| >= 3
    ensures [b[0], b[1], b[2]] + b[3..] == b
  {
    assert [b[0], b[1], b[2]] == b[..3];
    assert b[..3] + b[3..] == b;
  }

  /** A quantum of four characters of the alphabet followed by a decodable rest. */
  lemma DecodeStep(t: string, rest: Bytes)
    requires |t| >= 4
    requires IsAlphabetChar(t[0]) && IsAlphabetChar(t[1])
    requires IsAlphabetChar(t[2]) && IsAlphabetChar(t[3])
    requires DecodeQuanta(t[4..]) == Ok(rest)
    ensures DecodeQuanta(t) == Ok([Byte0(DecodeChar(t[0]), DecodeChar(t[1])),
                                  Byte1(DecodeChar(t[1]), DecodeChar(t[2])),
                                  Byte2(DecodeChar(t[2]), DecodeChar(t[3]))] + rest)
  {
  }

  /** Line breaks anywhere in the input do not change the decoded bytes. */
  lemma {:induction false} DecodeIgnoresNewlines(s: string, i: nat)
    requires i <= |s|
    ensures Decode(s[..i] + "\n" + s[i..]) == Decode(s)
  {
    StripAppend(s[..i], "\n" + s[i..]);
    StripAppend(s[..i], s[i..]);
    assert s[..i] + s[i..] == s;
    assert ("\n" + s[i..])[1..] == s[i..];
    assert s[..i] + "\n" + s[i..] == s[..i] + ("\n" + s[i..]);
  }

  lemma {:induction false} StripAppend(a: string, b: string)
    ensures StripNewlines(a + b) == StripNewlines(a) + StripNewlines(b)
  {
    if a == [] {
      assert a + b == b;
    } else {
      assert (a + b)[0] == a[0];
      assert (a + b)[1..] == a[1..] + b;
      StripAppend(a[1..], b);
    }
  }

  /** A character outside the alphabet, the padding and the line breaks is rejected. */
  lemma IllegalCharRejected(c: char)
    requires !IsAlphabetChar(c) && c != '=' && c != '\r' && c != '\n'
    ensures Decode([c, 'A', 'A', 'A']) == Err(CorruptInput)
  {
    assert StripNewlines([c, 'A', 'A', 'A']) == [c, 'A', 'A', 'A'] by {
      NoNewlinesStrip([c, 'A', 'A', 'A']);
    }
  }

  /** Unpadded input whose length is not a multiple of four is rejected. */
  lemma UnpaddedRejected()
    ensures Decode("/w") == Err(CorruptInput)
    ensures Decode("/w==") == Ok([0xff])
  {
    NoNewlinesStrip("/w");
    NoNewlinesStrip("/w==");
  }
}
