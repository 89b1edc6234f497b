/** The URL-safe base64 of RFC 4648, section 5, as Go's URLEncoding reads and writes it: padded,
    skipping line breaks, ignoring the spare bits before the padding. */
module Base64 {
  import opened Common

  type Byte = x: int | 0 <= x < 256

  type Sextet = x: int | 0 <= x < 64

  const PAD: Byte := 61
  const LF: Byte := 10
  const CR: Byte := 13

  function Letter(x: Sextet): Byte {
    if x < 26 then 65 + x
    else if x < 52 then 97 + (x - 26)
    else if x < 62 then 48 + (x - 52)
    else if x == 62 then 45
    else 95
  }

  function Value(c: Byte): Option<Sextet> {
    if 65 <= c < 91 then Some(c - 65)
    else if 97 <= c < 123 then Some(c - 97 + 26)
    else if 48 <= c < 58 then Some(c - 48 + 52)
    else if c == 45 then Some(62)
    else if c == 95 then Some(63)
    else None
  }

  function Encode(b: seq<Byte>): seq<Byte> {
    if b == [] then []
    else if |b| == 1 then [Letter(b[0] / 4), Letter(b[0] % 4 * 16), PAD, PAD]
    else if |b| == 2 then
      [Letter(b[0] / 4), Letter(b[0] % 4 * 16 + b[1] / 16), Letter(b[1] % 16 * 4), PAD]
    else
      [Letter(b[0] / 4), Letter(b[0] % 4 * 16 + b[1] / 16),
       Letter(b[1] % 16 * 4 + b[2] / 64), Letter(b[2] % 64)] + Encode(b[3..])
  }

  function First(x: Sextet, y: Sextet): Byte { x * 4 + y / 16 }

  function Second(y: Sextet, z: Sextet): Byte { y % 16 * 16 + z / 4 }

  function Third(z: Sextet, w: Sextet): Byte { z % 4 * 64 + w }

  /** Text without line breaks, four letters at a time; padding only ends it. */
  function Quanta(s: seq<Byte>): Result<seq<Byte>> {
    if s == [] then Ok([])
    else if |s| < 4 then Err(BadRequest)
    else
      var x, y, z, w := Value(s[0]), Value(s[1]), Value(s[2]), Value(s[3]);
      if x.None? || y.None? then Err(BadRequest)
      else if s[2] == PAD then
        if s[3] == PAD && |s| == 4 then Ok([First(x.value, y.value)]) else Err(BadRequest)
      else if z.None? then Err(BadRequest)
      else if s[3] == PAD then
        if |s| == 4 then Ok([First(x.value, y.value), Second(y.value, z.value)]) else Err(BadRequest)
      else if w.None? then Err(BadRequest)
      else
        var rest := Quanta(s[4..]);
        if rest.Err? then rest
        else Ok([First(x.value, y.value), Second(y.value, z.value), Third(z.value, w.value)] + rest.value)
  }

  function Unbroken(s: seq<Byte>): seq<Byte> {
    if s == [] then []
    else if s[0] == LF || s[0] == CR then Unbroken(s[1..])
    else [s[0]] + Unbroken(s[1..])
  }

  function Decode(s: seq<Byte>): Result<seq<Byte>> {
    Quanta(Unbroken(s))
  }

  /** The letters are the URL-safe alphabet. */
  lemma LetterIsAlphabet(x: Sextet)
    ensures x < 26 ==> Letter(x) == 'A' as int + x
    ensures 26 <= x < 52 ==> Letter(x) == 'a' as int + (x - 26)
    ensures 52 <= x < 62 ==> Letter(x) == '0' as int + (x - 52)
    ensures Letter(62) == '-' as int && Letter(63) == '_' as int && PAD == '=' as int
  {
  }

  /** The number whose digits in `base` are the rest, most significant first. */
  function Joined(base: int, a: int, b: int, c: int): int {
    (a * base + b) * base + c
  }

  /** Four letters stand for the same 24 bits as the three bytes they encode. */
  lemma QuantumBits(b: seq<Byte>)
    requires |b| >= 3
    ensures |Encode(b)| >= 4 && forall i | 0 <= i < 4 :: Value(Encode(b)[i]).Some?
    ensures var v := seq(4, i requires 0 <= i < 4 => Value(Encode(b)[i]).value);
            Joined(64, v[0], v[1], v[2]) * 64 + v[3] == Joined(256, b[0], b[1], b[2])
  {
    hide Letter, Value;
    forall x: Sextet {
      LetterValue(x);
    }
    BitsAgree(b[0], b[1], b[2]);
  }

  lemma BitsAgree(a: Byte, b: Byte, c: Byte)
    ensures Joined(64, a / 4, a % 4 * 16 + b / 16, b % 16 * 4 + c / 64) * 64 + c % 64 == Joined(256, a, b, c)
  {
  }

  lemma LetterValue(x: Sextet)
    ensures Letter(x) != PAD && Value(Letter(x)) == Some(x) && Letter(x) !in {PAD, LF, CR}
  {
  }

  lemma ValueLetter(c: Byte)
    ensures Value(c).Some? ==> Letter(Value(c).value) == c
  {
  }

  lemma {:induction false} EncodeUnbroken(b: seq<Byte>)
    ensures LF !in Encode(b) && CR !in Encode(b)
    decreases |b|
  {
    if |b| >= 3 {
      EncodeUnbroken(b[3..]);
    }
  }

  lemma {:induction false} UnbrokenSame(s: seq<Byte>)
    requires LF !in s && CR !in s
    ensures Unbroken(s) == s
  {
    if s != [] {
      UnbrokenSame(s[1..]);
    }
  }

  /** The sextets a byte was spread over give it back. */
  lemma Rejoin(a: Byte, b: Byte, c: Byte)
    ensures First(a / 4, a % 4 * 16 + b / 16) == a
    ensures Second(a % 4 * 16 + b / 16, b % 16 * 4 + c / 64) == b
    ensures Third(b % 16 * 4 + c / 64, c % 64) == c
  {
  }

  lemma {:induction false} QuantaEncode(b: seq<Byte>)
    ensures Quanta(Encode(b)) == Ok(b)
    decreases |b|
  {
    hide Letter, Value, First, Second, Third;
    forall x: Sextet {
      LetterValue(x);
    }
    if |b| >= 3 {
      Rejoin(b[0], b[1], b[2]);
      var head := Encode(b)[..4];
      assert Encode(b) == head + Encode(b[3..]);
      assert (head + Encode(b[3..]))[4..] == Encode(b[3..]);
      QuantaEncode(b[3..]);
      assert b == [b[0], b[1], b[2]] + b[3..];
    } else if |b| == 2 {
      Rejoin(b[0], b[1], 0);
      assert b == [b[0], b[1]];
    } else if |b| == 1 {
      Rejoin(b[0], 0, 0);
      assert b == [b[0]];
    }
  }

  /** Decoding undoes encoding, for any bytes. */
  lemma DecodeEncode(b: seq<Byte>)
    ensures Decode(Encode(b)) == Ok(b)
  {
    EncodeUnbroken(b);
    UnbrokenSame(Encode(b));
    QuantaEncode(b);
  }

  /** The bits left over before the padding are zero. */
  predicate Tidy(s: seq<Byte>) {
    |s| < 4 || s[|s| - 1] != PAD ||
    (if s[|s| - 2] == PAD then
       Value(s[|s| - 3]).Some? && Value(s[|s| - 3]).value % 16 == 0
     else
       Value(s[|s| - 2]).Some? && Value(s[|s| - 2]).value % 4 == 0)
  }

  /** Three bytes give back the four sextets they were read from. */
  lemma Resplit(x: Sextet, y: Sextet, z: Sextet, w: Sextet)
    ensures var a, b, c := First(x, y), Second(y, z), Third(z, w);
            a / 4 == x && a % 4 * 16 + b / 16 == y && b % 16 * 4 + c / 64 == z && c % 64 == w &&
            (a % 4 * 16 == y <==> y % 16 == 0) && (b % 16 * 4 == z <==> z % 4 == 0)
  {
  }

  lemma LetterInjective(x: Sextet, y: Sextet)
    ensures Letter(x) == Letter(y) <==> x == y
  {
  }

  lemma {:induction false} EncodeQuanta(s: seq<Byte>)
    requires Quanta(s).Ok?
    ensures Encode(Quanta(s).value) == s <==> Tidy(s)
    decreases |s|
  {
    hide Letter, Value, First, Second, Third, Tidy;
    TidyMeans(s);
    if s != [] {
      var x, y := Value(s[0]).value, Value(s[1]).value;
      ValueLetter(s[0]);
      ValueLetter(s[1]);
      ValueLetter(s[2]);
      ValueLetter(s[3]);
      ValuePad();
      if s[2] == PAD {
        Resplit(x, y, 0, 0);
        LetterInjective(First(x, y) % 4 * 16, y);
        assert s == [s[0], s[1], PAD, PAD];
      } else if s[3] == PAD {
        var z := Value(s[2]).value;
        Resplit(x, y, z, 0);
        LetterInjective(Second(y, z) % 16 * 4, z);
        assert s == [s[0], s[1], s[2], PAD];
      } else {
        var z, w := Value(s[2]).value, Value(s[3]).value;
        Resplit(x, y, z, w);
        EncodeQuanta(s[4..]);
        QuantaLength(s[4..]);
        EncodeFour(s);
      }
    }
  }

  lemma ValuePad()
    ensures Value(PAD).None?
  {
  }

  lemma TidyMeans(s: seq<Byte>)
    ensures |s| < 4 ==> Tidy(s)
    ensures |s| == 4 && s[2] == PAD == s[3] ==> (Tidy(s) <==> Value(s[1]).Some? && Value(s[1]).value % 16 == 0)
    ensures |s| == 4 && s[2] != PAD == s[3] ==> (Tidy(s) <==> Value(s[2]).Some? && Value(s[2]).value % 4 == 0)
    ensures |s| == 4 && s[3] != PAD ==> Tidy(s)
    ensures |s| >= 8 ==> (Tidy(s) <==> Tidy(s[4..]))
  {
  }

  lemma EncodeFour(s: seq<Byte>)
    requires |s| >= 4 && Quanta(s).Ok? && s[2] != PAD && s[3] != PAD
    ensures Encode(Quanta(s).value) == s <==> Encode(Quanta(s[4..]).value) == s[4..]
  {
    hide Letter, Value, First, Second, Third;
    var x, y, z, w := Value(s[0]).value, Value(s[1]).value, Value(s[2]).value, Value(s[3]).value;
    ValueLetter(s[0]);
    ValueLetter(s[1]);
    ValueLetter(s[2]);
    ValueLetter(s[3]);
    Resplit(x, y, z, w);
    var b, rest := Quanta(s).value, Quanta(s[4..]).value;
    assert b[3..] == rest;
    assert Encode(b) == [s[0], s[1], s[2], s[3]] + Encode(rest);
    assert s == [s[0], s[1], s[2], s[3]] + s[4..];
    assert ([s[0], s[1], s[2], s[3]] + Encode(rest))[4..] == Encode(rest);
  }

  lemma {:induction false} QuantaLength(s: seq<Byte>)
    requires Quanta(s).Ok?
    ensures |s| % 4 == 0
    decreases |s|
  {
    hide Letter, Value, First, Second, Third;
    if s != [] && s[2] != PAD && s[3] != PAD {
      QuantaLength(s[4..]);
    }
  }

  /** Encoding undoes decoding exactly for text without line breaks whose spare bits are zero. */
  lemma EncodeDecode(s: seq<Byte>)
    requires Decode(s).Ok?
    ensures Encode(Decode(s).value) == s <==> LF !in s && CR !in s && Tidy(s)
  {
    EncodeUnbroken(Decode(s).value);
    if LF !in s && CR !in s {
      UnbrokenSame(s);
      EncodeQuanta(s);
    }
  }

  lemma {:induction false} UnbrokenTwice(s: seq<Byte>)
    ensures LF !in Unbroken(s) && CR !in Unbroken(s) && Unbroken(Unbroken(s)) == Unbroken(s)
    ensures forall c | c != LF && c != CR :: c in Unbroken(s) <==> c in s
  {
    if s != [] {
      UnbrokenTwice(s[1..]);
      assert s == [s[0]] + s[1..];
      UnbrokenSame(Unbroken(s));
    }
  }

  /** Line breaks are skipped wherever they stand. */
  lemma BreaksAreSkipped(s: seq<Byte>)
    ensures Decode(s) == Decode(Unbroken(s))
  {
    UnbrokenTwice(s);
  }

  /** The spare bits before the padding are ignored: any two letters give a byte, any three two. */
  lemma SpareBitsAreIgnored(x: Sextet, y: Sextet, z: Sextet)
    ensures Quanta([Letter(x), Letter(y), PAD, PAD]) == Ok([First(x, y)])
    ensures Quanta([Letter(x), Letter(y), Letter(z), PAD]) == Ok([First(x, y), Second(y, z)])
  {
    LetterValue(x);
    LetterValue(y);
    LetterValue(z);
  }
}
