/** The `STANDARD_NO_PAD` engine of the `base64` crate: the standard alphabet
    of section 4 of RFC 4648, with the `=` padding of section 3.2 omitted on
    encoding and refused on decoding, and non-zero trailing bits refused. */
module Base64 {
  import opened Wrappers
  import opened Bytes

  type Sextet = x: int | 0 <= x < 64

  /** The crate's `DecodeError`; offsets count characters of the input. */
  datatype DecodeError =
    | InvalidByte(offset: nat, symbol: char)
    | InvalidLength(length: nat)
    | InvalidLastSymbol(offset: nat, symbol: char)
    | InvalidPadding

  /** Table 1 of RFC 4648. */
  function SymbolChar(v: Sextet): (c: char)
  {
    if v < 26 then ('A' as int + v) as char
    else if v < 52 then ('a' as int + v - 26) as char
    else if v < 62 then ('0' as int + v - 52) as char
    else if v == 62 then '+'
    else '/'
  }

  function SymbolValue(c: char): (r: Option<Sextet>)
  {
    if 'A' <= c <= 'Z' then Some(c as int - 'A' as int)
    else if 'a' <= c <= 'z' then Some(c as int - 'a' as int + 26)
    else if '0' <= c <= '9' then Some(c as int - '0' as int + 52)
    else if c == '+' then Some(62)
    else if c == '/' then Some(63)
    else None
  }

  /** The alphabet is a bijection between sextets and its 64 characters. */
  lemma SymbolRoundTrip(v: Sextet)
    ensures SymbolValue(SymbolChar(v)) == Some(v)
  {
  }

  lemma SymbolValueInverse(c: char)
    ensures SymbolValue(c).Some? ==> SymbolChar(SymbolValue(c).value) == c
  {
  }

  function SextetsToChars(v: seq<Sextet>): (s: string)
    ensures |s| == |v|
    ensures forall i :: 0 <= i < |v| ==> s[i] == SymbolChar(v[i])
  {
    if |v| == 0 then "" else [SymbolChar(v[0])] + SextetsToChars(v[1..])
  }

  /** The sextets of `s` from offset `from` on, or the first symbol outside
      the alphabet: every `=` is refused as padding, anything else as an
      invalid byte. */
  function Symbols(s: string, from: nat): (r: Result<seq<Sextet>, DecodeError>)
    requires from <= |s|
    ensures r.Ok? ==> |r.value| == |s| - from
    ensures r.Ok? ==> forall i :: from <= i < |s| ==> SymbolValue(s[i]) == Some(r.value[i - from])
    ensures r.Err? ==> exists i :: from <= i < |s| && SymbolValue(s[i]).None?
    decreases |s| - from
  {
    if from == |s| then Ok([])
    else match SymbolValue(s[from])
      case None => if s[from] == '=' then Err(InvalidPadding) else Err(InvalidByte(from, s[from]))
      case Some(v) =>
        match Symbols(s, from + 1)
        case Err(e) => Err(e)
        case Ok(rest) => Ok([v] + rest)
  }

  // Encoding: every 3 bytes give 4 sextets; a final 1 or 2 bytes give 2 or 3.

  function Enc3(b0: Byte, b1: Byte, b2: Byte): (v: seq<Sextet>)
    ensures |v| == 4
  {
    [b0 / 4, (b0 % 4) * 16 + b1 / 16, (b1 % 16) * 4 + b2 / 64, b2 % 64]
  }

  function Enc2(b0: Byte, b1: Byte): (v: seq<Sextet>)
    ensures |v| == 3
  {
    [b0 / 4, (b0 % 4) * 16 + b1 / 16, (b1 % 16) * 4]
  }

  function Enc1(b0: Byte): (v: seq<Sextet>)
    ensures |v| == 2
  {
    [b0 / 4, (b0 % 4) * 16]
  }

  function Dec4(s0: Sextet, s1: Sextet, s2: Sextet, s3: Sextet): (d: seq<Byte>)
    ensures |d| == 3
  {
    var b0: Byte := s0 * 4 + s1 / 16;
    var b1: Byte := (s1 % 16) * 16 + s2 / 4;
    var b2: Byte := (s2 % 4) * 64 + s3;
    [b0, b1, b2]
  }

  function Dec3(s0: Sextet, s1: Sextet, s2: Sextet): (d: seq<Byte>)
    ensures |d| == 2
  {
    var b0: Byte := s0 * 4 + s1 / 16;
    var b1: Byte := (s1 % 16) * 16 + s2 / 4;
    [b0, b1]
  }

  function Dec2(s0: Sextet, s1: Sextet): (d: seq<Byte>)
    ensures |d| == 1
  {
    var b0: Byte := s0 * 4 + s1 / 16;
    [b0]
  }

  /** A value split into a high part times `m` and a low part below `m`. */
  lemma Pack4(hi: nat, lo: nat)
    requires lo < 4
    ensures (hi * 4 + lo) / 4 == hi && (hi * 4 + lo) % 4 == lo
  {
  }

  lemma Pack16(hi: nat, lo: nat)
    requires lo < 16
    ensures (hi * 16 + lo) / 16 == hi && (hi * 16 + lo) % 16 == lo
  {
  }

  lemma Group3(b0: Byte, b1: Byte, b2: Byte)
    ensures var v := Enc3(b0, b1, b2); Dec4(v[0], v[1], v[2], v[3]) == [b0, b1, b2]
  {
    Pack16(b0 % 4, b1 / 16);
    Pack4(b1 % 16, b2 / 64);
  }

  lemma Group2(b0: Byte, b1: Byte)
    ensures var v := Enc2(b0, b1); Dec3(v[0], v[1], v[2]) == [b0, b1] && v[2] % 4 == 0
  {
    Pack16(b0 % 4, b1 / 16);
    Pack4(b1 % 16, 0);
  }

  lemma Group1(b0: Byte)
    ensures var v := Enc1(b0); Dec2(v[0], v[1]) == [b0] && v[1] % 16 == 0
  {
    Pack16(b0 % 4, 0);
  }

  lemma Pack64(hi: nat, lo: nat)
    requires lo < 64
    ensures (hi * 64 + lo) / 64 == hi && (hi * 64 + lo) % 64 == lo
  {
  }

  lemma Quad4(s0: Sextet, s1: Sextet, s2: Sextet, s3: Sextet)
    ensures var d := Dec4(s0, s1, s2, s3); Enc3(d[0], d[1], d[2]) == [s0, s1, s2, s3]
  {
    var d := Dec4(s0, s1, s2, s3);
    var b0, b1, b2 := d[0], d[1], d[2];
    assert b0 == s0 * 4 + s1 / 16 && b1 == (s1 % 16) * 16 + s2 / 4 && b2 == (s2 % 4) * 64 + s3;
    Pack4(s0, s1 / 16);
    Pack16(s1 % 16, s2 / 4);
    Pack64(s2 % 4, s3);
    assert (b0 % 4) * 16 + b1 / 16 == s1;
    assert (b1 % 16) * 4 + b2 / 64 == s2;
  }

  lemma Quad3(s0: Sextet, s1: Sextet, s2: Sextet)
    requires s2 % 4 == 0
    ensures var d := Dec3(s0, s1, s2); Enc2(d[0], d[1]) == [s0, s1, s2]
  {
    Pack4(s0, s1 / 16);
    Pack16(s1 % 16, s2 / 4);
  }

  lemma Quad2(s0: Sextet, s1: Sextet)
    requires s1 % 16 == 0
    ensures var d := Dec2(s0, s1); Enc1(d[0]) == [s0, s1]
  {
    Pack4(s0, s1 / 16);
  }

  function EncodeSextets(d: seq<Byte>): (v: seq<Sextet>)
  {
    if |d| == 0 then []
    else if |d| == 1 then Enc1(d[0])
    else if |d| == 2 then Enc2(d[0], d[1])
    else Enc3(d[0], d[1], d[2]) + EncodeSextets(d[3..])
  }

  /** `Engine::encode`. */
  function Encode(d: seq<Byte>): (s: string)
  {
    SextetsToChars(EncodeSextets(d))
  }

  /** A final group of 2 or 3 symbols carries 4 or 2 bits beyond the last
      whole byte; the engine requires them to be zero. */
  predicate TrailingBitsZero(v: seq<Sextet>) {
    (|v| % 4 == 2 ==> v[|v| - 1] % 16 == 0) && (|v| % 4 == 3 ==> v[|v| - 1] % 4 == 0)
  }

  function DecodeSextets(v: seq<Sextet>): (d: seq<Byte>)
    requires |v| % 4 != 1
  {
    if |v| == 0 then []
    else if |v| == 2 then Dec2(v[0], v[1])
    else if |v| == 3 then Dec3(v[0], v[1], v[2])
    else Dec4(v[0], v[1], v[2], v[3]) + DecodeSextets(v[4..])
  }

  /** `Engine::decode`. */
  function Decode(s: string): (r: Result<seq<Byte>, DecodeError>)
  {
    match Symbols(s, 0)
    case Err(e) => Err(e)
    case Ok(v) =>
      if |v| % 4 == 1 then Err(InvalidLength(|s|))
      else if !TrailingBitsZero(v) then Err(InvalidLastSymbol(|s| - 1, s[|s| - 1]))
      else Ok(DecodeSextets(v))
  }

  lemma {:induction false} SextetCount(d: seq<Byte>)
    ensures 3 * |EncodeSextets(d)| >= 4 * |d| && 3 * |EncodeSextets(d)| < 4 * |d| + 3
    decreases |d|
  {
    if |d| >= 3 {
      SextetCount(d[3..]);
    }
  }

  /** The encoding is `⌈4n/3⌉` symbols long, all from the alphabet. */
  lemma EncodedLength(d: seq<Byte>)
    ensures 3 * |Encode(d)| >= 4 * |d| && 3 * |Encode(d)| < 4 * |d| + 3
    ensures forall i :: 0 <= i < |Encode(d)| ==> SymbolValue(Encode(d)[i]).Some?
  {
    SextetCount(d);
    var v := EncodeSextets(d);
    forall i | 0 <= i < |Encode(d)|
      ensures SymbolValue(Encode(d)[i]).Some?
    {
      SymbolRoundTrip(v[i]);
    }
  }

  lemma {:induction false} SextetsRoundTrip(d: seq<Byte>)
    ensures |EncodeSextets(d)| % 4 != 1
    ensures TrailingBitsZero(EncodeSextets(d))
    ensures DecodeSextets(EncodeSextets(d)) == d
    decreases |d|
  {
    if |d| == 1 {
      Group1(d[0]);
    } else if |d| == 2 {
      Group2(d[0], d[1]);
    } else if |d| >= 3 {
      SextetsRoundTrip(d[3..]);
      assert EncodeSextets(d) == Enc3(d[0], d[1], d[2]) + EncodeSextets(d[3..]);
      GroupShape(Enc3(d[0], d[1], d[2]), EncodeSextets(d[3..]));
      GroupDecode(d);
    }
  }

  /** Four sextets in front keep the length class and the last sextet. */
  lemma GroupShape(e: seq<Sextet>, w: seq<Sextet>)
    requires |e| == 4 && |w| % 4 != 1 && TrailingBitsZero(w)
    ensures |e + w| % 4 != 1 && TrailingBitsZero(e + w)
  {
    assert |w| > 0 ==> (e + w)[|e + w| - 1] == w[|w| - 1];
  }

  /** Decoding the four leading sextets gives the three leading bytes back. */
  lemma GroupDecode(d: seq<Byte>)
    requires |d| >= 3
    requires |EncodeSextets(d[3..])| % 4 != 1 && DecodeSextets(EncodeSextets(d[3..])) == d[3..]
    requires EncodeSextets(d) == Enc3(d[0], d[1], d[2]) + EncodeSextets(d[3..])
    requires |EncodeSextets(d)| % 4 != 1
    ensures DecodeSextets(EncodeSextets(d)) == d
  {
    var w := EncodeSextets(d[3..]);
    var v := EncodeSextets(d);
    assert v[4..] == w;
    Group3(d[0], d[1], d[2]);
    assert DecodeSextets(v) == Dec4(v[0], v[1], v[2], v[3]) + DecodeSextets(w);
    assert d == [d[0], d[1], d[2]] + d[3..];
  }

  lemma {:induction false} SymbolsOfEncoding(v: seq<Sextet>, from: nat)
    requires from <= |v|
    ensures Symbols(SextetsToChars(v), from) == Ok(v[from..])
    decreases |v| - from
  {
    var s := SextetsToChars(v);
    if from < |v| {
      assert s[from] == SymbolChar(v[from]);
      SymbolRoundTrip(v[from]);
      SymbolsOfEncoding(v, from + 1);
      var rest: seq<Sextet> := v[from + 1..];
      var head: seq<Sextet> := [v[from]];
      assert v[from..] == head + rest;
      assert Symbols(s, from) == Ok(head + rest);
    } else {
      assert v[from..] == [];
    }
  }

  /** Decoding the encoding gives the data back. */
  lemma RoundTrip(d: seq<Byte>)
    ensures Decode(Encode(d)) == Ok(d)
  {
    var v := EncodeSextets(d);
    SymbolsOfEncoding(v, 0);
    assert v[0..] == v;
    SextetsRoundTrip(d);
  }

  lemma {:induction false} SextetsCanonical(v: seq<Sextet>)
    requires |v| % 4 != 1 && TrailingBitsZero(v)
    ensures EncodeSextets(DecodeSextets(v)) == v
    decreases |v|
  {
    if |v| == 2 {
      Quad2(v[0], v[1]);
    } else if |v| == 3 {
      Quad3(v[0], v[1], v[2]);
    } else if |v| >= 4 {
      TailShape(v);
      SextetsCanonical(v[4..]);
      CanonicalStep(v);
    }
  }

  /** Dropping four leading sextets keeps the length class and the last sextet. */
  lemma TailShape(v: seq<Sextet>)
    requires |v| >= 4 && |v| % 4 != 1 && TrailingBitsZero(v)
    ensures |v[4..]| % 4 != 1 && TrailingBitsZero(v[4..])
  {
    var w := v[4..];
    assert |w| > 0 ==> w[|w| - 1] == v[|v| - 1];
  }

  lemma CanonicalStep(v: seq<Sextet>)
    requires |v| >= 4 && |v| % 4 != 1 && |v[4..]| % 4 != 1
    requires EncodeSextets(DecodeSextets(v[4..])) == v[4..]
    ensures EncodeSextets(DecodeSextets(v)) == v
  {
    var w := v[4..];
    var d := DecodeSextets(v);
    var head := Dec4(v[0], v[1], v[2], v[3]);
    assert d == head + DecodeSextets(w);
    assert d[3..] == DecodeSextets(w);
    Quad4(v[0], v[1], v[2], v[3]);
    assert EncodeSextets(d) == Enc3(d[0], d[1], d[2]) + EncodeSextets(d[3..]);
    assert v == v[..4] + w;
  }

  /** Only canonical encodings decode: whatever decodes is the encoding of
      what it decodes to. */
  lemma Canonical(s: string)
    requires Decode(s).Ok?
    ensures Encode(Decode(s).value) == s
  {
    var v := Symbols(s, 0).value;
    SextetsCanonical(v);
    assert SextetsToChars(v) == s by {
      forall i | 0 <= i < |s|
        ensures SextetsToChars(v)[i] == s[i]
      {
        SymbolValueInverse(s[i]);
      }
    }
  }

  /** The characterisation of the three ways decoding fails. */
  lemma DecodeFails(s: string)
    ensures Decode(s).Err? <==>
      (exists i :: 0 <= i < |s| && SymbolValue(s[i]).None?)
      || |s| % 4 == 1
      || !TrailingBitsZero(Symbols(s, 0).value)
  {
  }
}
