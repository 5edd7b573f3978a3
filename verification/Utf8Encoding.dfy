/** The texts that `Utf8` calls valid are exactly the encodings of scalar values, section 3 of RFC 3629. */
module Utf8Encoding {
  import opened Utf8

  /** A Unicode scalar value: any code point that is not a surrogate. */
  type Scalar = c: int | 0 <= c < 0xD800 || 0xE000 <= c < 0x110000

  /** Continuation bytes and their bits. */
  function TailOf(bits: nat): (b: byte)
    ensures Tail(b)
  {
    0x80 + bits % 0x40
  }

  function Bits(b: byte): (n: int) { b - 0x80 }

  function Encode(c: Scalar): (r: seq<byte>)
    ensures 1 <= |r| <= 4
  {
    if c < 0x80 then [c]
    else if c < 0x800 then [0xC0 + c / 0x40, TailOf(c)]
    else if c < 0x10000 then [0xE0 + c / 0x40 / 0x40, TailOf(c / 0x40), TailOf(c)]
    else [0xF0 + c / 0x40 / 0x40 / 0x40, TailOf(c / 0x40 / 0x40), TailOf(c / 0x40), TailOf(c)]
  }

  function EncodeAll(cs: seq<Scalar>): seq<byte> {
    if cs == [] then [] else Encode(cs[0]) + EncodeAll(cs[1..])
  }

  /** Every scalar value is one rune, whatever follows. */
  lemma EncodingIsRune(c: Scalar, rest: seq<byte>)
    ensures RuneLength(Encode(c) + rest) == |Encode(c)|
  {
  }

  /** The scalar value that the first rune stands for. */
  function Decode(s: seq<byte>): (c: Scalar)
    requires RuneLength(s) > 0
  {
    var lead: int := s[0];
    match RuneLength(s)
    case 1 => lead
    case 2 => (lead - 0xC0) * 0x40 + Bits(s[1])
    case 3 => ((lead - 0xE0) * 0x40 + Bits(s[1])) * 0x40 + Bits(s[2])
    case _ => (((lead - 0xF0) * 0x40 + Bits(s[1])) * 0x40 + Bits(s[2])) * 0x40 + Bits(s[3])
  }

  lemma LastDigit(high: int, b: byte)
    requires Tail(b)
    ensures (high * 0x40 + Bits(b)) / 0x40 == high && 0x80 + (high * 0x40 + Bits(b)) % 0x40 == b
  {
  }

  /** A rune is the encoding of one scalar value, */
  lemma RuneIsEncoding(s: seq<byte>)
    requires RuneLength(s) > 0
    ensures Encode(Decode(s)) == s[..RuneLength(s)]
  {
    var lead: int := s[0];
    match RuneLength(s) {
      case 1 =>
      case 2 =>
        LastDigit(lead - 0xC0, s[1]);
      case 3 =>
        var high := (lead - 0xE0) * 0x40 + Bits(s[1]);
        LastDigit(lead - 0xE0, s[1]);
        LastDigit(high, s[2]);
      case _ =>
        var top := (lead - 0xF0) * 0x40 + Bits(s[1]);
        LastDigit(lead - 0xF0, s[1]);
        LastDigit(top, s[2]);
        LastDigit(top * 0x40 + Bits(s[2]), s[3]);
    }
  }

  /** and of no other. */
  lemma DecodeEncodes(c: Scalar, rest: seq<byte>)
    ensures RuneLength(Encode(c) + rest) > 0 && Decode(Encode(c) + rest) == c
  {
    EncodingIsRune(c, rest);
    var s := Encode(c) + rest;
    assert s[..|Encode(c)|] == Encode(c);
  }

  lemma {:induction false} EncodingsAreValid(cs: seq<Scalar>)
    ensures Valid(EncodeAll(cs))
  {
    hide Encode, RuneLength;
    if cs != [] {
      EncodingIsRune(cs[0], EncodeAll(cs[1..]));
      EncodingsAreValid(cs[1..]);
      ValidAfterRune(EncodeAll(cs));
    }
  }

  lemma {:induction false} ValidIsEncoding(s: seq<byte>) returns (cs: seq<Scalar>)
    requires Valid(s)
    ensures EncodeAll(cs) == s
    decreases |s|
  {
    hide Encode, RuneLength, Decode;
    if s == [] {
      cs := [];
    } else {
      RuneIsEncoding(s);
      var rest := ValidIsEncoding(s[RuneLength(s)..]);
      cs := [Decode(s)] + rest;
      assert cs[1..] == rest;
    }
  }

  /** Valid text is exactly what a sequence of scalar values is encoded as. */
  lemma ValidIff(s: seq<byte>)
    ensures Valid(s) <==> exists cs :: EncodeAll(cs) == s
  {
    if Valid(s) {
      var cs := ValidIsEncoding(s);
    }
    forall cs: seq<Scalar> | EncodeAll(cs) == s ensures Valid(s) {
      EncodingsAreValid(cs);
    }
  }
}
