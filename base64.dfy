/** The base64 encoding of section 4 of RFC 4648, as `java.util.Base64`'s
    basic encoder and decoder implement it: the 64-character alphabet of
    Table 1, groups of three octets to four characters, `=` padding of the
    final quantum. The encoding is taken in two layers: octets to 6-bit
    symbols (with padding), and symbols to characters. */
module Base64 {
  import opened Wrappers
  import opened Bytes

  /** A 6-bit group, the index of a character in the alphabet. */
  type sextet = x: int | 0 <= x < 64

  /** One character of an encoding: an alphabet character or the pad `=`. */
  datatype Symbol = Digit(v: sextet) | Pad

  /** Characters of the base64 alphabet (RFC 4648, Table 1). */
  predicate IsAlphabetChar(c: char) {
    ('A' <= c <= 'Z') || ('a' <= c <= 'z') || ('0' <= c <= '9') || c == '+' || c == '/'
  }

  /** The character Table 1 assigns to value `v`. */
  function CharOf(v: sextet): (c: char)
    ensures IsAlphabetChar(c)
  {
    if v < 26 then ('A' as int + v) as char
    else if v < 52 then ('a' as int + (v - 26)) as char
    else if v < 62 then ('0' as int + (v - 52)) as char
    else if v == 62 then '+'
    else '/'
  }

  /** The value Table 1 assigns to character `c`; the partner of `CharOf`. */
  function ValueOf(c: char): (v: sextet)
    requires IsAlphabetChar(c)
    ensures CharOf(v) == c
  {
    if 'A' <= c <= 'Z' then c as int - 'A' as int
    else if 'a' <= c <= 'z' then c as int - 'a' as int + 26
    else if '0' <= c <= '9' then c as int - '0' as int + 52
    else if c == '+' then 62
    else 63
  }

  lemma ValueOfCharOf(v: sextet)
    ensures ValueOf(CharOf(v)) == v
  {
  }

  // ---- symbols and characters ----

  function Render(syms: seq<Symbol>): (s: string)
    ensures |s| == |syms|
    ensures forall i :: 0 <= i < |s| ==> (IsAlphabetChar(s[i]) <==> syms[i].Digit?)
    ensures forall i :: 0 <= i < |s| ==> (s[i] == '=' <==> syms[i].Pad?)
  {
    if syms == [] then ""
    else [match syms[0] case Digit(v) => CharOf(v) case Pad => '='] + Render(syms[1..])
  }

  /** Characters back to symbols; `None` at a character outside the alphabet
      that is not the pad. */
  function Parse(s: string): (r: Option<seq<Symbol>>)
    ensures r.Some? ==> |r.value| == |s|
  {
    if s == [] then Some([])
    else
      var head :=
        if IsAlphabetChar(s[0]) then Some(Digit(ValueOf(s[0])))
        else if s[0] == '=' then Some(Pad)
        else None;
      match (head, Parse(s[1..]))
      case (Some(x), Some(rest)) => Some([x] + rest)
      case _ => None
  }

  lemma {:induction false} ParseRender(syms: seq<Symbol>)
    ensures Parse(Render(syms)) == Some(syms)
  {
    if syms != [] {
      var s := Render(syms);
      assert s[1..] == Render(syms[1..]);
      ParseRender(syms[1..]);
      if syms[0].Digit? {
        ValueOfCharOf(syms[0].v);
      }
      assert syms == [syms[0]] + syms[1..];
    }
  }

  // ---- octets and symbols ----

  /** Three octets as four 6-bit values. */
  function Group(b0: byte, b1: byte, b2: byte): seq<Symbol> {
    [Digit(b0 / 4), Digit((b0 % 4) * 16 + b1 / 16), Digit((b1 % 16) * 4 + b2 / 64), Digit(b2 % 64)]
  }

  /** Octets as symbols: full groups, then a final quantum of one octet (two
      values and two pads) or two octets (three values and one pad). */
  function Symbols(b: seq<byte>): (syms: seq<Symbol>)
    ensures |syms| == 4 * ((|b| + 2) / 3)
    decreases |b|
  {
    if |b| == 0 then []
    else if |b| == 1 then [Digit(b[0] / 4), Digit((b[0] % 4) * 16), Pad, Pad]
    else if |b| == 2 then [Digit(b[0] / 4), Digit((b[0] % 4) * 16 + b[1] / 16), Digit((b[1] % 16) * 4), Pad]
    else Group(b[0], b[1], b[2]) + Symbols(b[3..])
  }

  /** A quantum of four values back to three octets. */
  function Ungroup(q: seq<Symbol>): (r: Option<seq<byte>>)
    requires |q| == 4
    ensures r.Some? ==> |r.value| == 3
  {
    if q[0].Digit? && q[1].Digit? && q[2].Digit? && q[3].Digit? then
      var c0, c1, c2, c3 := q[0].v, q[1].v, q[2].v, q[3].v;
      Some([c0 * 4 + c1 / 16, (c1 % 16) * 16 + c2 / 4, (c2 % 4) * 64 + c3])
    else None
  }

  /** The last quantum: a full group, or one or two octets followed by padding. */
  function UngroupFinal(q: seq<Symbol>): (r: Option<seq<byte>>)
    requires |q| == 4
    ensures r.Some? ==> 1 <= |r.value| <= 3
  {
    if q[2].Pad? && q[3].Pad? then
      if q[0].Digit? && q[1].Digit? then Some([q[0].v * 4 + q[1].v / 16]) else None
    else if q[3].Pad? then
      if q[0].Digit? && q[1].Digit? && q[2].Digit? then
        var c0, c1, c2 := q[0].v, q[1].v, q[2].v;
        Some([c0 * 4 + c1 / 16, (c1 % 16) * 16 + c2 / 4])
      else None
    else Ungroup(q)
  }

  /** Symbols back to octets; `None` for a length that is not a multiple of
      four or padding anywhere but in the final quantum. */
  function Octets(syms: seq<Symbol>): (r: Option<seq<byte>>)
    ensures r.Some? ==> |syms| % 4 == 0
    decreases |syms|
  {
    if |syms| == 0 then Some([])
    else if |syms| < 4 then None
    else if |syms| == 4 then UngroupFinal(syms)
    else
      match (Ungroup(syms[..4]), Octets(syms[4..]))
      case (Some(g), Some(rest)) => Some(g + rest)
      case _ => None
  }

  /** Splitting a value into a quotient and a remainder by `k` and joining
      them again, for the three divisors the bit regrouping uses. */
  lemma Join(hi: int, lo: int, k: int)
    requires k == 4 || k == 16 || k == 64
    requires 0 <= lo < k
    ensures (hi * k + lo) / k == hi && (hi * k + lo) % k == lo
  {
    if k == 4 {
      assert (hi * 4 + lo) / 4 == hi;
    } else if k == 16 {
      assert (hi * 16 + lo) / 16 == hi;
    } else {
      assert (hi * 64 + lo) / 64 == hi;
    }
  }

  lemma UngroupGroup(b0: byte, b1: byte, b2: byte)
    ensures Ungroup(Group(b0, b1, b2)) == Some([b0, b1, b2])
  {
    var c0, c1, c2, c3 := b0 / 4, (b0 % 4) * 16 + b1 / 16, (b1 % 16) * 4 + b2 / 64, b2 % 64;
    Join(b0 % 4, b1 / 16, 16);
    Join(b1 % 16, b2 / 64, 4);
    assert c0 * 4 + c1 / 16 == b0;
    assert (c1 % 16) * 16 + c2 / 4 == b1;
    assert (c2 % 4) * 64 + c3 == b2;
  }

  lemma OctetsSymbolsOne(b: seq<byte>)
    requires |b| == 1
    ensures Octets(Symbols(b)) == Some(b)
  {
    Join(b[0] % 4, 0, 16);
    assert b == [b[0]];
  }

  lemma OctetsSymbolsTwo(b: seq<byte>)
    requires |b| == 2
    ensures Octets(Symbols(b)) == Some(b)
  {
    var c1, c2 := (b[0] % 4) * 16 + b[1] / 16, (b[1] % 16) * 4;
    Join(b[0] % 4, b[1] / 16, 16);
    Join(b[1] % 16, 0, 4);
    assert (b[0] / 4) * 4 + c1 / 16 == b[0];
    assert (c1 % 16) * 16 + c2 / 4 == b[1];
    assert b == [b[0], b[1]];
  }

  lemma {:induction false} OctetsSymbols(b: seq<byte>)
    ensures Octets(Symbols(b)) == Some(b)
    decreases |b|
  {
    if |b| == 1 {
      OctetsSymbolsOne(b);
    } else if |b| == 2 {
      OctetsSymbolsTwo(b);
    } else if |b| >= 3 {
      var g := Group(b[0], b[1], b[2]);
      var syms := Symbols(b);
      assert syms == g + Symbols(b[3..]);
      UngroupGroup(b[0], b[1], b[2]);
      assert [b[0], b[1], b[2]] == b[..3];
      assert b[..3] + b[3..] == b;
      if |b| == 3 {
        assert syms == g;
        assert UngroupFinal(g) == Ungroup(g);
        assert Octets(syms) == UngroupFinal(g);
        assert b == [b[0], b[1], b[2]];
      } else {
        OctetsSymbols(b[3..]);
        assert syms[..4] == g;
        assert syms[4..] == Symbols(b[3..]);
      }
    }
  }

  // ---- the encoding ----

  /** Base64 of `b`. */
  function Encode(b: seq<byte>): (s: string)
    ensures |s| == 4 * ((|b| + 2) / 3)
  {
    Render(Symbols(b))
  }

  /** Base64 text back to octets; `None` for text that is not a padded
      encoding. */
  function Decode(s: string): (r: Option<seq<byte>>)
    ensures r.Some? ==> |s| % 4 == 0
  {
    match Parse(s)
    case None => None
    case Some(syms) => Octets(syms)
  }

  /** Round trip: decoding an encoding gives back the octets. */
  lemma DecodeEncode(b: seq<byte>)
    ensures Decode(Encode(b)) == Some(b)
  {
    ParseRender(Symbols(b));
    OctetsSymbols(b);
  }

  /** An encoding uses only alphabet characters and the pad. */
  lemma EncodeAlphabet(b: seq<byte>)
    ensures forall i :: 0 <= i < |Encode(b)| ==> IsAlphabetChar(Encode(b)[i]) || Encode(b)[i] == '='
  {
  }

  /** The encoder is injective: distinct octet strings never share an encoding. */
  lemma EncodeInjective(a: seq<byte>, b: seq<byte>)
    requires Encode(a) == Encode(b)
    ensures a == b
  {
    DecodeEncode(a);
    DecodeEncode(b);
  }
}
