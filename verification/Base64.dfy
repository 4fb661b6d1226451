/** Base64 as the asset store uses it (app/assets/policy.ts): a lenient decoder checked by encoding again. */
module Base64 {
  import opened Prelude

  type Byte = b: int | 0 <= b < 256
  type Bytes = seq<Byte>
  type Sextet = d: int | 0 <= d < 64

  datatype Symbol = Pad | Six(value: Sextet)

  // ----- Characters and symbols: the alphabet of RFC 4648, section 4 -----

  function Letter(d: Sextet): char {
    if d < 26 then 'A' + d as char
    else if d < 52 then 'a' + (d - 26) as char
    else if d < 62 then '0' + (d - 52) as char
    else if d == 62 then '+' else '/'
  }

  predicate InAlphabet(c: char) {
    'A' <= c <= 'Z' || 'a' <= c <= 'z' || '0' <= c <= '9' || c == '+' || c == '/' || c == '='
  }

  function ReadChar(c: char): Symbol
    requires InAlphabet(c)
  {
    if 'A' <= c <= 'Z' then Six(c as int - 'A' as int)
    else if 'a' <= c <= 'z' then Six(c as int - 'a' as int + 26)
    else if '0' <= c <= '9' then Six(c as int - '0' as int + 52)
    else if c == '+' then Six(62) else if c == '/' then Six(63) else Pad
  }

  function SpellSymbol(x: Symbol): char {
    if x.Pad? then '=' else Letter(x.value)
  }

  predicate Readable(s: string) {
    forall c <- s :: InAlphabet(c)
  }

  function Read(s: string): (r: seq<Symbol>)
    requires Readable(s)
    ensures |r| == |s| && forall i :: 0 <= i < |s| ==> s[i] in s && r[i] == ReadChar(s[i])
  {
    if s == "" then [] else [ReadChar(s[0])] + Read(s[1..])
  }

  function Spell(xs: seq<Symbol>): (r: string)
    ensures |r| == |xs| && forall i :: 0 <= i < |xs| ==> r[i] == SpellSymbol(xs[i])
  {
    if xs == [] then "" else [SpellSymbol(xs[0])] + Spell(xs[1..])
  }

  lemma SpelledReadsBack(xs: seq<Symbol>)
    ensures Readable(Spell(xs)) && Read(Spell(xs)) == xs
  {
  }

  lemma ReadSpellsBack(s: string)
    requires Readable(s)
    ensures Spell(Read(s)) == s
  {
  }

  // ----- Symbols and bytes: three bytes are four sextets -----

  function Symbols(bytes: Bytes): seq<Symbol> {
    if bytes == [] then []
    else if |bytes| == 1 then [Six(bytes[0] / 4), Six(bytes[0] % 4 * 16), Pad, Pad]
    else if |bytes| == 2 then
      [Six(bytes[0] / 4), Six(bytes[0] % 4 * 16 + bytes[1] / 16), Six(bytes[1] % 16 * 4), Pad]
    else
      [Six(bytes[0] / 4), Six(bytes[0] % 4 * 16 + bytes[1] / 16), Six(bytes[1] % 16 * 4 + bytes[2] / 64),
          Six(bytes[2] % 64)]
      + Symbols(bytes[3..])
  }

  predicate Sixes(xs: seq<Symbol>, n: nat) {
    n <= |xs| && forall i :: 0 <= i < n ==> xs[i].Six?
  }

  /** Whole groups; only the last one may be padded, by one or two. */
  predicate Grouped(xs: seq<Symbol>) {
    if xs == [] then true
    else if |xs| < 4 || !Sixes(xs, 2) then false
    else if Sixes(xs, 4) then Grouped(xs[4..])
    else |xs| == 4 && xs[3].Pad?
  }

  /** The bits a padded group has left over are dropped. */
  function Unpack(xs: seq<Symbol>): Bytes
    requires Grouped(xs)
  {
    if xs == [] then []
    else if xs[2].Pad? then [xs[0].value * 4 + xs[1].value / 16]
    else if xs[3].Pad? then [xs[0].value * 4 + xs[1].value / 16, xs[1].value % 16 * 16 + xs[2].value / 4]
    else
      [xs[0].value * 4 + xs[1].value / 16, xs[1].value % 16 * 16 + xs[2].value / 4, xs[2].value % 4 * 64 + xs[3].value]
      + Unpack(xs[4..])
  }

  // ----- What policy.ts does -----

  function Encode(bytes: Bytes): string {
    Spell(Symbols(bytes))
  }

  predicate Shaped(s: string) {
    Readable(s) && Grouped(Read(s))
  }

  function DecodeBase64(raw: string): Option<Bytes> {
    if raw == "" then Some([])
    else if !Shaped(raw) then None
    else
      var bytes := Unpack(Read(raw));
      if Encode(bytes) == raw then Some(bytes) else None
  }

  // ----- Encode and decode undo each other -----

  lemma {:induction false} PackedUnpacks(bytes: Bytes)
    ensures Grouped(Symbols(bytes)) && Unpack(Symbols(bytes)) == bytes
    decreases |bytes|
  {
    if |bytes| > 2 {
      PackedUnpacks(bytes[3..]);
      assert Symbols(bytes)[4..] == Symbols(bytes[3..]);
      assert bytes == [bytes[0], bytes[1], bytes[2]] + bytes[3..];
    }
  }

  /** The decoder accepts exactly the encodings, and gives back the bytes that were encoded. */
  lemma DecodesExactlyEncodings(raw: string, bytes: Bytes)
    ensures DecodeBase64(raw) == Some(bytes) <==> raw == Encode(bytes)
  {
    PackedUnpacks(bytes);
    SpelledReadsBack(Symbols(bytes));
  }

  /** RFC 4648, section 3.5: the pad bits of the last group are zero. */
  predicate ZeroPadBits(xs: seq<Symbol>)
    requires Grouped(xs)
  {
    if xs == [] then true
    else if xs[2].Pad? then xs[1].value % 16 == 0
    else if xs[3].Pad? then xs[2].value % 4 == 0
    else ZeroPadBits(xs[4..])
  }

  lemma PadArithmetic(a: Sextet, b: Sextet, c: Sextet)
    ensures (a * 4 + b / 16) / 4 == a && (a * 4 + b / 16) % 4 == b / 16
    ensures b / 16 * 16 + (b % 16 * 16 + c / 4) / 16 == b && (b % 16 * 16 + c / 4) % 16 == c / 4
    ensures (b / 16 * 16 == b <==> b % 16 == 0) && (c / 4 * 4 == c <==> c % 4 == 0)
  {
  }

  lemma TwoPads(xs: seq<Symbol>)
    requires |xs| == 4 && Sixes(xs, 2) && xs[2].Pad? && xs[3].Pad?
    ensures Grouped(xs) && (Symbols(Unpack(xs)) == xs <==> xs[1].value % 16 == 0)
  {
    var a: int, b: int := xs[0].value, xs[1].value;
    PadArithmetic(a, b, 0);
    assert Symbols([a * 4 + b / 16]) == [Six(a), Six(b / 16 * 16), Pad, Pad];
    assert xs == [Six(a), Six(b), Pad, Pad];
  }

  lemma OnePad(xs: seq<Symbol>)
    requires |xs| == 4 && Sixes(xs, 3) && xs[3].Pad?
    ensures Grouped(xs) && (Symbols(Unpack(xs)) == xs <==> xs[2].value % 4 == 0)
  {
    var a: int, b: int, c: int := xs[0].value, xs[1].value, xs[2].value;
    PadArithmetic(a, b, c);
    var first: Byte, second: Byte := a * 4 + b / 16, b % 16 * 16 + c / 4;
    assert Symbols([first, second]) == [Six(a), Six(b), Six(c / 4 * 4), Pad];
    assert xs == [Six(a), Six(b), Six(c), Pad];
  }

  lemma PaddedPacks(xs: seq<Symbol>)
    requires |xs| == 4 && Grouped(xs) && xs[3].Pad?
    ensures Symbols(Unpack(xs)) == xs <==> ZeroPadBits(xs)
  {
    if xs[2].Pad? { TwoPads(xs); } else { OnePad(xs); }
  }

  lemma GroupPacks(xs: seq<Symbol>)
    requires Sixes(xs, 4) && Grouped(xs)
    ensures Symbols(Unpack(xs)) == xs[..4] + Symbols(Unpack(xs[4..]))
  {
    assert Unpack(xs)[3..] == Unpack(xs[4..]);
  }

  lemma {:induction false} UnpackedPacks(xs: seq<Symbol>)
    requires Grouped(xs)
    ensures Symbols(Unpack(xs)) == xs <==> ZeroPadBits(xs)
    decreases |xs|
  {
    if xs != [] && Sixes(xs, 4) {
      GroupPacks(xs);
      UnpackedPacks(xs[4..]);
      assert xs == xs[..4] + xs[4..];
      assert (xs[..4] + Symbols(Unpack(xs[4..])))[4..] == Symbols(Unpack(xs[4..]));
    } else if xs != [] {
      PaddedPacks(xs);
    }
  }

  /** `decodeBase64` accepts exactly the canonical encodings of RFC 4648, sections 3.5 and 4. */
  lemma AcceptsExactlyCanonical(raw: string)
    ensures DecodeBase64(raw).Some? <==> Shaped(raw) && ZeroPadBits(Read(raw))
  {
    if Shaped(raw) {
      var xs := Read(raw);
      UnpackedPacks(xs);
      ReadSpellsBack(raw);
      SpelledReadsBack(Symbols(Unpack(xs)));
    }
  }
}
