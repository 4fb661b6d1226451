/**
 * Decoding UTF-8 piece by piece (app/agent/talk.server.ts: one `TextDecoder`, fed with `stream: true`), by the
 * byte-at-a-time algorithm of the WHATWG Encoding Standard, section 8.1.1.
 */
module Utf8 {
  import opened Prelude
  import Base64

  type Byte = Base64.Byte
  type Bytes = Base64.Bytes

  const REPLACEMENT := '\U{FFFD}'
  const BYTE_ORDER_MARK := '\U{FEFF}'

  /** A character under way (none while `needed` is 0), and whether nothing has been decoded yet. */
  datatype State = State(codePoint: nat, seen: nat, needed: nat, lower: nat, upper: nat, atStart: bool)

  const START := State(0, 0, 0, 0x80, 0xBF, true)

  datatype Decoded = Decoded(state: State, text: string)

  function ToChar(codePoint: nat): char {
    if codePoint < 0xD800 || 0xE000 <= codePoint < 0x11_0000 then codePoint as char else REPLACEMENT
  }

  /** What a decoder hands over: a byte order mark at the very start is dropped. */
  function Emitted(s: State, text: string): Decoded {
    Decoded(State(0, 0, 0, 0x80, 0xBF, s.atStart && text == ""),
            if s.atStart && text != "" && text[0] == BYTE_ORDER_MARK then text[1..] else text)
  }

  /** The first byte of a character; `pending` is what goes before it. */
  function Lead(s: State, pending: string, b: Byte): Decoded {
    var told := Emitted(s, pending);
    if b < 0x80 then Emitted(s, pending + [b as char])
    else if 0xC2 <= b <= 0xDF then Decoded(State(b - 0xC0, 0, 1, 0x80, 0xBF, told.state.atStart), told.text)
    else if 0xE0 <= b <= 0xEF then
      Decoded(State(b - 0xE0, 0, 2, if b == 0xE0 then 0xA0 else 0x80, if b == 0xED then 0x9F else 0xBF,
          told.state.atStart), told.text)
    else if 0xF0 <= b <= 0xF4 then
      Decoded(State(b - 0xF0, 0, 3, if b == 0xF0 then 0x90 else 0x80, if b == 0xF4 then 0x8F else 0xBF,
          told.state.atStart), told.text)
    else Emitted(s, pending + [REPLACEMENT])
  }

  function DecodeByte(s: State, b: Byte): Decoded {
    if s.needed == 0 then Lead(s, "", b)
    else if !(s.lower <= b <= s.upper) then Lead(s, [REPLACEMENT], b)
    else
      var codePoint := s.codePoint * 64 + b % 64;
      if s.seen + 1 == s.needed then Emitted(s, [ToChar(codePoint)])
      else Decoded(State(codePoint, s.seen + 1, s.needed, 0x80, 0xBF, s.atStart), "")
  }

  /** One byte after another. */
  function Run(step: (State, Byte) -> Decoded, s: State, bytes: Bytes): Decoded
    decreases |bytes|
  {
    if bytes == [] then Decoded(s, "")
    else
      var first := step(s, bytes[0]);
      var rest := Run(step, first.state, bytes[1..]);
      Decoded(rest.state, first.text + rest.text)
  }

  function DecodeAll(s: State, bytes: Bytes): Decoded { Run(DecodeByte, s, bytes) }

  method RunAll(step: (State, Byte) -> Decoded, s: State, bytes: Bytes) returns (state: State, text: string)
    ensures Decoded(state, text) == Run(step, s, bytes)
  {
    state, text := s, "";
    for i := 0 to |bytes|
      invariant var rest := Run(step, state, bytes[i..]); Decoded(rest.state, text + rest.text) == Run(step, s, bytes)
    {
      assert bytes[i..][0] == bytes[i] && bytes[i..][1..] == bytes[i + 1..];
      var next := step(state, bytes[i]);
      ghost var rest := Run(step, next.state, bytes[i + 1..]);
      assert text + (next.text + rest.text) == text + next.text + rest.text;
      state, text := next.state, text + next.text;
    }
  }

  class TextDecoder {
    var state: State

    constructor ()
      ensures state == START
    {
      state := START;
    }

    method Decode(chunk: Bytes) returns (text: string)
      modifies this
      ensures Decoded(state, text) == DecodeAll(old(state), chunk)
    {
      state, text := RunAll(DecodeByte, state, chunk);
    }
  }

  /** The text of each chunk. */
  function DecodedChunks(s: State, chunks: seq<Bytes>): seq<string>
    decreases |chunks|
  {
    if chunks == [] then []
    else
      var first := DecodeAll(s, chunks[0]);
      [first.text] + DecodedChunks(first.state, chunks[1..])
  }

  lemma {:induction false} RunAppend(step: (State, Byte) -> Decoded, s: State, a: Bytes, b: Bytes)
    ensures var first := Run(step, s, a); var second := Run(step, first.state, b);
            Run(step, s, a + b) == Decoded(second.state, first.text + second.text)
    decreases |a|
  {
    if a == [] {
      assert a + b == b;
    } else {
      var one := step(s, a[0]);
      var more := Run(step, one.state, a[1..]);
      var last := Run(step, more.state, b);
      assert (a + b)[1..] == a[1..] + b;
      RunAppend(step, one.state, a[1..], b);
      assert one.text + (more.text + last.text) == one.text + more.text + last.text;
    }
  }

  /** A character cut in two by a chunk's end comes out whole: the chunks' texts add up to the text of all the bytes. */
  lemma {:induction false} ChunksAddUp(s: State, chunks: seq<Bytes>)
    ensures Flatten(DecodedChunks(s, chunks)) == DecodeAll(s, Flatten(chunks)).text
    decreases |chunks|
  {
    if chunks != [] {
      RunAppend(DecodeByte, s, chunks[0], Flatten(chunks[1..]));
      ChunksAddUp(DecodeAll(s, chunks[0]).state, chunks[1..]);
    }
  }

  // ----- Decoding undoes encoding -----

  /** RFC 3629, section 3. */
  function EncodeChar(c: char): Bytes {
    var n := c as int;
    if n < 0x80 then [n]
    else if n < 0x800 then [0xC0 + n / 64, 0x80 + n % 64]
    else if n < 0x1_0000 then [0xE0 + n / 4096, 0x80 + n / 64 % 64, 0x80 + n % 64]
    else [0xF0 + n / 262144, 0x80 + n / 4096 % 64, 0x80 + n / 64 % 64, 0x80 + n % 64]
  }

  function Encode(text: string): Bytes {
    if text == "" then [] else EncodeChar(text[0]) + Encode(text[1..])
  }

  lemma RunOne(step: (State, Byte) -> Decoded, s: State, a: Byte)
    ensures Run(step, s, [a]) == step(s, a)
  {
    assert [a][1..] == [];
    assert step(s, a).text + "" == step(s, a).text;
  }

  lemma RunFirst(step: (State, Byte) -> Decoded, s: State, a: Byte, rest: Bytes)
    ensures var first := step(s, a); var last := Run(step, first.state, rest);
            Run(step, s, [a] + rest) == Decoded(last.state, first.text + last.text)
  {
    assert ([a] + rest)[1..] == rest;
  }

  /** Nothing is under way, as between two characters. */
  predicate Between(s: State) {
    s == State(0, 0, 0, 0x80, 0xBF, s.atStart)
  }

  /** A byte that goes on with a character and does not end it. */
  lemma GoesOn(s: State, b: Byte)
    requires s.seen + 1 < s.needed && s.lower <= b <= s.upper && 0x80 <= b <= 0xBF
    ensures DecodeByte(s, b) == Decoded(State(s.codePoint * 64 + (b as int - 0x80), s.seen + 1, s.needed, 0x80, 0xBF,
            s.atStart), "")
  {
  }

  lemma Ends(s: State, b: Byte)
    requires s.seen + 1 == s.needed && s.lower <= b <= s.upper && 0x80 <= b <= 0xBF
    ensures DecodeByte(s, b) == Emitted(s, [ToChar(s.codePoint * 64 + (b as int - 0x80))])
  {
  }

  lemma Begins(s: State, b: Byte)
    requires Between(s)
    ensures b < 0x80 ==> DecodeByte(s, b) == Emitted(s, [b as char])
    ensures 0xC2 <= b <= 0xDF ==> DecodeByte(s, b) == Decoded(State(b - 0xC0, 0, 1, 0x80, 0xBF, s.atStart), "")
    ensures 0xE0 <= b <= 0xEF ==>
              DecodeByte(s, b) == Decoded(State(b - 0xE0, 0, 2, if b == 0xE0 then 0xA0 else 0x80,
                                                if b == 0xED then 0x9F else 0xBF, s.atStart), "")
    ensures 0xF0 <= b <= 0xF4 ==>
              DecodeByte(s, b) == Decoded(State(b - 0xF0, 0, 3, if b == 0xF0 then 0x90 else 0x80,
                                                if b == 0xF4 then 0x8F else 0xBF, s.atStart), "")
  {
  }

  lemma SameEmission(s: State, t: State, text: string)
    requires s.atStart == t.atStart
    ensures Emitted(s, text) == Emitted(t, text)
  {
  }

  /** The rest of a character: from a state `left` bytes short of it to the character. */
  lemma {:induction false} TailComesOut(s: State, tail: Bytes, c: char)
    requires s.seen + |tail| == s.needed && tail != [] && s.lower <= tail[0] <= s.upper
    requires forall b <- tail :: 0x80 <= b <= 0xBF
    requires Value(s.codePoint, tail) == c as int
    ensures DecodeAll(s, tail) == Emitted(s, [c])
    decreases |tail|
  {
    var b, rest := tail[0], tail[1..];
    assert b in tail && tail == [b] + rest;
    if rest == [] {
      Ends(s, b);
      RunOne(DecodeByte, s, b);
      ValueStep(s.codePoint, b, []);
    } else {
      GoesOn(s, b);
      RunFirst(DecodeByte, s, b, rest);
      var next := DecodeByte(s, b).state;
      ValueStep(s.codePoint, b, rest);
      forall x <- rest ensures 0x80 <= x <= 0xBF { assert x in tail; }
      assert rest[0] in rest && |tail| >= 2;
      assert next == State(s.codePoint * 64 + (b as int - 0x80), s.seen + 1, s.needed, 0x80, 0xBF, s.atStart);
      TailComesOut(next, rest, c);
      SameEmission(s, next, [c]);
      assert "" + Emitted(s, [c]).text == Emitted(s, [c]).text;
    }
  }

  /** The number continuation bytes add up to, six bits each. */
  function Value(codePoint: int, tail: Bytes): int
    decreases |tail|
  {
    if tail == [] then codePoint else Value(codePoint * 64 + (tail[0] as int - 0x80), tail[1..])
  }

  lemma ValueStep(codePoint: int, b: Byte, rest: Bytes)
    ensures Value(codePoint, [b] + rest) == Value(codePoint * 64 + (b as int - 0x80), rest)
  {
    assert ([b] + rest)[1..] == rest;
  }

  lemma DigitsOf(n: nat)
    ensures n == n / 64 * 64 + n % 64
    ensures n / 64 == n / 4096 * 64 + n / 64 % 64
    ensures n / 4096 == n / 262144 * 64 + n / 4096 % 64
  {
  }

  lemma TwoBytes(s: State, c: char)
    requires Between(s) && 0x80 <= c as int < 0x800
    ensures DecodeAll(s, EncodeChar(c)) == Emitted(s, [c])
  {
    var n := c as int;
    DigitsOf(n);
    var a: Byte, tail: Bytes := 0xC0 + n / 64, [0x80 + n % 64];
    assert EncodeChar(c) == [a] + tail;
    Begins(s, a);
    RunFirst(DecodeByte, s, a, tail);
    ValueStep(n / 64, 0x80 + n % 64, []);
    assert tail == [0x80 + n % 64] + [];
    FromLead(s, a, tail, c);
  }

  lemma ThreeBytes(s: State, c: char)
    requires Between(s) && 0x800 <= c as int < 0x1_0000
    ensures DecodeAll(s, EncodeChar(c)) == Emitted(s, [c])
  {
    var n := c as int;
    DigitsOf(n);
    var a: Byte, tail: Bytes := 0xE0 + n / 4096, [0x80 + n / 64 % 64, 0x80 + n % 64];
    assert EncodeChar(c) == [a] + tail;
    Begins(s, a);
    ValueStep(n / 4096, 0x80 + n / 64 % 64, [0x80 + n % 64]);
    ValueStep(n / 64, 0x80 + n % 64, []);
    assert [0x80 + n % 64] == [0x80 + n % 64] + [] && tail == [0x80 + n / 64 % 64] + [0x80 + n % 64];
    FromLead(s, a, tail, c);
  }

  lemma FourBytes(s: State, c: char)
    requires Between(s) && 0x1_0000 <= c as int
    ensures DecodeAll(s, EncodeChar(c)) == Emitted(s, [c])
  {
    var n := c as int;
    DigitsOf(n);
    var a: Byte, tail: Bytes := 0xF0 + n / 262144, [0x80 + n / 4096 % 64, 0x80 + n / 64 % 64, 0x80 + n % 64];
    assert EncodeChar(c) == [a] + tail;
    Begins(s, a);
    ValueStep(n / 262144, 0x80 + n / 4096 % 64, [0x80 + n / 64 % 64, 0x80 + n % 64]);
    ValueStep(n / 4096, 0x80 + n / 64 % 64, [0x80 + n % 64]);
    ValueStep(n / 64, 0x80 + n % 64, []);
    assert [0x80 + n % 64] == [0x80 + n % 64] + [];
    assert [0x80 + n / 64 % 64, 0x80 + n % 64] == [0x80 + n / 64 % 64] + [0x80 + n % 64];
    assert tail == [0x80 + n / 4096 % 64] + [0x80 + n / 64 % 64, 0x80 + n % 64];
    FromLead(s, a, tail, c);
  }

  lemma FromLead(s: State, a: Byte, tail: Bytes, c: char)
    requires DecodeByte(s, a).text == "" && DecodeByte(s, a).state.atStart == s.atStart
    requires var lead := DecodeByte(s, a).state;
             lead.seen + |tail| == lead.needed && tail != [] && lead.lower <= tail[0] <= lead.upper
    requires forall b <- tail :: 0x80 <= b <= 0xBF
    requires Value(DecodeByte(s, a).state.codePoint, tail) == c as int
    ensures DecodeAll(s, [a] + tail) == Emitted(s, [c])
  {
    var next := DecodeByte(s, a).state;
    RunFirst(DecodeByte, s, a, tail);
    TailComesOut(next, tail, c);
    SameEmission(s, next, [c]);
    assert "" + Emitted(s, [c]).text == Emitted(s, [c]).text;
  }

  lemma CharComesOut(s: State, c: char)
    requires Between(s)
    ensures DecodeAll(s, EncodeChar(c)) == Emitted(s, [c])
  {
    var n := c as int;
    if n < 0x80 {
      Begins(s, n);
      RunOne(DecodeByte, s, n);
    } else if n < 0x800 {
      TwoBytes(s, c);
    } else if n < 0x1_0000 {
      ThreeBytes(s, c);
    } else {
      FourBytes(s, c);
    }
  }

  lemma {:induction false} TextComesOut(s: State, text: string)
    requires Between(s) && (s.atStart && text != "" ==> text[0] != BYTE_ORDER_MARK)
    ensures DecodeAll(s, Encode(text)).text == text
    decreases |text|
  {
    if text != "" {
      var c, rest := text[0], text[1..];
      CharComesOut(s, c);
      RunAppend(DecodeByte, s, EncodeChar(c), Encode(rest));
      TextComesOut(Emitted(s, [c]).state, rest);
      assert text == [c] + rest;
    }
  }

  /**
   * However the bytes of a text are cut into chunks, the decoder hands over that text, wherever a character was cut.
   */
  lemma SentTextComesOut(text: string, chunks: seq<Bytes>)
    requires Flatten(chunks) == Encode(text) && (text != "" ==> text[0] != BYTE_ORDER_MARK)
    ensures Flatten(DecodedChunks(START, chunks)) == text
  {
    ChunksAddUp(START, chunks);
    TextComesOut(START, text);
  }
}
