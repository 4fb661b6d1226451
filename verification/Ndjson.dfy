/**
 * The stream as text (app/agent/talk.server.ts): one JSON object per line, arriving in chunks of bytes that
 * may end anywhere. The decoder hands over exactly the characters, the buffer exactly the complete lines so far.
 */
module Ndjson {
  import opened Prelude
  import opened Text
  import opened TurnEvents
  import opened TurnDrain
  import opened TurnChunks
  import Utf8

  /** The complete lines after a chunk, and the unfinished one left in the buffer. */
  datatype Fed = Fed(lines: seq<string>, buf: string)

  function Feed(buf: string, chunk: string): Fed {
    var lines := Split(buf + chunk, '\n');
    Fed(lines[..|lines| - 1], lines[|lines| - 1])
  }

  class LineBuffer {
    var buf: string

    constructor ()
      ensures buf == ""
    {
      buf := "";
    }

    method Push(chunk: string) returns (lines: seq<string>)
      modifies this
      ensures Fed(lines, buf) == Feed(old(buf), chunk)
    {
      buf := buf + chunk;
      lines := Split(buf, '\n');
      buf := lines[|lines| - 1];
      lines := lines[..|lines| - 1];
    }
  }

  /** An optional `data:` prefix and surrounding white space are dropped. */
  function Clean(raw: string): string {
    if "data:" <= raw then Trim(TrimStart(raw[|"data:"|..])) else Trim(raw)
  }

  /** Blank lines and lines that are not JSON are skipped, and do not move the cursor. */
  function EventOf(decode: string -> Option<Event>, raw: string): seq<Event> {
    var line := Clean(raw);
    if line == "" then []
    else
      var event := decode(line);
      if event.Some? then [event.value] else []
  }

  function EventsOf(decode: string -> Option<Event>, lines: seq<string>): seq<Event> {
    if lines == [] then [] else EventOf(decode, lines[0]) + EventsOf(decode, lines[1..])
  }

  /** The events each chunk of text completes. */
  function EventChunks(decode: string -> Option<Event>, buf: string, chunks: seq<string>): seq<seq<Event>>
    decreases |chunks|
  {
    if chunks == [] then []
    else
      var fed := Feed(buf, chunks[0]);
      [EventsOf(decode, fed.lines)] + EventChunks(decode, fed.buf, chunks[1..])
  }

  /** The whole lines of a text; what follows the last line break is not one. */
  function CompleteLines(text: string): seq<string> {
    var lines := Split(text, '\n');
    lines[..|lines| - 1]
  }

  // ----- The buffer is faithful -----

  /** One more character in front of the pieces. */
  function Attach(x: char, c: char, pieces: seq<string>): (r: seq<string>)
    requires pieces != []
    ensures r != []
  {
    if x == c then [""] + pieces else [[x] + pieces[0]] + pieces[1..]
  }

  lemma SplitHead(x: char, a: string, c: char)
    ensures Split([x] + a, c) == Attach(x, c, Split(a, c))
  {
    assert ([x] + a)[1..] == a;
  }

  lemma PutInFront<T>(head: T, pieces: seq<T>, more: seq<T>)
    requires pieces != []
    ensures [head] + (pieces[..|pieces| - 1] + more) == ([head] + pieces)[..|pieces|] + more
  {
  }

  lemma ReplaceFront<T>(head: T, pieces: seq<T>, more: seq<T>)
    requires |pieces| > 1
    ensures [head] + (pieces[..|pieces| - 1] + more)[1..] == ([head] + pieces[1..])[..|pieces| - 1] + more
  {
  }

  lemma AttachBefore(x: char, c: char, pieces: seq<string>, more: seq<string>)
    requires pieces != [] && more != [] && (x == c || |pieces| > 1)
    ensures var k, r := |pieces| - 1, Attach(x, c, pieces);
            r[|r| - 1] == pieces[k] && Attach(x, c, pieces[..k] + more) == r[..|r| - 1] + more
  {
    if x == c { PutInFront("", pieces, more); } else { ReplaceFront([x] + pieces[0], pieces, more); }
  }

  lemma {:induction false} SplitAppend(a: string, b: string, c: char)
    ensures var front := Split(a, c);
            Split(a + b, c) == front[..|front| - 1] + Split(front[|front| - 1] + b, c)
    decreases |a|
  {
    if a == "" {
      assert a + b == b && "" + b == b;
      assert Split("", c) == [""];
    } else {
      SplitAppend(a[1..], b, c);
      SplitCons(a[0], a[1..], b, c);
      assert a == [a[0]] + a[1..] && a + b == [a[0]] + (a[1..] + b);
    }
  }

  lemma SplitCons(x: char, a: string, b: string, c: char)
    requires var front := Split(a, c); Split(a + b, c) == front[..|front| - 1] + Split(front[|front| - 1] + b, c)
    ensures var front := Split([x] + a, c);
            Split([x] + (a + b), c) == front[..|front| - 1] + Split(front[|front| - 1] + b, c)
  {
    var pieces := Split(a, c);
    var last := pieces[|pieces| - 1];
    SplitHead(x, a, c);
    SplitHead(x, a + b, c);
    if x == c || |pieces| > 1 {
      AttachBefore(x, c, pieces, Split(last + b, c));
    } else {
      SplitHead(x, last + b, c);
      assert [x] + (last + b) == [x] + last + b;
      assert [] + Split(last + b, c) == Split(last + b, c);
    }
  }

  lemma {:induction false} EventsAppend(decode: string -> Option<Event>, a: seq<string>, b: seq<string>)
    ensures EventsOf(decode, a + b) == EventsOf(decode, a) + EventsOf(decode, b)
  {
    if a == [] {
      assert a + b == b;
    } else {
      assert (a + b)[1..] == a[1..] + b;
      EventsAppend(decode, a[1..], b);
      var first := EventOf(decode, a[0]);
      assert first + (EventsOf(decode, a[1..]) + EventsOf(decode, b)) == first + EventsOf(decode, a[1..]) +
             EventsOf(decode, b);
    }
  }

  /** The chunks add up to the complete lines of the text so far, whatever the split. */
  lemma {:induction false} ChunksGiveCompleteLines(decode: string -> Option<Event>, buf: string, chunks: seq<string>)
    requires Split(buf, '\n') == [buf]
    ensures Flatten(EventChunks(decode, buf, chunks)) == EventsOf(decode, CompleteLines(buf + Flatten(chunks)))
    decreases |chunks|
  {
    if chunks == [] {
      assert buf + Flatten(chunks) == buf;
    } else {
      var rest := Flatten(chunks[1..]);
      var fed := Feed(buf, chunks[0]);
      assert buf + Flatten(chunks) == buf + chunks[0] + rest;
      SplitAppend(buf + chunks[0], rest, '\n');
      LastPieceWhole(buf + chunks[0]);
      ChunksGiveCompleteLines(decode, fed.buf, chunks[1..]);
      EventsAppend(decode, fed.lines, CompleteLines(fed.buf + rest));
      assert CompleteLines(buf + Flatten(chunks)) == fed.lines + CompleteLines(fed.buf + rest);
    }
  }

  lemma {:induction false} LastPieceWhole(text: string)
    ensures var pieces := Split(text, '\n');
            Split(pieces[|pieces| - 1], '\n') == [pieces[|pieces| - 1]]
  {
    if text != "" {
      LastPieceWhole(text[1..]);
      var rest := Split(text[1..], '\n');
      if text[0] != '\n' && |rest| == 1 {
        assert ([text[0]] + rest[0])[1..] == rest[0];
      }
    }
  }

  /**
   * However the text of a stream is batched into chunks, the drain ends alike when nothing settles
   * the turn; when the `p`-th event does, both drains handle the first `p` events and read on only to
   * the end of the chunk that completed that event's line.
   */
  lemma TextChunkingIrrelevant(decode: string -> Option<Event>, input: DrainInput, s: DrainState, a: seq<string>,
      b: seq<string>)
    requires !s.settled && Flatten(a) == Flatten(b)
    ensures var x, y := EventChunks(decode, "", a), EventChunks(decode, "", b);
            Flatten(x) == EventsOf(decode, CompleteLines(Flatten(a))) == Flatten(y) && ReadAlike(input, s, x, y)
  {
    assert "" + Flatten(a) == Flatten(a) && "" + Flatten(b) == Flatten(b);
    ChunksGiveCompleteLines(decode, "", a);
    ChunksGiveCompleteLines(decode, "", b);
    ChunkingIrrelevant(input, s, EventChunks(decode, "", a), EventChunks(decode, "", b));
  }

  /** The same of bytes: a chunk may end within a line, and within a character. */
  lemma ByteChunkingIrrelevant(decode: string -> Option<Event>, input: DrainInput, s: DrainState,
      a: seq<Utf8.Bytes>, b: seq<Utf8.Bytes>)
    requires !s.settled && Flatten(a) == Flatten(b)
    ensures var x := EventChunks(decode, "", Utf8.DecodedChunks(Utf8.START, a));
            var y := EventChunks(decode, "", Utf8.DecodedChunks(Utf8.START, b));
            Flatten(x) == EventsOf(decode, CompleteLines(Utf8.DecodeAll(Utf8.START, Flatten(a)).text)) == Flatten(y) &&
            ReadAlike(input, s, x, y)
  {
    Utf8.ChunksAddUp(Utf8.START, a);
    Utf8.ChunksAddUp(Utf8.START, b);
    TextChunkingIrrelevant(decode, input, s, Utf8.DecodedChunks(Utf8.START, a), Utf8.DecodedChunks(Utf8.START, b));
  }

  /** The events read are those of the lines sent, however the bytes of the text were cut. */
  lemma SentLinesAreRead(decode: string -> Option<Event>, text: string, chunks: seq<Utf8.Bytes>)
    requires Flatten(chunks) == Utf8.Encode(text) && (text != "" ==> text[0] != Utf8.BYTE_ORDER_MARK)
    ensures Flatten(EventChunks(decode, "", Utf8.DecodedChunks(Utf8.START, chunks))) ==
            EventsOf(decode, CompleteLines(text))
  {
    Utf8.SentTextComesOut(text, chunks);
    assert "" + text == text;
    ChunksGiveCompleteLines(decode, "", Utf8.DecodedChunks(Utf8.START, chunks));
  }
}
