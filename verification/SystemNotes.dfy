/**
 * harnesst's notes in front of a sent message, and taking them off again (app/chat/system-note.ts), with
 * the text composed in between (app/chat/user-content.ts).
 */
module SystemNotes {
  import opened Prelude
  import opened Text

  const NOTE_START := "<!-- harnesst:note-start -->"
  const NOTE_END := "<!-- harnesst:note-end -->"
  const LEGACY := "[harnesst] "

  // ----- Wrapping -----

  /** `replaceAll(mark, "")`: left to right, each occurrence once. */
  function RemoveAll(s: string, mark: string): string
    requires mark != ""
    decreases |s|
  {
    if s == "" then ""
    else if mark <= s then RemoveAll(s[|mark|..], mark)
    else [s[0]] + RemoveAll(s[1..], mark)
  }

  function Defanged(note: string): string { Trim(RemoveAll(note, NOTE_END)) }

  function Lines(notes: seq<Option<string>>): seq<string> {
    if notes == [] then []
    else (if notes[0].Some? && Trim(notes[0].value) != "" then [Defanged(notes[0].value)] else []) + Lines(notes[1..])
  }

  function Block(lines: seq<string>): string {
    NOTE_START + "\n" + Join(lines, "\n") + "\n" + NOTE_END
  }

  function BuildSystemNotes(notes: seq<Option<string>>): Option<string> {
    var lines := Lines(notes);
    if lines == [] then None else Some(Join([NOTE_START] + lines + [NOTE_END], "\n"))
  }

  function ComposeSentText(prefix: Option<string>, message: string, hasFiles: bool): string {
    if prefix.None? || prefix.value == "" then message
    else if message == "" && !hasFiles then prefix.value
    else prefix.value + "\n\n" + message
  }

  // ----- Stripping -----

  function DropNewlines(s: string): (r: string)
    ensures |r| <= |s|
  {
    if s != "" && s[0] == '\n' then DropNewlines(s[1..]) else s
  }

  /** Where the first line that starts with the end marker begins, counted to the newline before it. */
  function FindClose(s: string, mark: string): (r: Option<nat>)
    ensures r.Some? ==> r.value + 1 + |mark| <= |s|
    decreases |s|
  {
    if "\n" + mark <= s then Some(0)
    else if s == "" then None
    else
      var rest := FindClose(s[1..], mark);
      if rest.Some? then Some(rest.value + 1) else None
  }

  /** `^START\n[\s\S]*?\nEND\n*`, replaced by nothing. */
  function StripBetween(start: string, mark: string, s: string): (r: string)
    ensures |r| <= |s| && (r != s ==> |r| < |s|)
  {
    if !(start + "\n" <= s) then s
    else
      var body := s[|start| + 1..];
      var close := FindClose(body, mark);
      if close.None? then s else DropNewlines(body[close.value + 1 + |mark|..])
  }

  function StripBlock(s: string): (r: string)
    ensures |r| <= |s| && (r != s ==> |r| < |s|)
  {
    StripBetween(NOTE_START, NOTE_END, s)
  }

  function AfterLine(s: string): Option<string> {
    if s == "" then None else if s[0] == '\n' then Some(s[1..]) else AfterLine(s[1..])
  }

  lemma {:induction false} AfterLineShorter(s: string)
    ensures AfterLine(s).Some? ==> |AfterLine(s).value| < |s|
    decreases |s|
  {
    if s != "" && s[0] != '\n' { AfterLineShorter(s[1..]); }
  }

  /** What follows the leading lines that start with the old prefix and end with a newline. */
  function SkipLegacy(s: string): (r: string)
    ensures |r| <= |s|
    decreases |s|
  {
    if !(LEGACY <= s) then s
    else
      AfterLineShorter(s);
      var rest := AfterLine(s);
      if rest.None? then s else SkipLegacy(rest.value)
  }

  /** `^(?:\[harnesst\] [^\n]*\n)+\n+`, replaced by nothing. */
  function StripLegacy(s: string): (r: string)
    ensures |r| <= |s| && (r != s ==> |r| < |s|)
  {
    var rest := SkipLegacy(s);
    if |rest| < |s| && rest != "" && rest[0] == '\n' then DropNewlines(rest) else s
  }

  function StripOnce(s: string): (r: string)
    ensures |r| <= |s| && (r != s ==> |r| < |s|)
  {
    StripLegacy(StripBlock(s))
  }

  function Stripped(s: string): string
    decreases |s|
  {
    var next := StripOnce(s);
    if next == s then s else Stripped(next)
  }

  method StripSystemNotes(text: string) returns (out: string)
    ensures out == Stripped(text)
  {
    out := text;
    while true
      invariant Stripped(out) == Stripped(text)
      decreases |out|
    {
      var next := StripOnce(out);
      if next == out { return out; }
      out := next;
    }
  }

  // ----- Stripping ends, and leaves nothing to strip -----

  /** The result is a fixpoint: stripping it again changes nothing. */
  lemma {:induction false} StrippedIsFixed(s: string)
    ensures StripOnce(Stripped(s)) == Stripped(s) && Stripped(Stripped(s)) == Stripped(s)
    decreases |s|
  {
    if StripOnce(s) != s { StrippedIsFixed(StripOnce(s)); }
  }

  /** Neither kind of note hides the other from the loop. */
  lemma LegacyFirst(s: string)
    ensures Stripped(StripLegacy(s)) == Stripped(s)
  {
    if LEGACY <= s {
      assert s[0] == '[' && NOTE_START[0] == '<';
      assert (NOTE_START + "\n")[0] == '<';
      assert StripBlock(s) == s;
    }
  }

  // ----- Wrapping and stripping undo each other -----

  predicate OccursAt(s: string, i: nat, mark: string) {
    i + |mark| <= |s| && s[i..i + |mark|] == mark
  }

  predicate Lacks(s: string, mark: string) {
    forall i: nat | i <= |s| :: !OccursAt(s, i, mark)
  }

  /** The close found is the first place a newline and the mark stand. */
  lemma {:induction false} FindCloseIsFirst(s: string, mark: string)
    ensures var close := FindClose(s, mark);
            if close.Some?
            then OccursAt(s, close.value, "\n" + mark) &&
                 forall j: nat | j < close.value :: !OccursAt(s, j, "\n" + mark)
            else Lacks(s, "\n" + mark)
    decreases |s|
  {
    var nl := "\n" + mark;
    assert nl <= s <==> OccursAt(s, 0, nl);
    if !(nl <= s) && s != "" {
      FindCloseIsFirst(s[1..], mark);
      forall j: nat ensures OccursAt(s, j + 1, nl) <==> OccursAt(s[1..], j, nl) {
        assert j + |nl| <= |s[1..]| ==> s[1..][j..j + |nl|] == s[j + 1..j + 1 + |nl|];
      }
      forall j: nat ensures OccursAt(s, j, nl) <==> j > 0 && OccursAt(s[1..], j - 1, nl) {
        if j > 0 { assert OccursAt(s, (j - 1) + 1, nl) <==> OccursAt(s[1..], j - 1, nl); }
      }
    }
  }

  /** A mark without newlines does not reach across the newline that follows the text. */
  lemma OccursBefore(joined: string, mark: string, rest: string, i: nat)
    requires '\n' !in mark && i < |joined|
    ensures OccursAt(joined + "\n" + rest, i, "\n" + mark) <==> OccursAt(joined, i, "\n" + mark)
  {
    var s, nl := joined + "\n" + rest, "\n" + mark;
    forall k | 0 <= k < |mark| ensures mark[k] != '\n' { assert mark[k] in mark; }
    assert s[|joined|] == '\n';
    if i + |nl| <= |joined| {
      assert s[i..i + |nl|] == joined[i..i + |nl|];
    } else {
      assert nl[|joined| - i] == mark[|joined| - i - 1];
      assert i + |nl| <= |s| ==> s[i..i + |nl|][|joined| - i] == s[|joined|];
    }
  }

  lemma ClosesAtEndExactly(joined: string, mark: string, rest: string)
    requires '\n' !in mark
    ensures var close := FindClose(joined + "\n" + (mark + rest), mark);
            close.Some? && close.value <= |joined| && (close.value == |joined| <==> Lacks(joined, "\n" + mark))
  {
    var s, nl := joined + "\n" + (mark + rest), "\n" + mark;
    FindCloseIsFirst(s, mark);
    assert s[|joined|..|joined| + |nl|] == nl;
    assert OccursAt(s, |joined|, nl);
    var close := FindClose(s, mark);
    if close.value < |joined| {
      OccursBefore(joined, mark, mark + rest, close.value);
    } else {
      forall i: nat | i <= |joined| ensures !OccursAt(joined, i, nl) {
        if i < |joined| { OccursBefore(joined, mark, mark + rest, i); }
      }
    }
  }

  lemma JoinLacksExactly(first: string, mark: string, rest: string)
    requires '\n' !in mark
    ensures Lacks(first + "\n" + rest, "\n" + mark) <==>
            Lacks(first, "\n" + mark) && !(mark <= rest) && Lacks(rest, "\n" + mark)
  {
    var s, nl := first + "\n" + rest, "\n" + mark;
    forall i: nat ensures OccursAt(s, |first| + 1 + i, nl) <==> OccursAt(rest, i, nl) {
      assert i + |nl| <= |rest| ==> s[|first| + 1 + i..|first| + 1 + i + |nl|] == rest[i..i + |nl|];
    }
    assert OccursAt(s, |first|, nl) <==> mark <= rest by {
      assert |mark| <= |rest| ==> s[|first|..|first| + |nl|] == "\n" + rest[..|mark|];
      assert nl[1..] == mark && (|mark| <= |rest| ==> ("\n" + rest[..|mark|])[1..] == rest[..|mark|]);
    }
    forall i: nat | i < |first| ensures OccursAt(s, i, nl) <==> OccursAt(first, i, nl) {
      OccursBefore(first, mark, rest, i);
    }
    if Lacks(first, nl) && !(mark <= rest) && Lacks(rest, nl) {
      forall i: nat | i <= |s| ensures !OccursAt(s, i, nl) {
        if i > |first| {
          assert OccursAt(s, |first| + 1 + (i - |first| - 1), nl) <==> OccursAt(rest, i - |first| - 1, nl);
        }
      }
    }
  }

  lemma JoinStartsWith(lines: seq<string>, mark: string)
    requires lines != [] && '\n' !in mark
    ensures mark <= Join(lines, "\n") <==> mark <= lines[0]
  {
    if |lines| > 1 {
      var joined := lines[0] + "\n" + Join(lines[1..], "\n");
      assert joined[..|lines[0]|] == lines[0];
      assert joined[|lines[0]|] == '\n';
      assert |lines[0]| < |mark| ==> mark[|lines[0]|] in mark;
    }
  }

  /** No line after the first starts with the marker, nor does a line within a note. */
  predicate LinesAreSafe(lines: seq<string>, mark: string) {
    forall i :: 0 <= i < |lines| ==> Lacks(lines[i], "\n" + mark) && (i > 0 ==> !(mark <= lines[i]))
  }

  /**
   * The joined notes hold a newline and the marker exactly if a line of theirs, other than the very first, starts with
   * it.
   */
  lemma {:induction false} LinesLackExactly(lines: seq<string>, mark: string)
    requires '\n' !in mark
    ensures Lacks(Join(lines, "\n"), "\n" + mark) <==> LinesAreSafe(lines, mark)
    decreases |lines|
  {
    if |lines| > 1 {
      var rest := lines[1..];
      LinesLackExactly(rest, mark);
      JoinLacksExactly(lines[0], mark, Join(rest, "\n"));
      JoinStartsWith(rest, mark);
      forall i | 1 <= i < |lines| ensures lines[i] == rest[i - 1] {}
      assert LinesAreSafe(rest, mark) && !(mark <= rest[0]) && Lacks(lines[0], "\n" + mark) ==>
             LinesAreSafe(lines, mark);
    }
  }

  lemma {:induction false} JoinSnoc(lines: seq<string>, last: string)
    requires lines != []
    ensures Join(lines + [last], "\n") == Join(lines, "\n") + "\n" + last
    decreases |lines|
  {
    if |lines| > 1 {
      assert (lines + [last])[1..] == lines[1..] + [last];
      JoinSnoc(lines[1..], last);
    } else {
      assert (lines + [last])[1..] == [last];
    }
  }

  lemma BuiltIsBlock(lines: seq<string>)
    requires lines != []
    ensures Join([NOTE_START] + lines + [NOTE_END], "\n") == Block(lines)
  {
    assert ([NOTE_START] + lines + [NOTE_END])[1..] == lines + [NOTE_END];
    JoinSnoc(lines, NOTE_END);
  }

  lemma MarkHasNoNewline()
    ensures '\n' !in NOTE_END
  {
  }

  lemma {:induction false} DropsNothingMore(text: string, mark: string, rest: string)
    requires mark != "" && '\n' !in mark
    ensures |DropNewlines(text + (mark + rest))| >= |mark| + |rest|
    decreases |text|
  {
    if text == "" {
      assert mark[0] in mark && text + (mark + rest) == mark + rest;
    } else {
      assert (text + (mark + rest))[1..] == text[1..] + (mark + rest);
      DropsNothingMore(text[1..], mark, rest);
    }
  }

  lemma ClosedBodyStripsExactly(mark: string, joined: string, rest: string)
    requires mark != "" && '\n' !in mark
    ensures var body := joined + "\n" + (mark + rest); var close := FindClose(body, mark);
            close.Some? &&
            (DropNewlines(body[close.value + 1 + |mark|..]) == DropNewlines(rest) <==> Lacks(joined, "\n" + mark))
  {
    var body, nl := joined + "\n" + (mark + rest), "\n" + mark;
    ClosesAtEndExactly(joined, mark, rest);
    var close := FindClose(body, mark).value;
    if close == |joined| {
      assert body[close + |nl|..] == rest;
    } else {
      FindCloseIsFirst(body, mark);
      OccursBefore(joined, mark, mark + rest, close);
      assert body[close + |nl|..] == (joined[close + |nl|..] + "\n") + (mark + rest);
      DropsNothingMore(joined[close + |nl|..] + "\n", mark, rest);
    }
  }

  lemma StripsToClose(start: string, mark: string, body: string)
    requires FindClose(body, mark).Some?
    ensures StripBetween(start, mark, start + "\n" + body) ==
            DropNewlines(body[FindClose(body, mark).value + 1 + |mark|..])
  {
    Prefixed(start + "\n", body);
  }

  /** The block's text, grouped as what opens it and the rest. */
  lemma BlockOpens(start: string, mark: string, joined: string, rest: string)
    ensures start + "\n" + joined + "\n" + mark + rest == start + "\n" + (joined + "\n" + (mark + rest))
  {
    var opening := start + "\n";
    Regroup(opening, joined, "\n");
    Regroup(opening + (joined + "\n"), mark, rest);
    Regroup(opening, joined + "\n", mark + rest);
  }

  lemma StripsSame(start: string, mark: string, a: string, b: string)
    requires a == b
    ensures StripBetween(start, mark, a) == StripBetween(start, mark, b)
  {
  }

  lemma StripsBetweenExactly(start: string, mark: string, joined: string, rest: string)
    requires mark != "" && '\n' !in mark
    ensures StripBetween(start, mark, start + "\n" + joined + "\n" + mark + rest) == DropNewlines(rest) <==>
            Lacks(joined, "\n" + mark)
  {
    var s := start + "\n" + joined + "\n" + mark + rest;
    var body := joined + "\n" + (mark + rest);
    assert s == start + "\n" + body by { BlockOpens(start, mark, joined, rest); }
    ClosedBodyStripsExactly(mark, joined, rest);
    StripsToClose(start, mark, body);
    StripsSame(start, mark, s, start + "\n" + body);
  }

  /** A block comes off whole exactly if its joined lines hold no newline followed by the end marker. */
  lemma BlockStripsExactly(lines: seq<string>, rest: string)
    ensures StripBlock(Block(lines) + rest) == DropNewlines(rest) <==> Lacks(Join(lines, "\n"), "\n" + NOTE_END)
    ensures StripBlock(Block(lines) + rest) == DropNewlines(rest) <==> LinesAreSafe(lines, NOTE_END)
  {
    MarkHasNoNewline();
    StripsBetweenExactly(NOTE_START, NOTE_END, Join(lines, "\n"), rest);
    LinesLackExactly(lines, NOTE_END);
  }

  lemma StripsToMessage(s: string, rest: string)
    requires StripBlock(s) == rest && |rest| < |s|
    ensures Stripped(s) == Stripped(rest)
  {
    assert StripOnce(s) == StripLegacy(rest) && |StripLegacy(rest)| < |s|;
    LegacyFirst(rest);
  }

  /**
   * What the person sees is their message: for notes of whose de-fanged lines none but the first starts with the
   * end marker, stripping the sent text gives what stripping the message alone does, its leading newlines dropped.
   */
  lemma NotesStayHidden(notes: seq<Option<string>>, message: string, hasFiles: bool)
    requires Lines(notes) != [] && Lacks(Join(Lines(notes), "\n"), "\n" + NOTE_END)
    ensures Stripped(ComposeSentText(BuildSystemNotes(notes), message, hasFiles)) == Stripped(DropNewlines(message))
  {
    var rest := if message == "" && !hasFiles then "" else "\n\n" + message;
    SentIsBlock(notes, message, hasFiles, rest);
    BlockStripsExactly(Lines(notes), rest);
    TwoNewlines(message);
    StripsToMessage(Block(Lines(notes)) + rest, DropNewlines(message));
  }

  lemma SentIsBlock(notes: seq<Option<string>>, message: string, hasFiles: bool, rest: string)
    requires Lines(notes) != [] && rest == if message == "" && !hasFiles then "" else "\n\n" + message
    ensures ComposeSentText(BuildSystemNotes(notes), message, hasFiles) == Block(Lines(notes)) + rest
  {
    var block := Block(Lines(notes));
    BuiltIsBlock(Lines(notes));
    assert block + "\n\n" + message == block + ("\n\n" + message) && block + "" == block;
  }

  lemma TwoNewlines(message: string)
    ensures DropNewlines("\n\n" + message) == DropNewlines(message)
  {
    var s := "\n\n" + message;
    assert s[1..] == "\n" + message && s[1..][1..] == message;
  }

  // ----- What de-fanging does not catch -----

  lemma {:induction false} NothingToRemove(s: string, mark: string)
    requires mark != "" && mark[0] !in s
    ensures RemoveAll(s, mark) == s
    decreases |s|
  {
    if s != "" {
      assert s == [s[0]] + s[1..];
      assert s[0] in s;
      NothingToRemove(s[1..], mark);
    }
  }

  lemma RemovesFront(mark: string, rest: string)
    requires mark != ""
    ensures RemoveAll(mark + rest, mark) == RemoveAll(rest, mark)
  {
    assert (mark + rest)[|mark|..] == rest && mark <= mark + rest;
  }

  lemma KeepsFront(c: char, rest: string, mark: string)
    requires mark != "" && !(mark <= [c] + rest)
    ensures RemoveAll([c] + rest, mark) == [c] + RemoveAll(rest, mark)
  {
    assert ([c] + rest)[1..] == rest;
  }

  /** Removing a marker can put another one together from what was around it. */
  lemma RemovalCanRestore(mark: string, tail: string)
    requires |mark| > 1 && mark[0] !in mark[1..] && mark[0] !in tail
    ensures RemoveAll([mark[0]] + (mark + (mark[1..] + tail)), mark) == mark + tail
  {
    var rest := mark[1..] + tail;
    assert mark[1..][0] == mark[1];
    RestoresAround(mark, rest);
    NothingToRemove(rest, mark);
    Regrouped(mark, tail);
  }

  lemma Regrouped(mark: string, tail: string)
    requires mark != ""
    ensures [mark[0]] + (mark[1..] + tail) == mark + tail
  {
    assert [mark[0]] + mark[1..] == mark;
    Regroup([mark[0]], mark[1..], tail);
  }

  lemma RestoresAround(mark: string, rest: string)
    requires |mark| > 1 && mark[1] != mark[0]
    ensures RemoveAll([mark[0]] + (mark + rest), mark) == [mark[0]] + RemoveAll(rest, mark)
  {
    var after := mark + rest;
    assert ([mark[0]] + after)[1] == mark[0];
    KeepsFront(mark[0], after, mark);
    RemovesFront(mark, rest);
  }

  /** Two notes, the second with the end marker split around a whole one. */
  function SplitNotes(): seq<Option<string>> {
    [Some("a"), Some([NOTE_END[0]] + (NOTE_END + (NOTE_END[1..] + "b")))]
  }

  lemma MarkStartsOnce()
    ensures |NOTE_END| > 1 && NOTE_END[0] != 'a' && NOTE_END[0] != 'b' && !IsSpace(NOTE_END[0])
    ensures NOTE_END[0] !in NOTE_END[1..]
  {
  }

  lemma SplitNoteDefanged(mark: string)
    requires |mark| > 1 && mark[0] != 'b' && !IsSpace(mark[0]) && mark[0] !in mark[1..]
    ensures var note := [mark[0]] + (mark + (mark[1..] + "b"));
            Trim(RemoveAll(note, mark)) == mark + "b" && Trim(note) != ""
  {
    var note := [mark[0]] + (mark + (mark[1..] + "b"));
    RemovalCanRestore(mark, "b");
    assert (mark + "b")[|mark|] == 'b';
    EdgesUntrimmed(mark + "b");
    assert note[|note| - 1] == 'b';
    EdgesUntrimmed(note);
  }

  lemma SplitLines()
    ensures Lines(SplitNotes()) == ["a", NOTE_END + "b"]
  {
    MarkStartsOnce();
    SplitNoteDefanged(NOTE_END);
    NothingToRemove("a", NOTE_END);
    EdgesUntrimmed("a");
    assert SplitNotes()[1..][1..] == [];
  }

  lemma EarlyBody(mark: string, rest: string)
    ensures "a" + "\n" + (mark + "b") + "\n" + (mark + rest) == "a" + "\n" + (mark + ("b\n" + mark + rest))
  {
    var opening := "a" + "\n";
    Regroup(opening, mark, "b");
    Regroup(opening + mark, "b", "\n");
    Regroup(opening + mark, "b\n", mark + rest);
    Regroup("b\n", mark, rest);
    Regroup(opening, mark, "b\n" + mark + rest);
    assert "b" + "\n" == "b\n";
  }

  lemma StripsEarly(start: string, mark: string, rest: string)
    requires mark != "" && '\n' !in mark
    ensures StripBetween(start, mark, start + "\n" + ("a" + "\n" + (mark + "b")) + "\n" + mark + rest) ==
            "b\n" + mark + rest
  {
    var left := "b\n" + mark + rest;
    var body := "a" + "\n" + (mark + left);
    ClosesAtEndExactly("a", mark, left);
    assert Lacks("a", "\n" + mark);
    StripsToClose(start, mark, body);
    BlockOpens(start, mark, "a" + "\n" + (mark + "b"), rest);
    EarlyBody(mark, rest);
    Prefixed("a" + "\n" + mark, left);
    Regroup("a" + "\n", mark, left);
    assert left[0] == 'b';
  }

  lemma PlainTextStays(s: string)
    requires s != "" && s[0] == 'b'
    ensures Stripped(s) == s
  {
    assert NOTE_START[0] == '<' && (NOTE_START + "\n")[0] == '<' && LEGACY[0] == '[';
    assert !(NOTE_START + "\n" <= s) && !(LEGACY <= s);
  }

  /** With these notes in front of any message, the tail of the second note and the real end marker are shown. */
  lemma NoteShows(message: string, hasFiles: bool)
    ensures Stripped(ComposeSentText(BuildSystemNotes(SplitNotes()), message, hasFiles)) ==
            "b\n" + NOTE_END + (if message == "" && !hasFiles then "" else "\n\n" + message)
  {
    var rest := if message == "" && !hasFiles then "" else "\n\n" + message;
    SplitLines();
    SentIsBlock(SplitNotes(), message, hasFiles, rest);
    MarkHasNoNewline();
    MarkStartsOnce();
    StripsEarly(NOTE_START, NOTE_END, rest);
    JoinOfTwo("a", NOTE_END + "b");
    var shown := "b\n" + NOTE_END + rest;
    assert shown[0] == 'b';
    StripsToMessage(Block(Lines(SplitNotes())) + rest, shown);
    PlainTextStays(shown);
  }

  lemma JoinOfTwo(a: string, b: string)
    ensures Join([a, b], "\n") == a + "\n" + b
  {
    assert [a, b][1..] == [b];
  }
}
