/**
 * Stripping notes round after round (app/chat/system-note.ts): what the loop makes of a sent text, whose front is
 * harnesst's own, up to the end marker, and whose rest is the message.
 */
module NoteLoops {
  import opened Prelude
  import opened Text
  import opened SystemNotes

  // ----- A front of whole lines -----

  /** Empty, or ending with a newline. */
  predicate WholeLines(t: string) {
    t == "" || t[|t| - 1] == '\n'
  }

  lemma PrefixGoesOn(a: string, b: string, x: string)
    ensures a + b <= x ==> a <= x
  {
    assert (a + b)[..|a|] == a;
  }

  /** An opener without newlines lies within the front. */
  lemma OpensInFront(t: string, x: string, opener: string)
    requires WholeLines(t) && '\n' !in opener && !(opener <= x)
    ensures opener <= t + x <==> opener <= t
    ensures opener + "\n" <= t + x <==> opener + "\n" <= t
  {
    var s := t + x;
    if t == "" {
      assert s == x;
      PrefixGoesOn(opener, "\n", x);
    } else {
      assert s[|t| - 1] == '\n';
      if |t| <= |opener| { assert opener[|t| - 1] in opener; }
      assert opener <= s ==> |opener| < |t|;
      assert opener + "\n" <= s ==> s[..|opener|] == (opener + "\n")[..|opener|] == opener;
      assert |opener| < |t| ==> s[..|opener|] == t[..|opener|] && s[..|opener| + 1] == t[..|opener| + 1];
    }
  }

  lemma {:induction false} DropsInFront(t: string, x: string)
    requires WholeLines(t) && x != "" && x[0] != '\n'
    ensures DropNewlines(t + x) == DropNewlines(t) + x
    ensures WholeLines(DropNewlines(t))
    decreases |t|
  {
    if t == "" {
      assert t + x == x;
    } else {
      assert (t + x)[1..] == t[1..] + x;
      if t[0] == '\n' { DropsInFront(t[1..], x); }
    }
  }

  // ----- Old notes -----

  lemma {:induction false} LineInFront(t: string, x: string)
    requires WholeLines(t) && t != ""
    ensures AfterLine(t).Some? && AfterLine(t + x) == Some(AfterLine(t).value + x)
    ensures WholeLines(AfterLine(t).value) && |AfterLine(t).value| < |t|
    decreases |t|
  {
    assert (t + x)[1..] == t[1..] + x;
    if t[0] != '\n' { LineInFront(t[1..], x); }
  }

  lemma LegacyHasNoNewline()
    ensures '\n' !in LEGACY && LEGACY[0] == '['
  {
  }

  lemma {:induction false} LegacyInFront(t: string, x: string)
    requires WholeLines(t) && x != "" && x[0] != '['
    ensures SkipLegacy(t + x) == SkipLegacy(t) + x && WholeLines(SkipLegacy(t))
    decreases |t|
  {
    LegacyHasNoNewline();
    OpensInFront(t, x, LEGACY);
    if LEGACY <= t {
      LineInFront(t, x);
      LegacyInFront(AfterLine(t).value, x);
    }
  }

  lemma LegacyStripsFront(t: string, x: string)
    requires WholeLines(t) && x != "" && x[0] != '[' && x[0] != '\n'
    ensures StripLegacy(t + x) == StripLegacy(t) + x && WholeLines(StripLegacy(t))
  {
    LegacyInFront(t, x);
    DropsInFront(SkipLegacy(t), x);
  }

  // ----- A block -----

  /** A block is open from the start of the front, and closes with it. */
  predicate Closing(start: string, mark: string, t: string) {
    start + "\n" <= t && |t| > |start| + 1 && FindClose(t[|start| + 1..], mark).None?
  }

  lemma CloseInFront(joined: string, mark: string, rest: string)
    requires '\n' !in mark
    ensures var close := FindClose(joined + "\n" + (mark + rest), mark);
            close.Some? &&
            if FindClose(joined + "\n", mark).Some? then close == FindClose(joined + "\n", mark)
            else close.value == |joined|
  {
    ClosesAtEndExactly(joined, mark, rest);
    var nl, front, body := "\n" + mark, joined + "\n", joined + "\n" + (mark + rest);
    FindCloseIsFirst(front, mark);
    FindCloseIsFirst(body, mark);
    assert front + "" == front && joined + "\n" + "" == front;
    forall i: nat | i < |joined| ensures OccursAt(body, i, nl) <==> OccursAt(front, i, nl) {
      OccursBefore(joined, mark, mark + rest, i);
      OccursBefore(joined, mark, "", i);
    }
  }

  /** The marker's own line holds no newline, so a close after it lies in the rest. */
  lemma NoCloseAfter(mark: string, rest: string)
    requires '\n' !in mark && Lacks(rest, "\n" + mark)
    ensures FindClose(mark + rest, mark).None?
  {
    var nl, s := "\n" + mark, mark + rest;
    FindCloseIsFirst(s, mark);
    forall i: nat | i <= |s| ensures !OccursAt(s, i, nl) {
      if i < |mark| {
        assert s[i] == mark[i] && mark[i] in mark;
        assert i + |nl| <= |s| ==> s[i..i + |nl|][0] == s[i] && nl[0] == '\n';
      } else {
        var j := i - |mark|;
        assert !OccursAt(rest, j, nl) && s[|mark|..] == rest;
        assert i + |nl| <= |s| ==> s[|mark|..][j..j + |nl|] == s[i..i + |nl|];
      }
    }
  }

  lemma NothingCloses(start: string, mark: string, body: string)
    requires FindClose(body, mark).None?
    ensures StripBetween(start, mark, start + "\n" + body) == start + "\n" + body
  {
    Prefixed(start + "\n", body);
  }

  lemma ClosingIs(start: string, mark: string, inner: string)
    ensures Closing(start, mark, start + "\n" + inner) <==> inner != "" && FindClose(inner, mark).None?
  {
    Prefixed(start + "\n", inner);
  }

  /** A block that the front opens and nothing in it closes goes with the marker. */
  lemma LastCloses(start: string, mark: string, inner: string, x: string, rest: string)
    requires WholeLines(inner) && inner != "" && mark != "" && '\n' !in mark && x == mark + rest
    requires FindClose(inner, mark).None?
    ensures StripBetween(start, mark, start + "\n" + (inner + x)) == DropNewlines(rest)
  {
    LastRound(inner, mark, x, rest);
    StripsToClose(start, mark, inner + x);
  }

  /** Bodies that close at the same place and differ only after it. */
  lemma SameClose(start: string, mark: string, a: string, b: string, x: string)
    requires FindClose(a, mark).Some? && FindClose(b, mark) == FindClose(a, mark)
    requires var k := FindClose(a, mark).value + 1 + |mark|; DropNewlines(b[k..]) == DropNewlines(a[k..]) + x
    requires WholeLines(DropNewlines(a[FindClose(a, mark).value + 1 + |mark|..]))
    ensures StripBetween(start, mark, start + "\n" + b) == StripBetween(start, mark, start + "\n" + a) + x
    ensures WholeLines(StripBetween(start, mark, start + "\n" + a))
  {
    StripsToClose(start, mark, a);
    StripsToClose(start, mark, b);
  }

  /** One that a line in it closes leaves the marker and all that follows. */
  lemma EarlyCloses(start: string, mark: string, inner: string, x: string, rest: string)
    requires WholeLines(inner) && inner != "" && mark != "" && '\n' !in mark && x == mark + rest
    requires FindClose(inner, mark).Some?
    ensures var own := StripBetween(start, mark, start + "\n" + inner);
            StripBetween(start, mark, start + "\n" + (inner + x)) == own + x && WholeLines(own)
  {
    EarlyRound(inner, mark, x, rest);
    SameClose(start, mark, inner, inner + x, x);
  }

  lemma EmptyStrips(start: string, mark: string, x: string)
    requires FindClose(x, mark).None? && mark != ""
    ensures StripBetween(start, mark, start + "\n" + x) == start + "\n" + x
    ensures StripBetween(start, mark, start + "\n") == start + "\n"
  {
    NothingCloses(start, mark, x);
    NothingCloses(start, mark, "");
    assert start + "\n" + "" == start + "\n";
  }

  /** What one strip of a block does to a front and what follows it. */
  lemma BlockRound(start: string, mark: string, t: string, rest: string)
    requires WholeLines(t) && mark != "" && '\n' !in start && '\n' !in mark && !(start <= mark + rest)
    requires t == start + "\n" ==> FindClose(mark + rest, mark).None?
    ensures Closing(start, mark, t) ==> StripBetween(start, mark, t + (mark + rest)) == DropNewlines(rest)
    ensures !Closing(start, mark, t) ==>
            StripBetween(start, mark, t + (mark + rest)) == StripBetween(start, mark, t) + (mark + rest) &&
            WholeLines(StripBetween(start, mark, t))
  {
    var x, opening := mark + rest, start + "\n";
    OpensInFront(t, x, start);
    if opening == t {
      EmptyStrips(start, mark, x);
    } else if opening <= t {
      var inner := t[|opening|..];
      assert t == opening + inner && inner != "";
      Regroup(opening, inner, x);
      ClosingIs(start, mark, inner);
      if FindClose(inner, mark).None? {
        LastCloses(start, mark, inner, x, rest);
      } else {
        EarlyCloses(start, mark, inner, x, rest);
      }
    }
  }

  lemma LastRound(inner: string, mark: string, x: string, rest: string)
    requires WholeLines(inner) && inner != "" && '\n' !in mark && x == mark + rest && FindClose(inner, mark).None?
    ensures FindClose(inner + x, mark) == Some(|inner| - 1)
    ensures (inner + x)[|inner| + |mark|..] == rest
  {
    var joined := inner[..|inner| - 1];
    assert inner == joined + "\n";
    CloseInFront(joined, mark, rest);
    Regroup(inner, mark, rest);
    Prefixed(inner + mark, rest);
  }

  lemma EarlyRound(inner: string, mark: string, x: string, rest: string)
    requires WholeLines(inner) && inner != "" && mark != "" && '\n' !in mark && x == mark + rest
    requires FindClose(inner, mark).Some?
    ensures FindClose(inner + x, mark) == FindClose(inner, mark)
    ensures var k := FindClose(inner, mark).value + 1 + |mark|;
            DropNewlines((inner + x)[k..]) == DropNewlines(inner[k..]) + x && WholeLines(DropNewlines(inner[k..]))
  {
    var joined := inner[..|inner| - 1];
    assert inner == joined + "\n";
    CloseInFront(joined, mark, rest);
    assert x[0] == mark[0] && mark[0] in mark;
    LeftInFront(inner, x, FindClose(inner, mark).value + 1 + |mark|);
  }

  lemma LeftInFront(inner: string, x: string, k: nat)
    requires WholeLines(inner) && k <= |inner| && x != "" && x[0] != '\n'
    ensures DropNewlines((inner + x)[k..]) == DropNewlines(inner[k..]) + x && WholeLines(DropNewlines(inner[k..]))
  {
    assert (inner + x)[k..] == inner[k..] + x;
    DropsInFront(inner[k..], x);
  }

  // ----- One round of the loop -----

  lemma MarksDiffer()
    ensures |NOTE_START| > 19 && |NOTE_END| > 19 && NOTE_START[19] != NOTE_END[19]
    ensures '\n' !in NOTE_START && '\n' !in NOTE_END
    ensures NOTE_END[0] == NOTE_START[0] == '<'
  {
  }

  lemma EndIsNoStart(rest: string)
    ensures !(NOTE_START <= NOTE_END + rest)
  {
    MarksDiffer();
    assert (NOTE_END + rest)[19] == NOTE_END[19];
  }

  /** The front leaves with the marker, or is stripped on its own. */
  lemma Round(t: string, rest: string)
    requires WholeLines(t) && (t == NOTE_START + "\n" ==> Lacks(rest, "\n" + NOTE_END))
    ensures Closing(NOTE_START, NOTE_END, t) ==> Stripped(t + (NOTE_END + rest)) == Stripped(DropNewlines(rest))
    ensures !Closing(NOTE_START, NOTE_END, t) ==>
            StripOnce(t + (NOTE_END + rest)) == StripOnce(t) + (NOTE_END + rest) && WholeLines(StripOnce(t))
  {
    var x := NOTE_END + rest;
    MarksDiffer();
    EndIsNoStart(rest);
    if t == NOTE_START + "\n" { NoCloseAfter(NOTE_END, rest); }
    BlockRound(NOTE_START, NOTE_END, t, rest);
    assert x[0] == '<';
    if Closing(NOTE_START, NOTE_END, t) {
      StripsToMessage(t + x, DropNewlines(rest));
    } else {
      LegacyStripsFront(StripBlock(t), x);
    }
  }

  // ----- The whole loop -----

  /** The loop takes the front off and the end marker with it. */
  predicate Leaves(t: string)
    decreases |t|
  {
    Closing(NOTE_START, NOTE_END, t) || (StripOnce(t) != t && Leaves(StripOnce(t)))
  }

  lemma {:induction false} SuffixOfLegacy(s: string) returns (k: nat)
    ensures k <= |s| && SkipLegacy(s) == s[k..]
    decreases |s|
  {
    k := 0;
    if LEGACY <= s && AfterLine(s).Some? {
      var j := SuffixOfLine(s);
      var i := SuffixOfLegacy(AfterLine(s).value);
      k := j + i;
      assert s[j..][i..] == s[j + i..];
    }
  }

  lemma {:induction false} SuffixOfLine(s: string) returns (k: nat)
    requires AfterLine(s).Some?
    ensures 0 < k <= |s| && AfterLine(s).value == s[k..]
    decreases |s|
  {
    if s[0] == '\n' {
      k := 1;
    } else {
      k := SuffixOfLine(s[1..]);
      assert s[1..][k..] == s[k + 1..];
      k := k + 1;
    }
  }

  lemma {:induction false} SuffixOfNewlines(s: string) returns (k: nat)
    ensures k <= |s| && DropNewlines(s) == s[k..]
    decreases |s|
  {
    k := 0;
    if s != "" && s[0] == '\n' {
      k := SuffixOfNewlines(s[1..]);
      assert s[1..][k..] == s[k + 1..];
      k := k + 1;
    }
  }

  lemma SuffixLacks(s: string, k: nat, mark: string)
    requires k <= |s| && Lacks(s, mark)
    ensures Lacks(s[k..], mark)
  {
    forall i: nat | i <= |s[k..]| ensures !OccursAt(s[k..], i, mark) {
      assert !OccursAt(s, k + i, mark);
      assert i + |mark| <= |s[k..]| ==> s[k..][i..i + |mark|] == s[k + i..k + i + |mark|];
    }
  }

  lemma LegacyLacks(t: string, mark: string)
    requires Lacks(t, mark)
    ensures Lacks(StripLegacy(t), mark)
  {
    var k := SuffixOfLegacy(t);
    SuffixLacks(t, k, mark);
    var j := SuffixOfNewlines(t[k..]);
    SuffixLacks(t[k..], j, mark);
  }

  /** Without a start marker in it no block opens in a front, now or later. */
  lemma NothingOpens(t: string)
    requires Lacks(t, NOTE_START)
    ensures !(NOTE_START + "\n" <= t) && StripBlock(t) == t && Lacks(StripOnce(t), NOTE_START)
  {
    assert !OccursAt(t, 0, NOTE_START);
    PrefixGoesOn(NOTE_START, "\n", t);
    LegacyLacks(t, NOTE_START);
  }

  lemma {:induction false} NeverLeaves(t: string)
    requires Lacks(t, NOTE_START)
    ensures !Leaves(t)
    decreases |t|
  {
    NothingOpens(t);
    if StripOnce(t) != t { NeverLeaves(StripOnce(t)); }
  }

  lemma {:induction false} StrippedIsNoLonger(s: string)
    ensures |Stripped(s)| <= |s|
    decreases |s|
  {
    if StripOnce(s) != s { StrippedIsNoLonger(StripOnce(s)); }
  }

  /**
   * The loop either takes the front and the marker off what follows, or shows at least the marker and all that follows.
   */
  lemma {:induction false} LoopExactly(t: string, rest: string)
    requires WholeLines(t) && (Lacks(rest, "\n" + NOTE_END) || Lacks(t, NOTE_START))
    ensures if Leaves(t) then Stripped(t + (NOTE_END + rest)) == Stripped(DropNewlines(rest))
            else |Stripped(t + (NOTE_END + rest))| >= |NOTE_END| + |rest|
    decreases |t|
  {
    if Lacks(t, NOTE_START) { NothingOpens(t); }
    Round(t, rest);
    var x, next := NOTE_END + rest, StripOnce(t);
    if !Closing(NOTE_START, NOTE_END, t) {
      if next != t {
        assert |next| < |t|;
        assert next + x != t + x;
        LoopExactly(next, rest);
      }
    }
  }

  /** So the message shows as it would alone exactly if the front leaves. */
  lemma ShownExactly(t: string, rest: string)
    requires WholeLines(t) && (Lacks(rest, "\n" + NOTE_END) || Lacks(t, NOTE_START))
    ensures Stripped(t + (NOTE_END + rest)) == Stripped(DropNewlines(rest)) <==> Leaves(t)
  {
    LoopExactly(t, rest);
    StrippedIsNoLonger(DropNewlines(rest));
    MarksDiffer();
  }

  // ----- Notes in front of a message -----

  /** The front of a block. */
  function Front(lines: seq<string>): string { NOTE_START + "\n" + (Join(lines, "\n") + "\n") }

  lemma BlockIsFront(lines: seq<string>, rest: string)
    ensures Block(lines) + rest == Front(lines) + (NOTE_END + rest) && WholeLines(Front(lines))
  {
    var joined, opening := Join(lines, "\n"), NOTE_START + "\n";
    Regroup(opening, joined, "\n");
    Regroup(Front(lines), NOTE_END, rest);
    assert Front(lines)[|Front(lines)| - 1] == '\n';
  }

  /** The block closes where it was closed exactly if no line after the first starts with the end marker. */
  lemma ClosesExactly(lines: seq<string>)
    ensures Closing(NOTE_START, NOTE_END, Front(lines)) <==> LinesAreSafe(lines, NOTE_END)
  {
    var joined, nl := Join(lines, "\n"), "\n" + NOTE_END;
    MarksDiffer();
    LinesLackExactly(lines, NOTE_END);
    Prefixed(NOTE_START + "\n", joined + "\n");
    FindCloseIsFirst(joined + "\n", NOTE_END);
    assert joined + "\n" + "" == joined + "\n";
    forall i: nat | i < |joined| ensures OccursAt(joined + "\n", i, nl) <==> OccursAt(joined, i, nl) {
      OccursBefore(joined, NOTE_END, "", i);
    }
  }

  /** Once a block was closed too early, what is left of its front has no start marker in it, if its lines have none. */
  lemma EarlyCloseLacks(lines: seq<string>)
    requires Lacks(Join(lines, "\n"), NOTE_START) && !Closing(NOTE_START, NOTE_END, Front(lines))
    ensures StripOnce(Front(lines)) != Front(lines) && Lacks(StripOnce(Front(lines)), NOTE_START)
  {
    var inner := Join(lines, "\n") + "\n";
    MarksDiffer();
    Prefixed(NOTE_START + "\n", inner);
    InnerLacks(Join(lines, "\n"), NOTE_START);
    var k := FindClose(inner, NOTE_END).value + 1 + |NOTE_END|;
    SuffixLacks(inner, k, NOTE_START);
    var j := SuffixOfNewlines(inner[k..]);
    SuffixLacks(inner[k..], j, NOTE_START);
    assert StripBlock(Front(lines)) == DropNewlines(inner[k..]);
    LegacyLacks(StripBlock(Front(lines)), NOTE_START);
  }

  lemma InnerLacks(joined: string, mark: string)
    requires Lacks(joined, mark) && mark != "" && '\n' !in mark
    ensures Lacks(joined + "\n", mark)
  {
    forall i: nat | i <= |joined + "\n"| ensures !OccursAt(joined + "\n", i, mark) {
      assert i <= |joined| ==> !OccursAt(joined, i, mark);
      assert i + |mark| <= |joined| ==> (joined + "\n")[i..i + |mark|] == joined[i..i + |mark|];
      assert mark[|mark| - 1] in mark;
      assert i + |mark| == |joined| + 1 ==> (joined + "\n")[i..i + |mark|][|mark| - 1] == '\n';
    }
  }

  lemma FrontLeavesExactly(lines: seq<string>)
    requires Lacks(Join(lines, "\n"), NOTE_START)
    ensures Leaves(Front(lines)) <==> LinesAreSafe(lines, NOTE_END)
  {
    ClosesExactly(lines);
    if !Closing(NOTE_START, NOTE_END, Front(lines)) {
      EarlyCloseLacks(lines);
      NeverLeaves(StripOnce(Front(lines)));
    }
  }

  lemma BlockShownExactly(lines: seq<string>, rest: string)
    requires Lacks(rest, "\n" + NOTE_END) || Lacks(Join(lines, "\n"), NOTE_START)
    ensures Stripped(Block(lines) + rest) == Stripped(DropNewlines(rest)) <==> Leaves(Front(lines))
  {
    BlockIsFront(lines, rest);
    if Lacks(rest, "\n" + NOTE_END) {
      ShownExactly(Front(lines), rest);
    } else {
      var t, x := Front(lines), NOTE_END + rest;
      assert t != NOTE_START + "\n" by { Prefixed(NOTE_START + "\n", Join(lines, "\n") + "\n"); }
      Round(t, rest);
      if !Closing(NOTE_START, NOTE_END, t) {
        EarlyCloseLacks(lines);
        ShownExactly(StripOnce(t), rest);
      }
    }
  }

  /**
   * A block comes off in the end exactly if it comes off alone, whatever message follows it, as long as the message
   * does not close a block itself or the notes do not open one.
   */
  lemma BlockHiddenExactly(lines: seq<string>, rest: string)
    requires Lacks(rest, "\n" + NOTE_END) || Lacks(Join(lines, "\n"), NOTE_START)
    ensures Stripped(Block(lines) + rest) == Stripped(DropNewlines(rest)) <==> Stripped(Block(lines)) == ""
    ensures Lacks(Join(lines, "\n"), NOTE_START) ==>
            (Stripped(Block(lines) + rest) == Stripped(DropNewlines(rest)) <==> LinesAreSafe(lines, NOTE_END))
  {
    BlockShownExactly(lines, rest);
    BlockShownExactly(lines, "");
    assert Block(lines) + "" == Block(lines) && Stripped(DropNewlines("")) == "";
    if Lacks(Join(lines, "\n"), NOTE_START) { FrontLeavesExactly(lines); }
  }

  lemma MessageIsRest(message: string)
    requires Lacks("\n" + message, "\n" + NOTE_END)
    ensures Lacks("\n\n" + message, "\n" + NOTE_END)
  {
    var nl, s := "\n" + NOTE_END, "\n\n" + message;
    assert s[1..] == "\n" + message;
    forall i: nat | i <= |s| ensures !OccursAt(s, i, nl) {
      if i == 0 {
        assert s[1] == '\n' && nl[1] == '<' by { MarksDiffer(); }
        assert |nl| <= |s| ==> s[0..|nl|][1] == s[1];
      } else {
        assert !OccursAt(s[1..], i - 1, nl);
        assert i + |nl| <= |s| ==> s[1..][i - 1..i - 1 + |nl|] == s[i..i + |nl|];
      }
    }
  }

  /** The person sees their message as it would look without notes. */
  predicate Hidden(notes: seq<Option<string>>, message: string, hasFiles: bool) {
    Stripped(ComposeSentText(BuildSystemNotes(notes), message, hasFiles)) == Stripped(DropNewlines(message))
  }

  /**
   * Notes are hidden if no de-fanged line of theirs after the first starts with the end marker. For notes without a
   * start marker that is exact, whatever the message. For any notes they are hidden exactly if they are stripped to
   * nothing alone, unless a line of the message starts with the end marker.
   */
  lemma NotesHiddenExactly(notes: seq<Option<string>>, message: string, hasFiles: bool)
    requires Lines(notes) != []
    ensures LinesAreSafe(Lines(notes), NOTE_END) ==> Hidden(notes, message, hasFiles)
    ensures Lacks(Join(Lines(notes), "\n"), NOTE_START) ==>
            (Hidden(notes, message, hasFiles) <==> LinesAreSafe(Lines(notes), NOTE_END))
    ensures Lacks("\n" + message, "\n" + NOTE_END) ==>
            (Hidden(notes, message, hasFiles) <==> Stripped(BuildSystemNotes(notes).Or(Some("")).value) == "")
  {
    var lines := Lines(notes);
    var rest := if message == "" && !hasFiles then "" else "\n\n" + message;
    SentIsBlock(notes, message, hasFiles, rest);
    BuiltIsBlock(lines);
    TwoNewlines(message);
    MarksDiffer();
    LinesLackExactly(lines, NOTE_END);
    if LinesAreSafe(lines, NOTE_END) { NotesStayHidden(notes, message, hasFiles); }
    if Lacks("\n" + message, "\n" + NOTE_END) {
      MessageIsRest(message);
      EmptyLacks();
      BlockHiddenExactly(lines, rest);
    }
    if Lacks(Join(lines, "\n"), NOTE_START) { BlockHiddenExactly(lines, rest); }
  }

  lemma EmptyLacks()
    ensures Lacks("", "\n" + NOTE_END)
  {
  }

  // ----- Why notes with a start marker are apart -----

  /** A note that de-fanging leaves as a bare end marker. */
  function SplitMarker(): string { [NOTE_END[0]] + (NOTE_END + (NOTE_END[1..] + "")) }

  lemma ApartAt(a: string, b: string, k: nat)
    requires k < |a| && k < |b| && a[k] != b[k]
    ensures !(a <= b)
  {
  }

  lemma MarkersAreTrim()
    ensures !IsSpace(NOTE_END[0]) && !IsSpace(NOTE_START[0])
    ensures !IsSpace(NOTE_END[|NOTE_END| - 1]) && !IsSpace(NOTE_START[|NOTE_START| - 1])
  {
  }

  lemma StartHasOneOpening()
    ensures NOTE_START[0] !in NOTE_START[1..]
  {
  }

  lemma MarkDefanged(mark: string)
    requires |mark| > 1 && mark[0] !in mark[1..] && !IsSpace(mark[0]) && !IsSpace(mark[|mark| - 1])
    ensures var note := [mark[0]] + (mark + (mark[1..] + "")); Trim(RemoveAll(note, mark)) == mark && Trim(note) != ""
  {
    var note := [mark[0]] + (mark + (mark[1..] + ""));
    RemovalCanRestore(mark, "");
    assert mark + "" == mark;
    EdgesUntrimmed(mark);
    assert note[|note| - 1] == mark[|mark| - 1];
    EdgesUntrimmed(note);
  }

  lemma OtherDefanged(start: string, mark: string)
    requires start != "" && mark != "" && mark[0] !in start[1..] && !(mark <= start)
    requires !IsSpace(start[0]) && !IsSpace(start[|start| - 1])
    ensures Trim(RemoveAll(start, mark)) == start && Trim(start) != ""
  {
    NothingToRemove(start[1..], mark);
    assert [start[0]] + start[1..] == start;
    KeepsFront(start[0], start[1..], mark);
    EdgesUntrimmed(start);
  }

  lemma MarkerNotes()
    ensures Defanged(SplitMarker()) == NOTE_END && Trim(SplitMarker()) != ""
    ensures Defanged(NOTE_START) == NOTE_START && Trim(NOTE_START) != ""
  {
    MarksDiffer();
    MarkersAreTrim();
    MarkStartsOnce();
    StartHasOneOpening();
    ApartAt(NOTE_END, NOTE_START, 19);
    MarkDefanged(NOTE_END);
    OtherDefanged(NOTE_START, NOTE_END);
  }

  lemma PlainNote(note: string)
    requires note == "a" || note == "x"
    ensures Defanged(note) == note && Trim(note) != ""
  {
    MarkStartsOnce();
    MarksDiffer();
    NothingToRemove(note, NOTE_END);
    EdgesUntrimmed(note);
  }

  predicate IsLine(note: string, line: string) { Trim(note) != "" && Defanged(note) == line }

  lemma FirstLine(note: string, line: string, notes: seq<Option<string>>)
    requires IsLine(note, line)
    ensures Lines([Some(note)] + notes) == [line] + Lines(notes)
  {
    assert ([Some(note)] + notes)[1..] == notes;
  }

  lemma ThreeLines(a: string, b: string, c: string, x: string, y: string, z: string)
    requires IsLine(a, x) && IsLine(b, y) && IsLine(c, z)
    ensures Lines([Some(a), Some(b), Some(c)]) == [x, y, z]
  {
    FirstLine(c, z, []);
    assert [Some(c)] + [] == [Some(c)];
    FirstLine(b, y, [Some(c)]);
    assert [Some(b)] + [Some(c)] == [Some(b), Some(c)];
    FirstLine(a, x, [Some(b), Some(c)]);
    assert [Some(a)] + [Some(b), Some(c)] == [Some(a), Some(b), Some(c)];
  }

  lemma FourLines(a: string, b: string, c: string, d: string, x: string, y: string, z: string, w: string)
    requires IsLine(a, x) && IsLine(b, y) && IsLine(c, z) && IsLine(d, w)
    ensures Lines([Some(a), Some(b), Some(c), Some(d)]) == [x, y, z, w]
  {
    ThreeLines(b, c, d, y, z, w);
    FirstLine(a, x, [Some(b), Some(c), Some(d)]);
    assert [Some(a)] + [Some(b), Some(c), Some(d)] == [Some(a), Some(b), Some(c), Some(d)];
  }

  /** Notes that close their block early and open another, which the real end marker closes. */
  function Reopening(): seq<Option<string>> {
    [Some("a"), Some(SplitMarker()), Some(NOTE_START), Some("x")]
  }

  /** And notes that end with the other block's opening. */
  function Unclosed(): seq<Option<string>> {
    [Some("a"), Some(SplitMarker()), Some(NOTE_START)]
  }

  lemma LinesOfNotes(a: string, note: string, start: string, x: string, mark: string)
    requires IsLine(a, a) && IsLine(note, mark) && IsLine(start, start) && IsLine(x, x)
    ensures Lines([Some(a), Some(note), Some(start), Some(x)]) == [a, mark] + [start, x]
    ensures Lines([Some(a), Some(note), Some(start)]) == [a, mark] + [start]
  {
    FourLines(a, note, start, x, a, mark, start, x);
    ThreeLines(a, note, start, a, mark, start);
  }

  lemma ReopeningLines()
    ensures Lines(Reopening()) == ["a", NOTE_END] + [NOTE_START, "x"]
    ensures Lines(Unclosed()) == ["a", NOTE_END] + [NOTE_START]
  {
    MarkerNotes();
    PlainNote("a");
    PlainNote("x");
    LinesOfNotes("a", SplitMarker(), NOTE_START, "x", NOTE_END);
  }

  lemma JoinAfterTwo(a: string, b: string, more: seq<string>)
    requires more != []
    ensures Join([a, b] + more, "\n") == a + "\n" + (b + ("\n" + Join(more, "\n")))
  {
    var rest := Join(more, "\n");
    assert ([a, b] + more)[1..] == [b] + more && ([b] + more)[1..] == more;
    assert Join([b] + more, "\n") == b + "\n" + rest;
    Regroup(b, "\n", rest);
  }

  lemma EarlyFront(mark: string, more: string)
    ensures "a" + "\n" + (mark + ("\n" + more)) + "\n" == "a" + "\n" + (mark + ("\n" + more + "\n"))
  {
    var opening := "a" + "\n";
    Regroup(opening, mark + ("\n" + more), "\n");
    Regroup(mark, "\n" + more, "\n");
  }

  /** The first round closes at the second line and leaves the lines after it. */
  lemma FirstRound(start: string, mark: string, more: string)
    requires mark != "" && '\n' !in mark && more != "" && more[0] != '\n'
    ensures var inner := "a" + "\n" + (mark + ("\n" + more)) + "\n";
            FindClose(inner, mark).Some? && StripBetween(start, mark, start + "\n" + inner) == more + "\n"
  {
    var left := "\n" + more + "\n";
    var inner := "a" + "\n" + (mark + left);
    EarlyFront(mark, more);
    ClosesAtEndExactly("a", mark, left);
    assert Lacks("a", "\n" + mark);
    StripsToClose(start, mark, inner);
    Regroup("a" + "\n", mark, left);
    Prefixed("a" + "\n" + mark, left);
    DropsOne(more);
  }

  lemma DropsOne(more: string)
    requires more != "" && more[0] != '\n'
    ensures DropNewlines("\n" + more + "\n") == more + "\n"
  {
    assert ("\n" + more + "\n")[1..] == more + "\n" && (more + "\n")[0] == more[0];
  }

  lemma StartStays(t: string)
    requires t != "" && t[0] == '<'
    ensures StripLegacy(t) == t
  {
    LegacyHasNoNewline();
  }

  lemma AfterFirstRound(more: seq<string>)
    requires more != [] && Join(more, "\n") != "" && Join(more, "\n")[0] == '<'
    ensures var t := Front(["a", NOTE_END] + more);
            !Closing(NOTE_START, NOTE_END, t) && StripOnce(t) == Join(more, "\n") + "\n" && StripOnce(t) != t
  {
    var rest := Join(more, "\n");
    MarksDiffer();
    JoinAfterTwo("a", NOTE_END, more);
    FirstRound(NOTE_START, NOTE_END, rest);
    Prefixed(NOTE_START + "\n", "a" + "\n" + (NOTE_END + ("\n" + rest)) + "\n");
    assert (rest + "\n")[0] == rest[0];
    StartStays(rest + "\n");
  }

  lemma LoopsOn(t: string, rest: string)
    requires WholeLines(t) && !Closing(NOTE_START, NOTE_END, t) && t != NOTE_START + "\n" && StripOnce(t) != t
    ensures Stripped(t + (NOTE_END + rest)) == Stripped(StripOnce(t) + (NOTE_END + rest))
  {
    Round(t, rest);
    assert |StripOnce(t)| < |t|;
  }

  lemma SecondBlockCloses()
    ensures Closing(NOTE_START, NOTE_END, Join([NOTE_START, "x"], "\n") + "\n")
  {
    MarksDiffer();
    JoinOfTwo(NOTE_START, "x");
    Regroup(NOTE_START + "\n", "x", "\n");
    Prefixed(NOTE_START + "\n", "x" + "\n");
    FindCloseIsFirst("x\n", NOTE_END);
    assert "x" + "\n" == "x\n";
  }

  lemma FrontIsLong(lines: seq<string>)
    ensures |Front(lines)| > |NOTE_START| + 1 || Join(lines, "\n") + "\n" == ""
    ensures Front(lines) != NOTE_START + "\n"
  {
    Prefixed(NOTE_START + "\n", Join(lines, "\n") + "\n");
  }

  lemma UnsafeLines(more: seq<string>)
    ensures !LinesAreSafe(["a", NOTE_END] + more, NOTE_END)
  {
    assert (["a", NOTE_END] + more)[1] == NOTE_END;
  }

  /**
   * With a start marker among the notes a line can start with the end marker and nothing shows: the loop's second round
   * takes the rest, whatever the message.
   */
  lemma SecondRoundHides(message: string, hasFiles: bool)
    ensures !LinesAreSafe(Lines(Reopening()), NOTE_END) && Hidden(Reopening(), message, hasFiles)
  {
    var rest := if message == "" && !hasFiles then "" else "\n\n" + message;
    var more := [NOTE_START, "x"];
    ReopeningLines();
    UnsafeLines(more);
    SentIsBlock(Reopening(), message, hasFiles, rest);
    TwoNewlines(message);
    var lines := ["a", NOTE_END] + more;
    BlockIsFront(lines, rest);
    JoinOfTwo(NOTE_START, "x");
    MarksDiffer();
    assert Join(more, "\n")[0] == NOTE_START[0];
    AfterFirstRound(more);
    FrontIsLong(lines);
    LoopsOn(Front(lines), rest);
    SecondBlockCloses();
    SecondBlockIsLong();
    Round(Join(more, "\n") + "\n", rest);
  }

  lemma SecondBlockIsLong()
    ensures Join([NOTE_START, "x"], "\n") + "\n" != NOTE_START + "\n"
    ensures WholeLines(Join([NOTE_START, "x"], "\n") + "\n")
  {
    JoinOfTwo(NOTE_START, "x");
  }

  // ----- Why the message matters then -----

  /** A message that is a block of its own and a word. */
  function OwnBlock(): string { Block(["x"]) + "y" }

  lemma WordStays()
    ensures Stripped("y") == "y"
  {
    MarksDiffer();
    LegacyHasNoNewline();
    assert (NOTE_START + "\n")[0] == '<';
    assert !(NOTE_START + "\n" <= "y") && !(LEGACY <= "y");
  }

  lemma OneLineIsSafe(line: string, mark: string)
    requires Lacks(line, "\n" + mark)
    ensures LinesAreSafe([line], mark)
  {
  }

  lemma OwnBlockShows()
    ensures Stripped(OwnBlock()) == "y" && OwnBlock() != "" && OwnBlock()[0] == '<'
  {
    MarksDiffer();
    assert Lacks("x", "\n" + NOTE_END);
    OneLineIsSafe("x", NOTE_END);
    BlockStripsExactly(["x"], "y");
    assert DropNewlines("y") == "y" && |OwnBlock()| > |Block(["x"])| >= 1;
    StripsToMessage(OwnBlock(), "y");
    WordStays();
  }

  /** What is left of the notes, the end marker and the message read as one block that the message closes. */
  lemma MessageCloses()
    ensures Stripped(NOTE_START + "\n" + (NOTE_END + ("\n\n" + OwnBlock()))) == "y"
  {
    var inside := [NOTE_END, "", NOTE_START, "x"];
    MarksDiffer();
    InsideIsSafe(NOTE_START, NOTE_END);
    LinesLackExactly(inside, NOTE_END);
    StripsBetweenExactly(NOTE_START, NOTE_END, Join(inside, "\n"), "y");
    InsideText(NOTE_START, NOTE_END);
    WordStays();
    var s := NOTE_START + "\n" + (NOTE_END + ("\n\n" + OwnBlock()));
    assert DropNewlines("y") == "y" && |s| > 1;
    StripsToMessage(s, "y");
  }

  lemma InsideIsSafe(start: string, mark: string)
    requires '\n' !in mark && '\n' !in start && |mark| > 1 && |start| > 19 && |mark| > 19 && start[19] != mark[19]
    ensures LinesAreSafe([mark, "", start, "x"], mark)
  {
    ApartAt(mark, start, 19);
    NoNewlineLacks(mark, mark);
    NoNewlineLacks("", mark);
    NoNewlineLacks(start, mark);
    NoNewlineLacks("x", mark);
  }

  lemma NoNewlineLacks(s: string, mark: string)
    requires '\n' !in s
    ensures Lacks(s, "\n" + mark)
  {
    forall i: nat | i <= |s| ensures !OccursAt(s, i, "\n" + mark) {
      assert i < |s| ==> s[i] in s;
      assert i + 1 + |mark| <= |s| ==> s[i..i + 1 + |mark|][0] == s[i];
    }
  }

  lemma InsideText(start: string, mark: string)
    ensures start + "\n" + Join([mark, "", start, "x"], "\n") + "\n" + mark + "y" ==
            start + "\n" + (mark + ("\n\n" + (start + "\n" + "x" + "\n" + mark + "y")))
  {
    var own := start + "\n" + "x";
    InsideJoin(start, mark);
    Regroup(mark, "\n\n", own);
    var opening := start + "\n";
    Regroup(mark + "\n\n", own, "\n");
    Regroup(mark + "\n\n", own + "\n", mark);
    Regroup(mark + "\n\n", own + "\n" + mark, "y");
    Regroup(mark, "\n\n", own + "\n" + mark + "y");
    var joined := mark + "\n\n" + own;
    Regroup(opening, joined, "\n");
    Regroup(opening, joined + "\n", mark);
    Regroup(opening, joined + "\n" + mark, "y");
  }

  lemma InsideJoin(start: string, mark: string)
    ensures Join([mark, "", start, "x"], "\n") == mark + "\n\n" + (start + "\n" + "x")
  {
    JoinOfTwo(start, "x");
    var two := [start, "x"];
    assert [mark, "", start, "x"] == [mark, ""] + two;
    JoinAfterTwo(mark, "", two);
    assert "" + ("\n" + Join(two, "\n")) == "\n" + Join(two, "\n");
    Regroup(mark, "\n", "\n" + Join(two, "\n"));
    Regroup("\n", "\n", Join(two, "\n"));
    assert "\n" + "\n" == "\n\n";
    Regroup(mark, "\n\n", Join(two, "\n"));
  }

  /** Notes that would show alone are hidden here by the message: it closes the block they left open. */
  lemma MessageHidesNotes()
    ensures Stripped(BuildSystemNotes(Unclosed()).value) != "" && Hidden(Unclosed(), OwnBlock(), false)
  {
    var more := [NOTE_START];
    var lines := ["a", NOTE_END] + more;
    var t := Front(lines);
    MarksDiffer();
    ReopeningLines();
    assert Join(more, "\n") == NOTE_START;
    AfterFirstRound(more);
    FrontIsLong(lines);
    // Alone.
    BuiltIsBlock(lines);
    BlockIsFront(lines, "");
    assert Block(lines) + "" == Block(lines);
    EmptyLacks();
    ShownExactly(t, "");
    OpeningStays();
    // With the message.
    OwnBlockShows();
    SentIsBlock(Unclosed(), OwnBlock(), false, "\n\n" + OwnBlock());
    BlockIsFront(lines, "\n\n" + OwnBlock());
    LoopsOn(t, "\n\n" + OwnBlock());
    MessageCloses();
  }

  lemma OpeningStays()
    ensures !Leaves(NOTE_START + "\n")
  {
    MarksDiffer();
    Prefixed(NOTE_START + "\n", "");
    assert NOTE_START + "\n" + "" == NOTE_START + "\n";
    assert FindClose("", NOTE_END).None?;
    StartStays(NOTE_START + "\n");
  }
}
