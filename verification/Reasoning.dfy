/**
 * The visible reasoning of one turn, folded from `reasoning.appended` and
 * `reasoning.completed` events (app/chat/reasoning.ts).
 */
module Reasoning {
  import opened Prelude
  import opened Text

  /**
   * An event as the accumulator reads it: a field that is absent, or not a string, is `None`.
   */
  datatype ReasoningEvent =
    | Appended(soFar: Option<string>, delta: Option<string>)
    | Completed(final: Option<string>)

  /** The accumulator's two fields. */
  datatype State = State(blocks: seq<string>, open: bool)

  const EMPTY := State([], false)

  /** A block can only be open when there is one. */
  predicate WellFormed(s: State) {
    s.open ==> s.blocks != []
  }

  /** The text an `appended` event leaves in the open block, if it carries any. */
  function CumulativeText(current: string, e: ReasoningEvent): Option<string>
    requires e.Appended?
  {
    if e.soFar.Some? then e.soFar
    else if e.delta.Some? then Some(current + e.delta.value)
    else None
  }

  type Accumulated = s: State | WellFormed(s) witness EMPTY

  function Step(s: Accumulated, e: ReasoningEvent): Accumulated {
    match e
    case Appended(_, _) =>
      var text := CumulativeText(if s.open then s.blocks[|s.blocks| - 1] else "", e);
      if text.None? then s
      else if s.open then s.(blocks := s.blocks[..|s.blocks| - 1] + [text.value])
      else State(s.blocks + [text.value], true)
    case Completed(final) =>
      if s.open && final.Some? then State(s.blocks[..|s.blocks| - 1] + [final.value], false)
      else if s.open then s.(open := false)
      else if final.Some? then s.(blocks := s.blocks + [final.value])
      else s
  }

  function Run(s: Accumulated, events: seq<ReasoningEvent>): Accumulated
    decreases |events|
  {
    if events == [] then s else Run(Step(s, events[0]), events[1..])
  }

  /** The trimmed blocks that have anything left in them. */
  function Shown(blocks: seq<string>): seq<string> {
    if blocks == [] then []
    else (if Trim(blocks[0]) == "" then [] else [Trim(blocks[0])]) + Shown(blocks[1..])
  }

  /** What the reader sees: the shown blocks joined by a blank line, `None` when nothing is left. */
  function VisibleText(s: State): Option<string> {
    var joined := Join(Shown(s.blocks), "\n\n");
    if joined == "" then None else Some(joined)
  }

  class ReasoningAccumulator {
    var blocks: seq<string>
    var open: bool

    ghost predicate Valid() reads this { WellFormed(Value()) }
    function Value(): State reads this { State(blocks, open) }

    constructor ()
      ensures Valid() && Value() == EMPTY
    {
      blocks, open := [], false;
    }

    /** Applies one event and says whether the visible text changed. */
    method Apply(e: ReasoningEvent) returns (changed: bool)
      requires Valid()
      modifies this
      ensures Valid() && Value() == Step(old(Value()), e)
      ensures changed == (VisibleText(Value()) != VisibleText(old(Value())))
    {
      var before := Visible();
      match e {
        case Appended(soFar, delta) =>
          var text: Option<string> := soFar;
          if soFar.None? && delta.Some? {
            text := Some((if open then blocks[|blocks| - 1] else "") + delta.value);
          }
          if text.None? { return false; }
          if open {
            blocks := blocks[..|blocks| - 1] + [text.value];
          } else {
            blocks, open := blocks + [text.value], true;
          }
        case Completed(final) =>
          if open {
            if final.Some? { blocks := blocks[..|blocks| - 1] + [final.value]; }
            open := false;
          } else if final.Some? {
            blocks := blocks + [final.value];
          }
      }
      var after := Visible();
      changed := after != before;
    }

    /** The loop trims each block and keeps the non-empty ones. */
    method Visible() returns (text: Option<string>)
      ensures text == VisibleText(Value())
    {
      var shown: seq<string> := [];
      for i := 0 to |blocks|
        invariant shown + Shown(blocks[i..]) == Shown(blocks)
      {
        var trimmed := Trim(blocks[i]);
        assert blocks[i..][0] == blocks[i] && blocks[i..][1..] == blocks[i + 1..];
        ghost var rest := Shown(blocks[i + 1..]);
        assert Shown(blocks[i..]) == if trimmed == "" then [] + rest else [trimmed] + rest;
        assert shown + ([trimmed] + rest) == shown + [trimmed] + rest && shown + ([] + rest) == shown + rest;
        if trimmed != "" { shown := shown + [trimmed]; }
      }
      assert shown + [] == shown;
      var joined := Join(shown, "\n\n");
      text := if joined == "" then None else Some(joined);
    }
  }

  // ----- Every encoding of the same blocks shows the same text -----

  /** The text a run of `appended` events leaves behind, `None` if none of them carried text. */
  function Running(appends: seq<ReasoningEvent>, current: Option<string>): Option<string>
    requires forall e :: e in appends ==> e.Appended?
  {
    if appends == [] then current
    else Running(appends[1..],
                 CumulativeText(if current.Some? then current.value else "", appends[0]).Or(current))
  }

  /** One block on the wire: its `appended` events (deltas, cumulative texts or a mix), then its close. */
  datatype Encoding = Encoding(appends: seq<ReasoningEvent>, final: Option<string>)

  function Events(enc: Encoding): seq<ReasoningEvent> {
    enc.appends + [Completed(enc.final)]
  }

  /** The closing event names the block's text, or leaves standing what the `appended` events built. */
  predicate Encodes(enc: Encoding, block: string) {
    (forall e :: e in enc.appends ==> e.Appended?) &&
    (enc.final == Some(block) || (enc.final == None && Running(enc.appends, None) == Some(block)))
  }

  function Wire(encs: seq<Encoding>): seq<ReasoningEvent> {
    if encs == [] then [] else Events(encs[0]) + Wire(encs[1..])
  }

  /** A drain slice that inherits the accumulator goes on as if the stream had not been cut. */
  lemma {:induction false} RunAppend(s: Accumulated, a: seq<ReasoningEvent>, b: seq<ReasoningEvent>)
    ensures Run(s, a + b) == Run(Run(s, a), b)
    decreases |a|
  {
    if a == [] {
      assert a + b == b;
    } else {
      assert (a + b)[1..] == a[1..] + b;
      RunAppend(Step(s, a[0]), a[1..], b);
    }
  }

  ghost predicate Holds(s: State, closed: seq<string>, current: Option<string>) {
    s == if current.Some? then State(closed + [current.value], true) else State(closed, false)
  }

  lemma {:induction false} AppendsBuildBlock(s: Accumulated, closed: seq<string>, current: Option<string>,
      appends: seq<ReasoningEvent>)
    requires Holds(s, closed, current)
    requires forall e :: e in appends ==> e.Appended?
    ensures Holds(Run(s, appends), closed, Running(appends, current))
    decreases |appends|
  {
    if appends != [] {
      var next := CumulativeText(if current.Some? then current.value else "", appends[0]).Or(current);
      assert Holds(Step(s, appends[0]), closed, next);
      AppendsBuildBlock(Step(s, appends[0]), closed, next, appends[1..]);
    }
  }

  /** However each block travels, the accumulator ends with exactly those blocks, all closed. */
  lemma {:induction false} EncodingsAgree(closed: seq<string>, blocks: seq<string>, encs: seq<Encoding>)
    requires |blocks| == |encs|
    requires forall i :: 0 <= i < |blocks| ==> Encodes(encs[i], blocks[i])
    ensures Run(State(closed, false), Wire(encs)) == State(closed + blocks, false)
    decreases |blocks|
  {
    if blocks == [] {
      assert closed + blocks == closed;
    } else {
      var start := State(closed, false);
      var appends := encs[0].appends;
      AppendsBuildBlock(start, closed, None, appends);
      RunAppend(start, appends, [Completed(encs[0].final)]);
      var mid := Run(start, appends);
      assert Run(mid, [Completed(encs[0].final)]) == Step(mid, Completed(encs[0].final));
      assert Run(start, Events(encs[0])) == State(closed + [blocks[0]], false);
      RunAppend(start, Events(encs[0]), Wire(encs[1..]));
      EncodingsAgree(closed + [blocks[0]], blocks[1..], encs[1..]);
      assert closed + [blocks[0]] + blocks[1..] == closed + blocks;
    }
  }

  /** Two wires for the same blocks show the same text, wherever either of them was cut into slices. */
  lemma {:induction false} SameBlocksSameText(blocks: seq<string>, a: seq<Encoding>, b: seq<Encoding>, cut: nat)
    requires |a| == |b| == |blocks|
    requires forall i :: 0 <= i < |blocks| ==> Encodes(a[i], blocks[i]) && Encodes(b[i], blocks[i])
    requires cut <= |Wire(b)|
    ensures VisibleText(Run(Run(EMPTY, Wire(b)[..cut]), Wire(b)[cut..])) == VisibleText(Run(EMPTY, Wire(a)))
    ensures Run(EMPTY, Wire(a)).blocks == blocks
  {
    EncodingsAgree([], blocks, a);
    EncodingsAgree([], blocks, b);
    RunAppend(EMPTY, Wire(b)[..cut], Wire(b)[cut..]);
    assert Wire(b)[..cut] + Wire(b)[cut..] == Wire(b);
    assert [] + blocks == blocks;
  }

  /** A delta and the cumulative text it leads to are interchangeable at any point of any run. */
  lemma {:induction false} DeltaIsCumulative(s: Accumulated, delta: string, rest: seq<ReasoningEvent>)
    ensures var current := if s.open then s.blocks[|s.blocks| - 1] else "";
            Run(s, [Appended(None, Some(delta))] + rest) == Run(s, [Appended(Some(current + delta), None)] + rest)
  {
    var current := if s.open then s.blocks[|s.blocks| - 1] else "";
    var d := [Appended(None, Some(delta))];
    var c := [Appended(Some(current + delta), None)];
    assert (d + rest)[1..] == rest && (c + rest)[1..] == rest;
    assert Step(s, d[0]) == Step(s, c[0]);
  }
}
