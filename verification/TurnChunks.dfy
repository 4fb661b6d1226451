/**
 * How a drain's reads are batched is irrelevant (app/agent/talk.server.ts): every read loop is the
 * plain fold over the events it handled, and it stops with the chunk that settles the turn.
 */
module TurnChunks {
  import opened Prelude
  import opened TurnEvents
  import opened TurnDrain

  lemma {:induction false} ConsumeAppend(input: DrainInput, s: DrainState, a: seq<Event>, b: seq<Event>)
    ensures Consume(input, s, a + b) == Consume(input, Consume(input, s, a), b)
    decreases |a|
  {
    if a == [] {
      assert a + b == b;
    } else {
      assert (a + b)[1..] == a[1..] + b;
      ConsumeAppend(input, Step(input, s, a[0]), a[1..], b);
    }
  }

  lemma {:induction false} ReadAppend(input: DrainInput, s: DrainState, a: seq<seq<Event>>, b: seq<seq<Event>>)
    ensures ReadChunks(input, s, a + b) == ReadChunks(input, ReadChunks(input, s, a), b)
    decreases |a|
  {
    if a == [] {
      assert a + b == b;
    } else if !s.settled {
      assert (a + b)[1..] == a[1..] + b;
      ReadAppend(input, Consume(input, s, a[0]), a[1..], b);
    }
  }

  /** How many of the events on offer the drain handles before it stops reading. */
  function Handled(input: DrainInput, s: DrainState, chunks: seq<seq<Event>>): (n: nat)
    ensures n <= |Flatten(chunks)|
    decreases |chunks|
  {
    if s.settled || chunks == [] then 0
    else |chunks[0]| + Handled(input, Consume(input, s, chunks[0]), chunks[1..])
  }

  /** A drain is the plain fold over the events it handled, and it handles a whole number of chunks. */
  lemma {:induction false} DrainIsFold(input: DrainInput, s: DrainState, chunks: seq<seq<Event>>)
    ensures ReadChunks(input, s, chunks) == Consume(input, s, Flatten(chunks)[..Handled(input, s, chunks)])
    ensures !ReadChunks(input, s, chunks).settled ==> Handled(input, s, chunks) == |Flatten(chunks)|
    decreases |chunks|
  {
    if !s.settled && chunks != [] {
      var s' := Consume(input, s, chunks[0]);
      var n' := Handled(input, s', chunks[1..]);
      DrainIsFold(input, s', chunks[1..]);
      assert Flatten(chunks)[..|chunks[0]| + n'] == chunks[0] + Flatten(chunks[1..])[..n'];
      ConsumeAppend(input, s, chunks[0], Flatten(chunks[1..])[..n']);
    }
  }

  lemma StepKeepsSettled(input: DrainInput, s: DrainState, e: Event)
    ensures s.settled ==> Step(input, s, e).settled
    ensures (s.error.Some? ==> s.settled) ==> (Step(input, s, e).error.Some? ==> Step(input, s, e).settled)
    ensures Step(input, s, e).streamIndex == s.streamIndex + 1
  {
  }

  lemma {:induction false} ConsumeKeepsSettled(input: DrainInput, s: DrainState, events: seq<Event>)
    ensures s.settled ==> Consume(input, s, events).settled
    ensures (s.error.Some? ==> s.settled) ==>
            (Consume(input, s, events).error.Some? ==> Consume(input, s, events).settled)
    ensures Consume(input, s, events).streamIndex == s.streamIndex + |events|
    decreases |events|
  {
    if events != [] {
      StepKeepsSettled(input, s, events[0]);
      ConsumeKeepsSettled(input, Step(input, s, events[0]), events[1..]);
    }
  }

  /** The event that settles the turn: the fold over the first `p` events settles, over fewer it does not. */
  ghost predicate SettlesAt(input: DrainInput, s: DrainState, events: seq<Event>, p: nat) {
    0 < p <= |events| && Consume(input, s, events[..p]).settled && !Consume(input, s, events[..p - 1]).settled
  }

  /** Chunk `j` holds the `p`-th event, and is the last one handled. */
  ghost predicate HandledThrough(input: DrainInput, s: DrainState, chunks: seq<seq<Event>>, p: nat, j: nat) {
    j < |chunks| && |Flatten(chunks[..j])| < p <= |Flatten(chunks[..j + 1])| == Handled(input, s, chunks)
  }

  lemma SettlesInFirst(input: DrainInput, s: DrainState, chunks: seq<seq<Event>>, p: nat)
    requires chunks != [] && !s.settled && SettlesAt(input, s, Flatten(chunks), p) && p <= |chunks[0]|
    ensures HandledThrough(input, s, chunks, p, 0)
  {
    var all, head := Flatten(chunks), chunks[0];
    assert all[..p] == head[..p] && head == head[..p] + head[p..];
    ConsumeAppend(input, s, head[..p], head[p..]);
    ConsumeKeepsSettled(input, Consume(input, s, head[..p]), head[p..]);
    assert chunks[..1] == [head] && chunks[..0] == [] && [head][1..] == [];
    assert Flatten(chunks[..0]) == [];
    assert Flatten([head]) == head + Flatten([head][1..]) == head;
  }

  lemma SettlesLater(input: DrainInput, s: DrainState, chunks: seq<seq<Event>>, p: nat)
    requires chunks != [] && !s.settled && SettlesAt(input, s, Flatten(chunks), p) && p > |chunks[0]|
    ensures var s' := Consume(input, s, chunks[0]);
            !s'.settled && SettlesAt(input, s', Flatten(chunks[1..]), p - |chunks[0]|)
  {
    var all, head, tail := Flatten(chunks), chunks[0], Flatten(chunks[1..]);
    var q := p - |head|;
    assert all[..p] == head + tail[..q] && all[..p - 1] == head + tail[..q - 1];
    ConsumeAppend(input, s, head, tail[..q]);
    ConsumeAppend(input, s, head, tail[..q - 1]);
    ConsumeKeepsSettled(input, Consume(input, s, head), tail[..q - 1]);
  }

  lemma ThroughLater(input: DrainInput, s: DrainState, chunks: seq<seq<Event>>, q: nat, j: nat)
    requires chunks != [] && !s.settled && HandledThrough(input, Consume(input, s, chunks[0]), chunks[1..], q, j)
    ensures HandledThrough(input, s, chunks, |chunks[0]| + q, j + 1)
  {
    var rest := chunks[1..];
    assert chunks[..j + 1] == [chunks[0]] + rest[..j] && chunks[..j + 2] == [chunks[0]] + rest[..j + 1];
    assert chunks[..j + 1][1..] == rest[..j] && chunks[..j + 2][1..] == rest[..j + 1];
  }

  lemma {:induction false} HandledReachesSettling(input: DrainInput, s: DrainState, chunks: seq<seq<Event>>, p: nat)
      returns (j: nat)
    requires !s.settled && SettlesAt(input, s, Flatten(chunks), p)
    ensures HandledThrough(input, s, chunks, p, j)
    decreases |chunks|
  {
    if p <= |chunks[0]| {
      SettlesInFirst(input, s, chunks, p);
      j := 0;
    } else {
      SettlesLater(input, s, chunks, p);
      var k := HandledReachesSettling(input, Consume(input, s, chunks[0]), chunks[1..], p - |chunks[0]|);
      ThroughLater(input, s, chunks, p - |chunks[0]|, k);
      j := k + 1;
    }
  }

  /**
   * Two batchings of the same events end in the same state when nothing settles the turn; when the `p`-th
   * event does, both handle it, and whatever else the first one handles lies in that event's own chunk.
   */
  ghost predicate ReadAlike(input: DrainInput, s: DrainState, a: seq<seq<Event>>, b: seq<seq<Event>>) {
    ((forall p: nat :: !SettlesAt(input, s, Flatten(a), p)) ==> ReadChunks(input, s, a) == ReadChunks(input, s, b)) &&
    forall p: nat :: SettlesAt(input, s, Flatten(a), p) ==>
      p <= Handled(input, s, a) && p <= Handled(input, s, b) &&
      ReadChunks(input, s, a) == Consume(input, Consume(input, s, Flatten(a)[..p]),
          Flatten(a)[p..Handled(input, s, a)]) &&
      exists j :: HandledThrough(input, s, a, p, j)
  }

  /** How the reader batches a stream is irrelevant up to the settling event. */
  lemma ChunkingIrrelevant(input: DrainInput, s: DrainState, a: seq<seq<Event>>, b: seq<seq<Event>>)
    requires !s.settled && Flatten(a) == Flatten(b)
    ensures ReadAlike(input, s, a, b)
  {
    DrainIsFold(input, s, a);
    DrainIsFold(input, s, b);
    var all := Flatten(a);
    if forall p: nat :: !SettlesAt(input, s, all, p) {
      NeverSettles(input, s, all, Handled(input, s, a));
      NeverSettles(input, s, all, Handled(input, s, b));
    }
    forall p: nat | SettlesAt(input, s, all, p)
      ensures p <= Handled(input, s, a) && p <= Handled(input, s, b)
      ensures ReadChunks(input, s, a) == Consume(input, Consume(input, s, all[..p]), all[p..Handled(input, s, a)])
      ensures exists j :: HandledThrough(input, s, a, p, j)
    {
      var j := HandledReachesSettling(input, s, a, p);
      var k := HandledReachesSettling(input, s, b, p);
      var n := Handled(input, s, a);
      assert all[..n] == all[..p] + all[p..n];
      ConsumeAppend(input, s, all[..p], all[p..n]);
    }
  }

  lemma {:induction false} NeverSettles(input: DrainInput, s: DrainState, events: seq<Event>, n: nat)
    requires !s.settled && n <= |events|
    requires forall p: nat :: !SettlesAt(input, s, events, p)
    ensures !Consume(input, s, events[..n]).settled
  {
    if n > 0 {
      NeverSettles(input, s, events, n - 1);
      assert !SettlesAt(input, s, events, n);
    }
  }
}
