/** The JavaScript string operations the modelled code relies on. */
module Text {

  /** White space and line terminators, as `String.prototype.trim` removes them. */
  predicate IsSpace(c: char) {
    c in {'\t', '\n', '\r', ' ', '\U{000B}', '\U{000C}', '\U{00A0}', '\U{FEFF}', '\U{1680}',
          '\U{2028}', '\U{2029}', '\U{202F}', '\U{205F}', '\U{3000}'} || '\U{2000}' <= c <= '\U{200A}'
  }

  function TrimStart(s: string): string {
    if s != [] && IsSpace(s[0]) then TrimStart(s[1..]) else s
  }

  function TrimEnd(s: string): string {
    if s != [] && IsSpace(s[|s| - 1]) then TrimEnd(s[..|s| - 1]) else s
  }

  function Trim(s: string): string {
    TrimEnd(TrimStart(s))
  }

  lemma EdgesUntrimmed(s: string)
    requires s != "" && !IsSpace(s[0]) && !IsSpace(s[|s| - 1])
    ensures Trim(s) == s
  {
  }

  function Join(parts: seq<string>, sep: string): string {
    if parts == [] then ""
    else if |parts| == 1 then parts[0]
    else parts[0] + sep + Join(parts[1..], sep)
  }

  predicate EndsWith(s: string, suffix: string) {
    |suffix| <= |s| && s[|s| - |suffix|..] == suffix
  }

  predicate Includes(s: string, part: string) {
    part <= s || (s != "" && Includes(s[1..], part))
  }

  /** The pieces of `s` between occurrences of `c`; always at least one piece. */
  function Split(s: string, c: char): (r: seq<string>)
    ensures |r| > 0
  {
    if s == "" then [""]
    else
      var rest := Split(s[1..], c);
      if s[0] == c then [""] + rest else [[s[0]] + rest[0]] + rest[1..]
  }

  function LowerChar(c: char): char {
    if 'A' <= c <= 'Z' then c + ('a' - 'A') else c
  }

  /** `toLowerCase` on ASCII text, letter by letter. */
  function Lower(s: string): (r: string)
    ensures |r| == |s| && forall i :: 0 <= i < |s| ==> r[i] == LowerChar(s[i])
  {
    if s == "" then "" else [LowerChar(s[0])] + Lower(s[1..])
  }

  // ----- Numbers -----

  function Decimal(n: nat): (s: string)
    ensures s != "" && forall i :: 0 <= i < |s| ==> '0' <= s[i] <= '9'
  {
    if n < 10 then ['0' + n as char] else Decimal(n / 10) + ['0' + (n % 10) as char]
  }

  function Number(s: string): nat
    requires forall i :: 0 <= i < |s| ==> '0' <= s[i] <= '9'
  {
    if s == "" then 0 else Number(s[..|s| - 1]) * 10 + (s[|s| - 1] as int - '0' as int)
  }

  lemma {:induction false} DecimalParses(n: nat)
    ensures Number(Decimal(n)) == n
    decreases n
  {
    if n >= 10 {
      DecimalParses(n / 10);
      assert Decimal(n)[..|Decimal(n)| - 1] == Decimal(n / 10);
    }
  }

  // ----- Putting text together -----

  lemma Regroup(a: string, b: string, c: string)
    ensures a + b + c == a + (b + c)
  {
  }

  lemma Prefixed(front: string, rest: string)
    ensures front <= front + rest && (front + rest)[|front|..] == rest
  {
  }

  // ----- Split and join undo each other -----

  lemma {:induction false} SplitJoins(s: string, c: char)
    ensures Join(Split(s, c), [c]) == s
    decreases |s|
  {
    if s != "" {
      SplitJoins(s[1..], c);
      var rest := Split(s[1..], c);
      if s[0] == c {
        assert ([""] + rest)[1..] == rest;
        assert s == [c] + s[1..];
      } else {
        var parts := [[s[0]] + rest[0]] + rest[1..];
        assert parts[1..] == rest[1..];
        assert s == [s[0]] + s[1..];
      }
    }
  }

  lemma {:induction false} PiecesAreSlashFree(part: string, c: char)
    requires c !in part
    ensures Split(part, c) == [part]
    decreases |part|
  {
    if part != "" {
      PiecesAreSlashFree(part[1..], c);
      assert part[0] in part && part == [part[0]] + part[1..];
    }
  }

  lemma {:induction false} SplitFirst(part: string, c: char, rest: string)
    requires c !in part
    ensures Split(part + [c] + rest, c) == [part] + Split(rest, c)
    decreases |part|
  {
    var s := part + [c] + rest;
    if part == "" {
      assert s[1..] == rest;
    } else {
      assert part[0] in part && s[1..] == part[1..] + [c] + rest;
      SplitFirst(part[1..], c, rest);
      assert part == [part[0]] + part[1..];
    }
  }

  lemma {:induction false} JoinSplits(parts: seq<string>, c: char)
    requires parts != [] && forall part <- parts :: c !in part
    ensures Split(Join(parts, [c]), c) == parts
    decreases |parts|
  {
    assert parts[0] in parts;
    if |parts| == 1 {
      PiecesAreSlashFree(parts[0], c);
    } else {
      var rest := parts[1..];
      forall part <- rest ensures c !in part { assert part in parts; }
      JoinSplits(rest, c);
      SplitFirst(parts[0], c, Join(rest, [c]));
      assert parts == [parts[0]] + rest;
    }
  }
}
