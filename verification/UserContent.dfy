/** Finding the stored upload behind each file part of a received message (app/chat/user-content.ts). */
module UserContent {
  import opened Prelude
  import opened Text
  import opened AssetPolicy

  /** `created` is the parsed creation date; `None` when it does not parse. */
  datatype Upload = Upload(sha256: string, name: string, mediaType: string, size: int, createdAt: string,
      created: Option<int>)

  datatype Part = Part(filename: Option<string>, mediaType: Option<string>, size: Option<int>)

  datatype Attachment = Attachment(id: string, name: string, mediaType: string, size: Option<int>, stored: bool)

  const CLOCK_SKEW_MS := 60_000

  // ----- Names -----

  function Slashes(s: string): string {
    if s == "" then "" else [if s[0] == '\\' then '/' else s[0]] + Slashes(s[1..])
  }

  predicate WordChar(c: char) { AlphaNumeric(c) || c == '_' || c == '.' || c == '-' }

  /** Runs of other characters become one underscore. */
  function Collapse(s: string, inRun: bool): string {
    if s == "" then ""
    else if WordChar(s[0]) then [s[0]] + Collapse(s[1..], false)
    else (if inRun then "" else "_") + Collapse(s[1..], true)
  }

  function LooseName(name: string): string {
    Lower(Collapse(AfterLast(Slashes(name), '/'), false))
  }

  // ----- Candidates: on time and newest first, then late and nearest first -----

  predicate Late(at: Option<int>, u: Upload) {
    at.Some? && u.created.Some? && u.created.value > at.value
  }

  predicate Eligible(at: Option<int>, u: Upload) {
    at.None? || u.created.None? || u.created.value <= at.value + CLOCK_SKEW_MS
  }

  function Eligibles(at: Option<int>, index: seq<Upload>): seq<Upload> {
    if index == [] then []
    else (if Eligible(at, index[0]) then [index[0]] else []) + Eligibles(at, index[1..])
  }

  /** Whether `a` sorts strictly before `b`; `older` is the locale's order on dates. */
  predicate Before(at: Option<int>, older: (string, string) -> bool, a: Upload, b: Upload) {
    if Late(at, a) != Late(at, b) then Late(at, b)
    else if Late(at, a) then older(a.createdAt, b.createdAt)
    else older(b.createdAt, a.createdAt)
  }

  function Insert(at: Option<int>, older: (string, string) -> bool, u: Upload, sorted: seq<Upload>): seq<Upload> {
    if sorted == [] || Before(at, older, u, sorted[0]) then [u] + sorted
    else [sorted[0]] + Insert(at, older, u, sorted[1..])
  }

  /** A stable sort. */
  function Sorted(at: Option<int>, older: (string, string) -> bool, us: seq<Upload>): seq<Upload> {
    if us == [] then [] else Insert(at, older, us[|us| - 1], Sorted(at, older, us[..|us| - 1]))
  }

  function Candidates(at: Option<int>, older: (string, string) -> bool, index: seq<Upload>): seq<Upload> {
    Sorted(at, older, Eligibles(at, index))
  }

  // ----- Matching -----

  function PartName(part: Part): string { part.filename.Or(part.mediaType).Or(Some("attachment")).value }

  function PartType(part: Part): string { part.mediaType.Or(Some("application/octet-stream")).value }

  predicate Fits(part: Part, u: Upload, loose: bool) {
    u.mediaType == PartType(part) && (part.size.None? || u.size == part.size.value) &&
    (if loose then LooseName(u.name) == LooseName(PartName(part)) else u.name == PartName(part))
  }

  predicate Matches(part: Part, used: set<string>, u: Upload, loose: bool) {
    u.sha256 !in used && Fits(part, u, loose)
  }

  function First(part: Part, used: set<string>, loose: bool, us: seq<Upload>): Option<Upload> {
    if us == [] then None
    else if Matches(part, used, us[0], loose) then Some(us[0]) else First(part, used, loose, us[1..])
  }

  function Hit(part: Part, used: set<string>, us: seq<Upload>): Option<Upload> {
    First(part, used, false, us).Or(First(part, used, true, us))
  }

  function Shown(part: Part, hit: Option<Upload>, idPrefix: string, i: nat): Attachment {
    if hit.Some? then Attachment(hit.value.sha256, hit.value.name, hit.value.mediaType, Some(hit.value.size), true)
    else Attachment(idPrefix + ":" + Decimal(i), PartName(part), PartType(part), part.size, false)
  }

  function UsedAfter(used: set<string>, hit: Option<Upload>): set<string> {
    if hit.Some? then used + {hit.value.sha256} else used
  }

  /** The uploads spent on the parts before a part. */
  function Used(parts: seq<Part>, us: seq<Upload>): set<string>
    decreases |parts|
  {
    if parts == [] then {}
    else
      var before := Used(parts[..|parts| - 1], us);
      UsedAfter(before, Hit(parts[|parts| - 1], before, us))
  }

  /** What part `i` resolves to. */
  function HitAt(parts: seq<Part>, us: seq<Upload>, i: nat): Option<Upload>
    requires i < |parts|
  {
    Hit(parts[i], Used(parts[..i], us), us)
  }

  method ResolveReceivedAttachments(parts: seq<Part>, index: seq<Upload>, at: Option<int>,
      older: (string, string) -> bool, idPrefix: string)
    returns (shown: seq<Attachment>)
    ensures |shown| == |parts|
    ensures forall i ::
            0 <= i < |parts| ==> shown[i] == Shown(parts[i], HitAt(parts, Candidates(at, older, index), i), idPrefix, i)
  {
    var candidates := Candidates(at, older, index);
    var used: set<string> := {};
    shown := [];
    for i := 0 to |parts|
      invariant |shown| == i && used == Used(parts[..i], candidates)
      invariant forall k :: 0 <= k < i ==> shown[k] == Shown(parts[k], HitAt(parts, candidates, k), idPrefix, k)
    {
      assert parts[..i + 1][..i] == parts[..i];
      var hit := Hit(parts[i], used, candidates);
      if hit.Some? { used := used + {hit.value.sha256}; }
      shown := shown + [Shown(parts[i], hit, idPrefix, i)];
    }
  }

  // ----- Candidates -----

  lemma {:induction false} InsertKeeps(at: Option<int>, older: (string, string) -> bool, u: Upload,
      sorted: seq<Upload>, x: Upload)
    ensures x in Insert(at, older, u, sorted) <==> x == u || x in sorted
    decreases |sorted|
  {
    if sorted != [] {
      InsertKeeps(at, older, u, sorted[1..], x);
      assert sorted == [sorted[0]] + sorted[1..];
    }
  }

  lemma {:induction false} SortedKeeps(at: Option<int>, older: (string, string) -> bool, us: seq<Upload>, x: Upload)
    ensures x in Sorted(at, older, us) <==> x in us
    decreases |us|
  {
    if us != [] {
      var front := us[..|us| - 1];
      SortedKeeps(at, older, front, x);
      InsertKeeps(at, older, us[|us| - 1], Sorted(at, older, front), x);
      assert us == front + [us[|us| - 1]];
    }
  }

  lemma {:induction false} EligiblesAre(at: Option<int>, index: seq<Upload>, x: Upload)
    ensures x in Eligibles(at, index) <==> x in index && Eligible(at, x)
    decreases |index|
  {
    if index != [] {
      EligiblesAre(at, index[1..], x);
      assert index == [index[0]] + index[1..];
    }
  }

  lemma CandidatesAre(at: Option<int>, older: (string, string) -> bool, index: seq<Upload>, x: Upload)
    ensures x in Candidates(at, older, index) <==> x in index && Eligible(at, x)
  {
    EligiblesAre(at, index, x);
    SortedKeeps(at, older, Eligibles(at, index), x);
  }

  predicate LateLast(at: Option<int>, us: seq<Upload>) {
    forall i, j :: 0 <= i < j < |us| && Late(at, us[i]) ==> Late(at, us[j])
  }

  lemma {:induction false} InsertLateLast(at: Option<int>, older: (string, string) -> bool, u: Upload,
      sorted: seq<Upload>)
    requires LateLast(at, sorted)
    ensures LateLast(at, Insert(at, older, u, sorted))
    decreases |sorted|
  {
    if sorted != [] && !Before(at, older, u, sorted[0]) {
      InsertLateLast(at, older, u, sorted[1..]);
      var rest := Insert(at, older, u, sorted[1..]);
      forall j | 0 <= j < |rest| && Late(at, sorted[0]) ensures Late(at, rest[j]) {
        InsertKeeps(at, older, u, sorted[1..], rest[j]);
        if rest[j] != u {
          var k :| 0 <= k < |sorted[1..]| && sorted[1..][k] == rest[j];
          assert sorted[k + 1] == rest[j];
        }
      }
    }
  }

  lemma {:induction false} SortedLateLast(at: Option<int>, older: (string, string) -> bool, us: seq<Upload>)
    ensures LateLast(at, Sorted(at, older, us))
    decreases |us|
  {
    if us != [] {
      SortedLateLast(at, older, us[..|us| - 1]);
      InsertLateLast(at, older, us[|us| - 1], Sorted(at, older, us[..|us| - 1]));
    }
  }

  // ----- Matches -----

  predicate NoneBefore(part: Part, used: set<string>, loose: bool, us: seq<Upload>, k: nat) {
    k <= |us| && forall j :: 0 <= j < k ==> !Matches(part, used, us[j], loose)
  }

  lemma {:induction false} FirstIsFirst(part: Part, used: set<string>, loose: bool, us: seq<Upload>) returns (k: nat)
    ensures NoneBefore(part, used, loose, us, k)
    ensures var r := First(part, used, loose, us);
            if r.None? then k == |us| else k < |us| && us[k] == r.value && Matches(part, used, r.value, loose)
    decreases |us|
  {
    if us == [] || Matches(part, used, us[0], loose) {
      k := 0;
    } else {
      k := FirstIsFirst(part, used, loose, us[1..]);
      forall j | 1 <= j < k + 1 ensures !Matches(part, used, us[j], loose) {
        assert us[j] == us[1..][j - 1];
      }
      k := k + 1;
    }
  }

  /** Stored, eligible, and not yet given to another part. */
  predicate Free(at: Option<int>, index: seq<Upload>, used: set<string>, u: Upload) {
    u in index && Eligible(at, u) && u.sha256 !in used
  }

  lemma FoundExactly(part: Part, used: set<string>, loose: bool, at: Option<int>, older: (string, string) -> bool,
      index: seq<Upload>)
    ensures var r := First(part, used, loose, Candidates(at, older, index));
            (r.None? ==> forall u <- index :: Free(at, index, used, u) ==> !Fits(part, u, loose)) &&
            (r.Some? ==> Free(at, index, used, r.value) && Fits(part, r.value, loose)) &&
            (r.Some? && Late(at, r.value) ==>
               forall u <- index :: Free(at, index, used, u) && Fits(part, u, loose) ==> Late(at, u))
  {
    var us := Candidates(at, older, index);
    var k := FirstIsFirst(part, used, loose, us);
    SortedLateLast(at, older, Eligibles(at, index));
    var r := First(part, used, loose, us);
    if r.Some? { CandidatesAre(at, older, index, r.value); }
    forall u <- index | Free(at, index, used, u) && Fits(part, u, loose)
      ensures r.Some? && (Late(at, r.value) ==> Late(at, u))
    {
      CandidatesAre(at, older, index, u);
      var j :| 0 <= j < |us| && us[j] == u;
      assert Matches(part, used, us[j], loose);
    }
  }

  /**
   * A part is left unresolved only if no free upload fits it even loosely; an exact name beats a loose one; and
   * within one strictness a late upload is taken only if no on-time one fits.
   */
  lemma HitIsBest(part: Part, used: set<string>, at: Option<int>, older: (string, string) -> bool, index: seq<Upload>)
    ensures var hit := Hit(part, used, Candidates(at, older, index));
            (hit.None? ==> forall u <- index :: Free(at, index, used, u) ==> !Fits(part, u, true)) &&
            (hit.Some? ==>
               Free(at, index, used, hit.value) && Fits(part, hit.value, true) &&
               (!Fits(part, hit.value, false) ==> forall u <- index ::
                   Free(at, index, used, u) ==> !Fits(part, u, false)) &&
               (Late(at, hit.value) ==>
                  forall u <- index ::
                      Free(at, index, used, u) && Fits(part, u, !Fits(part, hit.value, false)) ==> Late(at, u)))
  {
    FoundExactly(part, used, false, at, older, index);
    FoundExactly(part, used, true, at, older, index);
  }

  /** The locale's order on dates, as far as the choice depends on it. */
  ghost predicate DateOrder(older: (string, string) -> bool) {
    (forall a: string :: !older(a, a)) &&
    forall a: string, b: string, c: string :: older(a, b) && older(b, c) ==> older(a, c)
  }

  predicate Ordered(at: Option<int>, older: (string, string) -> bool, us: seq<Upload>) {
    forall i, j :: 0 <= i < j < |us| ==> !Before(at, older, us[j], us[i])
  }

  lemma BeforeIsOrder(at: Option<int>, older: (string, string) -> bool, a: Upload, b: Upload, c: Upload)
    requires DateOrder(older) && Before(at, older, a, b)
    ensures !Before(at, older, b, a) && (Before(at, older, b, c) ==> Before(at, older, a, c))
  {
  }

  lemma {:induction false} InsertOrdered(at: Option<int>, older: (string, string) -> bool, u: Upload,
      sorted: seq<Upload>)
    requires DateOrder(older) && Ordered(at, older, sorted)
    ensures Ordered(at, older, Insert(at, older, u, sorted))
    decreases |sorted|
  {
    if sorted == [] {
    } else if Before(at, older, u, sorted[0]) {
      forall j | 0 <= j < |sorted| ensures !Before(at, older, sorted[j], u) {
        BeforeIsOrder(at, older, u, sorted[0], sorted[0]);
        if Before(at, older, sorted[j], u) { BeforeIsOrder(at, older, sorted[j], u, sorted[0]); }
      }
    } else {
      var rest := Insert(at, older, u, sorted[1..]);
      InsertOrdered(at, older, u, sorted[1..]);
      forall j | 0 <= j < |rest| ensures !Before(at, older, rest[j], sorted[0]) {
        InsertKeeps(at, older, u, sorted[1..], rest[j]);
        if rest[j] != u {
          var k :| 0 <= k < |sorted[1..]| && sorted[1..][k] == rest[j];
          assert sorted[k + 1] == rest[j];
        }
      }
    }
  }

  lemma {:induction false} SortedOrdered(at: Option<int>, older: (string, string) -> bool, us: seq<Upload>)
    requires DateOrder(older)
    ensures Ordered(at, older, Sorted(at, older, us))
    decreases |us|
  {
    if us != [] {
      SortedOrdered(at, older, us[..|us| - 1]);
      InsertOrdered(at, older, us[|us| - 1], Sorted(at, older, us[..|us| - 1]));
    }
  }

  /** Of the free uploads that fit as strictly, an on-time hit is the newest on-time one, a late hit the earliest. */
  lemma HitIsNearest(part: Part, used: set<string>, at: Option<int>, older: (string, string) -> bool,
      index: seq<Upload>, u: Upload)
    requires DateOrder(older) && Hit(part, used, Candidates(at, older, index)).Some?
    requires var hit := Hit(part, used, Candidates(at, older, index)).value;
             Free(at, index, used, u) && Fits(part, u, !Fits(part, hit, false))
    ensures var hit := Hit(part, used, Candidates(at, older, index)).value; !Before(at, older, u, hit)
  {
    var us := Candidates(at, older, index);
    var exact := First(part, used, false, us);
    var k := FirstIsFirst(part, used, exact.None?, us);
    var l := FirstIsFirst(part, used, false, us);
    SortedOrdered(at, older, Eligibles(at, index));
    CandidatesAre(at, older, index, u);
    var j :| 0 <= j < |us| && us[j] == u;
    assert Matches(part, used, us[j], exact.None?);
    BeforeIrreflexive(at, older, u);
  }

  lemma BeforeIrreflexive(at: Option<int>, older: (string, string) -> bool, u: Upload)
    requires DateOrder(older)
    ensures !Before(at, older, u, u)
  {
  }

  // ----- No upload serves two parts -----

  lemma {:induction false} UsedByEarlier(parts: seq<Part>, us: seq<Upload>, i: nat, n: nat)
    requires i < n <= |parts| && HitAt(parts, us, i).Some?
    ensures HitAt(parts, us, i).value.sha256 in Used(parts[..n], us)
    decreases n
  {
    assert parts[..n][..n - 1] == parts[..n - 1];
    if i < n - 1 { UsedByEarlier(parts, us, i, n - 1); }
  }

  lemma HitIsUnused(part: Part, used: set<string>, us: seq<Upload>)
    requires Hit(part, used, us).Some?
    ensures Hit(part, used, us).value.sha256 !in used && Hit(part, used, us).value in us
  {
    var k := FirstIsFirst(part, used, false, us);
    var l := FirstIsFirst(part, used, true, us);
  }

  lemma NoUploadServesTwo(parts: seq<Part>, us: seq<Upload>, i: nat, j: nat)
    requires i < j < |parts| && HitAt(parts, us, i).Some? && HitAt(parts, us, j).Some?
    ensures HitAt(parts, us, i).value.sha256 != HitAt(parts, us, j).value.sha256
  {
    UsedByEarlier(parts, us, i, j);
    HitIsUnused(parts[j], Used(parts[..j], us), us);
  }

  /** Every part has an id of its own, resolved or not. */
  lemma IdsDiffer(parts: seq<Part>, us: seq<Upload>, idPrefix: string, i: nat, j: nat)
    requires i < j < |parts| && forall u <- us :: ':' !in u.sha256
    ensures Shown(parts[i], HitAt(parts, us, i), idPrefix, i).id != Shown(parts[j], HitAt(parts, us, j), idPrefix, j).id
  {
    var a, b := HitAt(parts, us, i), HitAt(parts, us, j);
    if a.Some? { HitIsUnused(parts[i], Used(parts[..i], us), us); }
    if b.Some? { HitIsUnused(parts[j], Used(parts[..j], us), us); }
    if a.Some? && b.Some? {
      NoUploadServesTwo(parts, us, i, j);
    } else if a.None? && b.None? {
      DecimalParses(i);
      DecimalParses(j);
      PrefixedDiffer(idPrefix, Decimal(i), Decimal(j));
    } else {
      assert (idPrefix + ":" + Decimal(if a.None? then i else j))[|idPrefix|] == ':';
    }
  }

  lemma PrefixedDiffer(prefix: string, a: string, b: string)
    requires a != b
    ensures prefix + ":" + a != prefix + ":" + b
  {
    assert (prefix + ":" + a)[|prefix| + 1..] == a && (prefix + ":" + b)[|prefix| + 1..] == b;
  }
}
