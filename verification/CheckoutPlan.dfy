/** Turning a checkout's reported changes into a commit plan and its hash (app/assistant/checkout-sync.ts). */
module CheckoutPlan {
  import opened Prelude

  datatype DirtyStatus = Added | Modified | Deleted

  datatype DirtyFile = DirtyFile(path: string, status: DirtyStatus, content: Option<string>,
    binary: bool, oversize: bool, notFile: bool, executable: bool)

  datatype TreeState = TreeState(baseSha: string, dirty: seq<DirtyFile>)

  /** `content` is `None` for a deletion. */
  datatype PlanFile = PlanFile(path: string, content: Option<string>, executable: bool)

  datatype CommitPlan = CommitPlan(files: seq<PlanFile>, blocked: seq<string>, skippedBodies: seq<string>,
    notFiles: seq<string>, hash: string)

  predicate IsBlockedPath(path: string) {
    path == ".harnesst/assistant" || ".harnesst/assistant/" <= path
  }

  // ----- The four buckets -----

  predicate Committed(f: DirtyFile) {
    !IsBlockedPath(f.path) &&
    (f.status == Deleted || (!f.notFile && !f.binary && !f.oversize && f.content.Some?))
  }

  function PickFile(f: DirtyFile): Option<PlanFile> {
    if !Committed(f) then None
    else if f.status == Deleted then Some(PlanFile(f.path, None, false))
    else Some(PlanFile(f.path, f.content, f.executable))
  }

  function PickBlocked(f: DirtyFile): Option<string> {
    if IsBlockedPath(f.path) then Some(f.path) else None
  }

  function PickNotFile(f: DirtyFile): Option<string> {
    if !IsBlockedPath(f.path) && f.status != Deleted && f.notFile then Some(f.path) else None
  }

  function PickSkipped(f: DirtyFile): Option<string> {
    if !IsBlockedPath(f.path) && f.status != Deleted && !f.notFile && (f.binary || f.oversize || f.content.None?)
    then Some(f.path) else None
  }

  function Chosen<T>(pick: DirtyFile -> Option<T>, dirty: seq<DirtyFile>): seq<T> {
    if dirty == [] then []
    else
      var front := Chosen(pick, dirty[..|dirty| - 1]);
      var last := pick(dirty[|dirty| - 1]);
      if last.Some? then front + [last.value] else front
  }

  // ----- Sorting -----

  /** The order of `<` on strings, character by character. */
  predicate Less(a: string, b: string) {
    b != "" && (a == "" || a[0] < b[0] || (a[0] == b[0] && Less(a[1..], b[1..])))
  }

  function Insert<T>(key: T -> string, x: T, sorted: seq<T>): seq<T> {
    if sorted == [] || Less(key(x), key(sorted[0])) then [x] + sorted
    else [sorted[0]] + Insert(key, x, sorted[1..])
  }

  /** A stable sort by key. */
  function Sort<T>(key: T -> string, xs: seq<T>): seq<T> {
    if xs == [] then [] else Insert(key, xs[|xs| - 1], Sort(key, xs[..|xs| - 1]))
  }

  function PathOf(f: PlanFile): string { f.path }

  function Itself(s: string): string { s }

  // ----- The hash -----

  const NUL: string := ['\0']
  const DELETE_MARK: string := ['\0'] + "DELETE" + ['\0']

  function Field(f: PlanFile): string {
    if f.content.None? then DELETE_MARK else f.content.value
  }

  function Encoded(f: PlanFile): string {
    f.path + NUL + (Field(f) + NUL + ((if f.executable then "x" else "-") + NUL))
  }

  function EncodedAll(files: seq<PlanFile>): string {
    if files == [] then "" else Encoded(files[0]) + EncodedAll(files[1..])
  }

  function Preimage(baseSha: string, files: seq<PlanFile>): string {
    baseSha + NUL + EncodedAll(files)
  }

  function Planned(sha256: string -> string, tree: TreeState): CommitPlan {
    var files := Sort(PathOf, Chosen(PickFile, tree.dirty));
    CommitPlan(files, Sort(Itself, Chosen(PickBlocked, tree.dirty)), Sort(Itself, Chosen(PickSkipped, tree.dirty)),
               Sort(Itself, Chosen(PickNotFile, tree.dirty)), sha256(Preimage(tree.baseSha, files)))
  }

  method PlanCommit(sha256: string -> string, tree: TreeState) returns (plan: CommitPlan)
    ensures plan == Planned(sha256, tree)
  {
    var files: seq<PlanFile>, blocked: seq<string>, skippedBodies: seq<string>, notFiles: seq<string> := [], [], [], [];
    for i := 0 to |tree.dirty|
      invariant files == Chosen(PickFile, tree.dirty[..i]) && blocked == Chosen(PickBlocked, tree.dirty[..i])
      invariant skippedBodies == Chosen(PickSkipped, tree.dirty[..i]) &&
                notFiles == Chosen(PickNotFile, tree.dirty[..i])
    {
      var f := tree.dirty[i];
      assert tree.dirty[..i + 1][..i] == tree.dirty[..i];
      if IsBlockedPath(f.path) {
        blocked := blocked + [f.path];
      } else if f.status == Deleted {
        files := files + [PlanFile(f.path, None, false)];
      } else if f.notFile {
        notFiles := notFiles + [f.path];
      } else if f.binary || f.oversize || f.content.None? {
        skippedBodies := skippedBodies + [f.path];
      } else {
        files := files + [PlanFile(f.path, f.content, f.executable)];
      }
    }
    assert tree.dirty[..|tree.dirty|] == tree.dirty;
    files := Sort(PathOf, files);
    var preimage := HashFeed(tree.baseSha, files);
    return CommitPlan(files, Sort(Itself, blocked), Sort(Itself, skippedBodies), Sort(Itself, notFiles),
        sha256(preimage));
  }

  method HashFeed(baseSha: string, files: seq<PlanFile>) returns (fed: string)
    ensures fed == Preimage(baseSha, files)
  {
    fed := baseSha + NUL;
    for i := 0 to |files|
      invariant fed + EncodedAll(files[i..]) == Preimage(baseSha, files)
    {
      assert files[i..][0] == files[i] && files[i..][1..] == files[i + 1..];
      ghost var rest := EncodedAll(files[i + 1..]);
      assert fed + (Encoded(files[i]) + rest) == fed + Encoded(files[i]) + rest;
      var entry := FeedFile(files[i]);
      fed := fed + entry;
    }
    assert files[|files|..] == [] && fed + "" == fed;
  }

  /** The six updates of one file. */
  method FeedFile(f: PlanFile) returns (fed: string)
    ensures fed == Encoded(f)
  {
    var mode := if f.executable then "x" else "-";
    fed := f.path;
    fed := fed + NUL;
    fed := fed + Field(f);
    fed := fed + NUL;
    fed := fed + mode;
    fed := fed + NUL;
    assert fed == f.path + NUL + (Field(f) + NUL + (mode + NUL));
  }

  // ----- The plan partitions the changes -----

  lemma {:induction false} ChosenExactly<T>(pick: DirtyFile -> Option<T>, dirty: seq<DirtyFile>, x: T)
    ensures x in Chosen(pick, dirty) <==> exists f <- dirty :: pick(f) == Some(x)
    decreases |dirty|
  {
    if dirty != [] {
      ChosenExactly(pick, dirty[..|dirty| - 1], x);
      assert dirty == dirty[..|dirty| - 1] + [dirty[|dirty| - 1]];
    }
  }

  lemma {:induction false} InsertExactly<T>(key: T -> string, x: T, sorted: seq<T>)
    ensures multiset(Insert(key, x, sorted)) == multiset(sorted) + multiset{x}
    decreases |sorted|
  {
    if sorted != [] {
      InsertExactly(key, x, sorted[1..]);
      assert sorted == [sorted[0]] + sorted[1..];
    }
  }

  lemma {:induction false} SortExactly<T>(key: T -> string, xs: seq<T>)
    ensures multiset(Sort(key, xs)) == multiset(xs) && |Sort(key, xs)| == |xs|
    decreases |xs|
  {
    if xs != [] {
      var front := xs[..|xs| - 1];
      SortExactly(key, front);
      InsertExactly(key, xs[|xs| - 1], Sort(key, front));
      assert xs == front + [xs[|xs| - 1]];
      assert |multiset(Sort(key, xs))| == |Sort(key, xs)| && |multiset(xs)| == |xs|;
    }
  }

  lemma {:induction false} BucketsCount(dirty: seq<DirtyFile>)
    ensures |Chosen(PickFile, dirty)| + |Chosen(PickBlocked, dirty)| + |Chosen(PickSkipped, dirty)| +
            |Chosen(PickNotFile, dirty)| == |dirty|
    decreases |dirty|
  {
    if dirty != [] { BucketsCount(dirty[..|dirty| - 1]); }
  }

  /** The list holds exactly what the pick makes of the changes. */
  ghost predicate Holds<T(!new)>(pick: DirtyFile -> Option<T>, dirty: seq<DirtyFile>, list: seq<T>) {
    forall x: T :: x in list <==> exists f <- dirty :: pick(f) == Some(x)
  }

  lemma BucketExactly<T(!new)>(key: T -> string, pick: DirtyFile -> Option<T>, dirty: seq<DirtyFile>)
    ensures Holds(pick, dirty, Sort(key, Chosen(pick, dirty)))
    ensures |Sort(key, Chosen(pick, dirty))| == |Chosen(pick, dirty)|
  {
    var chosen := Chosen(pick, dirty);
    SortExactly(key, chosen);
    forall x: T ensures x in Sort(key, chosen) <==> exists f <- dirty :: pick(f) == Some(x) {
      assert x in multiset(Sort(key, chosen)) <==> x in multiset(chosen);
      ChosenExactly(pick, dirty, x);
    }
  }

  /** Every change is in exactly one bucket, and no bucket holds anything else. */
  lemma PlanPartitions(sha256: string -> string, tree: TreeState)
    ensures var plan := Planned(sha256, tree);
            |plan.files| + |plan.blocked| + |plan.skippedBodies| + |plan.notFiles| == |tree.dirty| &&
            Holds(PickFile, tree.dirty, plan.files) && Holds(PickBlocked, tree.dirty, plan.blocked) &&
            Holds(PickSkipped, tree.dirty, plan.skippedBodies) && Holds(PickNotFile, tree.dirty, plan.notFiles)
  {
    BucketsCount(tree.dirty);
    BucketExactly(PathOf, PickFile, tree.dirty);
    BucketExactly(Itself, PickBlocked, tree.dirty);
    BucketExactly(Itself, PickSkipped, tree.dirty);
    BucketExactly(Itself, PickNotFile, tree.dirty);
  }

  // ----- The order the changes are reported in does not matter -----

  lemma {:induction false} LessTransitive(a: string, b: string, c: string)
    requires Less(a, b) && Less(b, c)
    ensures Less(a, c)
    decreases |a|
  {
    if a != "" && a[0] == b[0] && b[0] == c[0] { LessTransitive(a[1..], b[1..], c[1..]); }
  }

  lemma {:induction false} LessTotal(a: string, b: string)
    requires a != b
    ensures Less(a, b) != Less(b, a)
    decreases |a|
  {
    if a != "" && b != "" && a[0] == b[0] {
      assert a == [a[0]] + a[1..] && b == [b[0]] + b[1..];
      LessTotal(a[1..], b[1..]);
    }
  }

  lemma {:induction false} InsertsCommute<T>(key: T -> string, x: T, y: T, sorted: seq<T>)
    requires key(x) != key(y) || x == y
    ensures Insert(key, x, Insert(key, y, sorted)) == Insert(key, y, Insert(key, x, sorted))
    decreases |sorted|
  {
    if x != y {
      LessTotal(key(x), key(y));
      if sorted != [] {
        var s := key(sorted[0]);
        if Less(key(x), key(y)) && Less(key(y), s) { LessTransitive(key(x), key(y), s); }
        if Less(key(y), key(x)) && Less(key(x), s) { LessTransitive(key(y), key(x), s); }
        InsertsCommute(key, x, y, sorted[1..]);
      }
    }
  }

  predicate KeysApart<T(==)>(key: T -> string, xs: seq<T>) {
    forall i, j :: 0 <= i < j < |xs| ==> key(xs[i]) != key(xs[j]) || xs[i] == xs[j]
  }

  lemma SortSnoc<T>(key: T -> string, front: seq<T>, x: T)
    ensures Sort(key, front + [x]) == Insert(key, x, Sort(key, front))
  {
    assert (front + [x])[..|front|] == front;
  }

  lemma {:induction false} SortTakesOut<T>(key: T -> string, xs: seq<T>, k: nat)
    requires k < |xs| && KeysApart(key, xs)
    ensures Sort(key, xs) == Insert(key, xs[k], Sort(key, Without(xs, k)))
    decreases |xs|
  {
    var n := |xs| - 1;
    var front := xs[..n];
    assert xs == front + [xs[n]];
    SortSnoc(key, front, xs[n]);
    if k == n {
      assert Without(xs, k) == front;
    } else {
      assert Without(xs, k) == Without(front, k) + [xs[n]];
      SortSnoc(key, Without(front, k), xs[n]);
      SortTakesOut(key, front, k);
      InsertsCommute(key, xs[k], xs[n], Sort(key, Without(front, k)));
    }
  }

  lemma KeysApartWithout<T>(key: T -> string, xs: seq<T>, k: nat)
    requires k < |xs| && KeysApart(key, xs)
    ensures KeysApart(key, Without(xs, k))
  {
  }

  lemma {:induction false} SortPermuted<T>(key: T -> string, a: seq<T>, b: seq<T>)
    requires multiset(a) == multiset(b) && KeysApart(key, a) && KeysApart(key, b)
    ensures Sort(key, a) == Sort(key, b)
    decreases |a|
  {
    if a != [] {
      var k := MatchLast(a, b);
      SortTakesOut(key, b, k);
      KeysApartWithout(key, b, k);
      SortPermuted(key, a[..|a| - 1], Without(b, k));
    } else {
      assert |multiset(b)| == |b| == 0;
    }
  }

  lemma {:induction false} ChosenTakesOut<T>(pick: DirtyFile -> Option<T>, dirty: seq<DirtyFile>, k: nat)
    requires k < |dirty|
    ensures multiset(Chosen(pick, dirty)) == multiset(Chosen(pick, Without(dirty, k))) +
              (if pick(dirty[k]).Some? then multiset{pick(dirty[k]).value} else multiset{})
    decreases |dirty|
  {
    var n := |dirty| - 1;
    if k == n {
      assert Without(dirty, k) == dirty[..n];
    } else {
      WithoutLast(dirty, k);
      ChosenTakesOut(pick, dirty[..n], k);
    }
  }

  lemma {:induction false} ChosenPermuted<T>(pick: DirtyFile -> Option<T>, a: seq<DirtyFile>, b: seq<DirtyFile>)
    requires multiset(a) == multiset(b)
    ensures multiset(Chosen(pick, a)) == multiset(Chosen(pick, b))
    decreases |a|
  {
    if a != [] {
      var k := MatchLast(a, b);
      ChosenTakesOut(pick, b, k);
      ChosenPermuted(pick, a[..|a| - 1], Without(b, k));
    } else {
      assert |multiset(b)| == |b| == 0;
    }
  }

  predicate DistinctPaths(dirty: seq<DirtyFile>) {
    forall i, j :: 0 <= i < j < |dirty| ==> dirty[i].path != dirty[j].path
  }

  predicate Keyed<T>(key: T -> string, pick: DirtyFile -> Option<T>, dirty: seq<DirtyFile>) {
    forall f <- dirty :: pick(f).Some? ==> key(pick(f).value) == f.path
  }

  lemma {:induction false} ChosenApart<T>(key: T -> string, pick: DirtyFile -> Option<T>, dirty: seq<DirtyFile>)
    requires DistinctPaths(dirty) && Keyed(key, pick, dirty)
    ensures KeysApart(key, Chosen(pick, dirty))
    ensures forall x <- Chosen(pick, dirty) :: exists f <- dirty :: f.path == key(x)
    decreases |dirty|
  {
    if dirty != [] {
      var front, last := dirty[..|dirty| - 1], dirty[|dirty| - 1];
      ChosenApart(key, pick, front);
      assert dirty == front + [last];
      forall x <- Chosen(pick, front) ensures key(x) != last.path {
        var i :| 0 <= i < |front| && front[i].path == key(x);
        assert dirty[i].path != dirty[|dirty| - 1].path;
      }
    }
  }

  lemma BucketPermuted<T>(key: T -> string, pick: DirtyFile -> Option<T>, a: seq<DirtyFile>, b: seq<DirtyFile>)
    requires multiset(a) == multiset(b) && DistinctPaths(a) && DistinctPaths(b)
    requires Keyed(key, pick, a) && Keyed(key, pick, b)
    ensures Sort(key, Chosen(pick, a)) == Sort(key, Chosen(pick, b))
  {
    ChosenPermuted(pick, a, b);
    ChosenApart(key, pick, a);
    ChosenApart(key, pick, b);
    SortPermuted(key, Chosen(pick, a), Chosen(pick, b));
  }

  /** The same changes reported in another order make the same plan, hash and all. */
  lemma PlanIgnoresOrder(sha256: string -> string, a: TreeState, b: TreeState)
    requires a.baseSha == b.baseSha && multiset(a.dirty) == multiset(b.dirty)
    requires DistinctPaths(a.dirty) && DistinctPaths(b.dirty)
    ensures Planned(sha256, a) == Planned(sha256, b)
  {
    BucketPermuted(PathOf, PickFile, a.dirty, b.dirty);
    BucketPermuted(Itself, PickBlocked, a.dirty, b.dirty);
    BucketPermuted(Itself, PickSkipped, a.dirty, b.dirty);
    BucketPermuted(Itself, PickNotFile, a.dirty, b.dirty);
  }

  // ----- The hash identifies the plan -----

  predicate NulFree(s: string) {
    forall i :: 0 <= i < |s| ==> s[i] != '\0'
  }

  lemma TokensSplit(a: string, r: string, b: string, s: string)
    requires NulFree(a) && NulFree(b) && a + NUL + r == b + NUL + s
    ensures a == b && r == s
  {
    var x := a + NUL + r;
    forall i | 0 <= i < |a| ensures x[i] != '\0' { assert x[i] == a[i]; }
    forall i | 0 <= i < |b| ensures x[i] != '\0' { assert x[i] == b[i]; }
    assert x[|a|] == '\0' && x[|b|] == '\0' && x[..|a|] == a && x[..|b|] == b;
    assert x[|a| + 1..] == r && x[|b| + 1..] == s;
  }

  /** A reported change without NULs. */
  predicate CleanEntry(f: DirtyFile) {
    NulFree(f.path) && (f.content.Some? ==> NulFree(f.content.value))
  }

  /** A planned one; deletions carry no mode. */
  predicate Clean(f: PlanFile) {
    NulFree(f.path) && (if f.content.None? then !f.executable else NulFree(f.content.value))
  }

  function Mode(f: PlanFile): string { if f.executable then "x" else "-" }

  lemma DeleteDiffers(a: PlanFile, r: string, b: PlanFile, s: string)
    requires Clean(a) && Clean(b) && a.content.None? && b.content.Some?
    ensures Field(a) + NUL + (Mode(a) + NUL + r) != Field(b) + NUL + (Mode(b) + NUL + s)
  {
    var x, y := Field(a) + NUL + (Mode(a) + NUL + r), Field(b) + NUL + (Mode(b) + NUL + s);
    assert x[0] == '\0' && x[1] == 'D';
    if b.content.value == "" { assert y[1] == Mode(b)[0]; } else { assert y[0] == b.content.value[0]; }
  }

  lemma FieldsSplit(a: PlanFile, r: string, b: PlanFile, s: string)
    requires Clean(a) && Clean(b)
    requires Field(a) + NUL + (Mode(a) + NUL + r) == Field(b) + NUL + (Mode(b) + NUL + s)
    ensures a.content == b.content && a.executable == b.executable && r == s
  {
    if a.content.None? && b.content.Some? { DeleteDiffers(a, r, b, s); }
    if a.content.Some? && b.content.None? { DeleteDiffers(b, s, a, r); }
    var x := Field(a) + NUL + (Mode(a) + NUL + r);
    if a.content.Some? {
      TokensSplit(a.content.value, Mode(a) + NUL + r, b.content.value, Mode(b) + NUL + s);
    } else {
      assert x[|DELETE_MARK| + 1..] == Mode(a) + NUL + r;
    }
    TokensSplit(Mode(a), r, Mode(b), s);
  }

  lemma EncodedSplit(a: PlanFile, r: string, b: PlanFile, s: string)
    requires Clean(a) && Clean(b) && Encoded(a) + r == Encoded(b) + s
    ensures a == b && r == s
  {
    var fieldsA, fieldsB := Field(a) + NUL + (Mode(a) + NUL + r), Field(b) + NUL + (Mode(b) + NUL + s);
    assert Encoded(a) + r == a.path + NUL + fieldsA;
    assert Encoded(b) + s == b.path + NUL + fieldsB;
    TokensSplit(a.path, fieldsA, b.path, fieldsB);
    FieldsSplit(a, r, b, s);
  }

  predicate AllClean(files: seq<PlanFile>) {
    forall f <- files :: Clean(f)
  }

  lemma {:induction false} EncodingIdentifiesFiles(a: seq<PlanFile>, b: seq<PlanFile>)
    requires AllClean(a) && AllClean(b) && EncodedAll(a) == EncodedAll(b)
    ensures a == b
    decreases |a|
  {
    EncodedNotEmpty(a);
    EncodedNotEmpty(b);
    if a != [] && b != [] {
      EncodedSplit(a[0], EncodedAll(a[1..]), b[0], EncodedAll(b[1..]));
      EncodingIdentifiesFiles(a[1..], b[1..]);
      assert a == [a[0]] + a[1..] && b == [b[0]] + b[1..];
    }
  }

  lemma EncodedNotEmpty(files: seq<PlanFile>)
    ensures EncodedAll(files) == "" <==> files == []
  {
    if files != [] { assert |Encoded(files[0])| > 0; }
  }

  /** The hashed text determines base, paths, contents, deletions and modes, when none of them holds a NUL. */
  lemma PreimageIdentifiesPlan(baseA: string, a: seq<PlanFile>, baseB: string, b: seq<PlanFile>)
    requires NulFree(baseA) && NulFree(baseB) && AllClean(a) && AllClean(b)
    requires Preimage(baseA, a) == Preimage(baseB, b)
    ensures baseA == baseB && a == b
  {
    TokensSplit(baseA, EncodedAll(a), baseB, EncodedAll(b));
    EncodingIdentifiesFiles(a, b);
  }

  /** With a NUL in it, which no sidecar reports, a content could pass for a deletion. */
  lemma NulContentPassesForDeletion(base: string, path: string)
    ensures var write, delete := PlanFile(path, Some(DELETE_MARK), false), PlanFile(path, None, false);
            write != delete && Preimage(base, [write]) == Preimage(base, [delete])
  {
    var write, delete := PlanFile(path, Some(DELETE_MARK), false), PlanFile(path, None, false);
    assert Encoded(write) == Encoded(delete);
    assert [write][1..] == [] && [delete][1..] == [];
  }
}
