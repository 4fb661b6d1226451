/** Ids and file paths of the asset library (app/assets/policy.ts). */
module AssetPolicy {
  import opened Prelude
  import opened Text

  const ASSET_MAX_FILES := 40
  const ASSET_MAX_BYTES := 25 * 1024 * 1024
  const ASSET_MAX_ID_LENGTH := 240
  const ASSET_MAX_PATH_LENGTH := 500
  const ASSET_MAX_DEPTH := 8

  const EXTENSIONS: set<string> := {
    "css", "csv", "gif", "htm", "html", "jpeg", "jpg", "js", "json", "map", "md", "mjs", "otf", "pdf", "png",
    "svg", "toml", "ttf", "txt", "webp", "woff", "woff2", "xml", "yaml", "yml"}

  const TEXT_EXTENSIONS: set<string> := {
    "css", "csv", "htm", "html", "js", "json", "map", "md", "mjs", "svg", "toml", "txt", "xml", "yaml", "yml"}

  predicate AlphaNumeric(c: char) { 'A' <= c <= 'Z' || 'a' <= c <= 'z' || '0' <= c <= '9' }

  predicate Segment(s: string) {
    s != "" && AlphaNumeric(s[0]) && forall c <- s :: AlphaNumeric(c) || c == '.' || c == '-'
  }

  predicate Segments(parts: seq<string>) {
    forall part <- parts :: Segment(part)
  }

  function NormalizeSegments(raw: string, maxLength: nat): Option<string> {
    if raw == "" || |raw| > maxLength then None
    else if raw != Trim(raw) || raw[0] == '/' || raw[|raw| - 1] == '/' then None
    else
      var segments := Split(raw, '/');
      if |segments| > ASSET_MAX_DEPTH then None
      else if !Segments(segments) then None
      else Some(Join(segments, "/"))
  }

  function NormalizeAssetId(raw: string): Option<string> {
    NormalizeSegments(raw, ASSET_MAX_ID_LENGTH)
  }

  predicate LacksChar(s: string, c: char) {
    forall i :: 0 <= i < |s| ==> s[i] != c
  }

  /** What follows the last `c`, or everything if there is none: `slice(lastIndexOf(c) + 1)`. */
  function AfterLast(s: string, c: char): (r: string)
    ensures |r| <= |s| && r == s[|s| - |r|..] && LacksChar(r, c)
    ensures |r| < |s| ==> s[|s| - |r| - 1] == c
  {
    if s == "" || s[|s| - 1] == c then "" else AfterLast(s[..|s| - 1], c) + [s[|s| - 1]]
  }

  /** The extension after a dot that is neither missing nor the first character. */
  function Extension(name: string): Option<string> {
    var tail := AfterLast(name, '.');
    if |tail| + 1 < |name| then Some(Lower(tail)) else None
  }

  function NormalizeAssetFilePath(raw: string): Option<string> {
    var path := NormalizeSegments(raw, ASSET_MAX_PATH_LENGTH);
    if path.None? then None
    else
      var name := AfterLast(path.value, '/');
      if Lower(name) == "manifest.json" then None
      else
        var extension := Extension(name);
        if extension.None? || extension.value !in EXTENSIONS then None else path
  }

  predicate IsTextAssetPath(path: string) {
    var extension := Extension(AfterLast(path, '/'));
    extension.Some? && extension.value in TEXT_EXTENSIONS
  }

  function AssetRepoPrefix(id: string): string {
    "assets/" + id + "/"
  }

  // ----- What the validators accept -----

  /** Segments joined by slashes start and end with a character of a segment. */
  lemma {:induction false} JoinedEnds(parts: seq<string>)
    requires parts != [] && Segments(parts)
    ensures var s := Join(parts, "/");
            s != "" && AlphaNumeric(s[0]) && s[|s| - 1] in parts[|parts| - 1]
    decreases |parts|
  {
    assert Segment(parts[0]) && Segment(parts[|parts| - 1]);
    if |parts| > 1 { JoinedEnds(parts[1..]); }
  }

  /** Exactly one to eight plain segments joined by slashes; the value is the input itself. */
  lemma NormalizedExactly(raw: string, maxLength: nat, x: string)
    ensures NormalizeSegments(raw, maxLength) == Some(x) <==>
            (x == raw && |raw| <= maxLength &&
             exists parts :: 1 <= |parts| <= ASSET_MAX_DEPTH && Segments(parts) && raw == Join(parts, "/"))
  {
    SplitJoins(raw, '/');
    if parts: seq<string> :| 1 <= |parts| <= ASSET_MAX_DEPTH && Segments(parts) && raw == Join(parts, "/") {
      forall part <- parts ensures '/' !in part { assert Segment(part); }
      JoinSplits(parts, '/');
      JoinedEnds(parts);
      var last := parts[|parts| - 1];
      assert Segment(last);
      EdgesUntrimmed(raw);
    }
  }
}
