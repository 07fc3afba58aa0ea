/**
 * Paths as the registration macros see them: an optional leading `::` and a sequence of
 * identifier segments (generic arguments are not modelled).
 */
module MacroPaths {
  import opened Text

  datatype Path = Path(leadingColon: bool, segments: seq<string>)

  predicate CrateRooted(p: Path)
  {
    |p.segments| > 0 && p.segments[0] == "crate"
  }

  /**
   * `resolve_path`: the `crate` root becomes the current crate's name (and the leading `::`
   * goes); any other path gets a leading `::` and keeps its segments.
   */
  function ResolvePath(p: Path, crateName: string): (r: Path)
    ensures CrateRooted(p) ==> r == Path(false, [crateName] + p.segments[1..])
    ensures !CrateRooted(p) ==> r == Path(true, p.segments)
  {
    if CrateRooted(p) then Path(false, [crateName] + p.segments[1..])
    else p.(leadingColon := true)
  }

  /** `globalize_path`: `crate`-rooted paths are kept, all others get a leading `::`. */
  function GlobalizePath(p: Path): (r: Path)
    ensures r.segments == p.segments
    ensures r.leadingColon == (p.leadingColon || !CrateRooted(p))
  {
    if CrateRooted(p) then p else p.(leadingColon := true)
  }

  /** The path as it appears in generated code. */
  function RenderPath(p: Path): string
  {
    (if p.leadingColon then "::" else "") + Join(p.segments, "::")
  }

  /** `stringify_path`: the segments joined by `::`, without a leading `::`. */
  function StringifyPath(p: Path): string
  {
    Join(p.segments, "::")
  }

  /** The fully qualified name the macros emit for a path (`stringify_path(resolve_path(..))`). */
  function FqName(p: Path, crateName: string): string
  {
    StringifyPath(ResolvePath(p, crateName))
  }

  /**
   * The stringified path is the rendered one with its leading `::` dropped: the first segment
   * leads, and every further segment adds itself and a `::`.
   */
  lemma StringifyPathShape(p: Path)
    ensures RenderPath(p) == (if p.leadingColon then "::" else "") + StringifyPath(p)
    ensures |p.segments| > 0 ==> |StringifyPath(p)| == SumLengths(p.segments) + 2 * (|p.segments| - 1)
    ensures |p.segments| > 0 ==> |p.segments[0]| <= |StringifyPath(p)| && StringifyPath(p)[..|p.segments[0]|] == p.segments[0]
  {
    if |p.segments| > 0 {
      JoinLength(p.segments, "::");
      JoinHead(p.segments, "::");
    }
  }

  /** Globalizing first does not change how a path resolves, and globalizing is idempotent. */
  lemma ResolveGlobalized(p: Path, crateName: string)
    ensures ResolvePath(GlobalizePath(p), crateName) == ResolvePath(p, crateName)
    ensures GlobalizePath(GlobalizePath(p)) == GlobalizePath(p)
    ensures FqName(GlobalizePath(p), crateName) == FqName(p, crateName)
  {
  }

  /**
   * A `crate`-rooted path names the same item as the path rooted at the crate's own name; any
   * other path's name is its segments joined by `::`.
   */
  lemma {:induction false} FqNameShape(p: Path, crateName: string)
    ensures CrateRooted(p) && |p.segments| > 1 ==>
              FqName(p, crateName) == crateName + "::" + Join(p.segments[1..], "::")
    ensures CrateRooted(p) && |p.segments| == 1 ==> FqName(p, crateName) == crateName
    ensures !CrateRooted(p) ==> FqName(p, crateName) == Join(p.segments, "::")
  {
    if CrateRooted(p) && |p.segments| > 1 {
      var r := ResolvePath(p, crateName);
      assert r.segments == [crateName] + p.segments[1..];
      assert r.segments[1..] == p.segments[1..];
    }
  }
}
