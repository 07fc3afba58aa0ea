/**
 * Name mangling: from a fully-qualified Rust path to the core type name and to the capitalised
 * snake-case tag that names a polymorphic variant on the OCaml side. Character classes are
 * ASCII: `\w` is `[A-Za-z0-9_]` and case conversion touches only `A`-`Z` and `a`-`z`.
 */
module TypeNames {
  import opened Wrappers
  import opened Text
  import opened Types
  import opened CoercionRegistry

  predicate IsWordChar(c: char)
  {
    IsUpper(c) || IsLower(c) || ('0' <= c <= '9') || c == '_'
  }

  predicate AllWord(s: string)
  {
    forall i :: 0 <= i < |s| ==> IsWordChar(s[i])
  }

  /** The end of the run of word characters that starts at `i`. */
  function WordEnd(s: string, i: nat): (r: nat)
    requires i <= |s|
    ensures i <= r <= |s|
    ensures forall j :: i <= j < r ==> IsWordChar(s[j])
    ensures r == |s| || !IsWordChar(s[r])
    decreases |s| - i
  {
    if i < |s| && IsWordChar(s[i]) then WordEnd(s, i + 1) else i
  }

  /**
   * The pattern `::(\w+)(<|$)` matches at `k`. The greedy `\w+` can only succeed with the whole
   * run of word characters: a shorter run is followed by a word character, which is neither
   * `<` nor the end.
   */
  predicate MatchAt(s: string, k: nat)
  {
    k + 2 < |s| && s[k] == ':' && s[k + 1] == ':' && IsWordChar(s[k + 2])
    && (WordEnd(s, k + 2) == |s| || s[WordEnd(s, k + 2)] == '<')
  }

  /** The leftmost match at or after `from`. */
  function FirstMatch(s: string, from: nat): (r: Option<nat>)
    requires from <= |s|
    ensures r.Some? ==> from <= r.value && MatchAt(s, r.value)
                        && forall k :: from <= k < r.value ==> !MatchAt(s, k)
    ensures r.None? ==> forall k :: from <= k ==> !MatchAt(s, k)
    decreases |s| - from
  {
    if MatchAt(s, from) then Some(from)
    else if from == |s| then None
    else FirstMatch(s, from + 1)
  }

  /** `type_str.split(':').last()`: the text after the last `:`, or all of it. */
  function AfterLastColon(s: string): (r: string)
    ensures ':' !in r
    ensures |r| <= |s| && r == s[|s| - |r|..]
    ensures |r| < |s| ==> s[|s| - |r| - 1] == ':'
  {
    if s == [] then []
    else if s[|s| - 1] == ':' then []
    else AfterLastColon(s[..|s| - 1]) + [s[|s| - 1]]
  }

  /** `r` occurs in `s` at `i`: the function returns a borrowed slice of its argument. */
  predicate SliceAt(s: string, i: nat, r: string)
  {
    i + |r| <= |s| && s[i..i + |r|] == r
  }

  /** `extract_type_name`: the word of the leftmost `::word<` or `::word` at the end, else the last `:`-segment. */
  function ExtractTypeName(s: string): (r: string)
    ensures ':' !in r
    ensures exists i: nat :: SliceAt(s, i, r)
    ensures (exists k :: MatchAt(s, k)) ==> r != [] && AllWord(r)
    ensures (forall k :: !MatchAt(s, k)) ==> r == AfterLastColon(s)
  {
    match FirstMatch(s, 0)
    case Some(k) =>
      var r := s[k + 2..WordEnd(s, k + 2)];
      assert SliceAt(s, k + 2, r);
      r
    case None =>
      var r := AfterLastColon(s);
      assert SliceAt(s, |s| - |r|, r);
      r
  }

  /** `get_type_name::<T>()`: the core name of T's registered fully-qualified name. */
  function GetTypeName(s: RegistryState, t: RustType): (r: Result<string, string>)
    ensures r.Ok? <==> t.id in s.typeInfo
    ensures r.Ok? ==> r.value == ExtractTypeName(s.typeInfo[t.id].fqName)
    ensures r.Err? ==> r == TypeInfoOf(s, t).PropagateFailure()
  {
    var info :- TypeInfoOf(s, t);
    Ok(ExtractTypeName(info.fqName))
  }

  // ---------------------------------------------------------------------------------------------
  // `capture_segments`

  predicate IsSegmentChar(c: char)
  {
    c != ':' && c != '<'
  }

  predicate SegmentText(s: string)
  {
    |s| > 0 && ':' !in s && '<' !in s
  }

  /** The length of the leading run of characters that are neither `:` nor `<`. */
  function RunLength(s: string): (n: nat)
    ensures n <= |s|
    ensures forall i :: 0 <= i < n ==> IsSegmentChar(s[i])
    ensures n == |s| || !IsSegmentChar(s[n])
  {
    if s != [] && IsSegmentChar(s[0]) then 1 + RunLength(s[1..]) else 0
  }

  /** `find_iter(r"[^:<]+")`: the maximal runs of characters other than `:` and `<`, in order. */
  function Runs(s: string): (r: seq<string>)
    ensures forall i :: 0 <= i < |r| ==> SegmentText(r[i])
    ensures r == [] <==> forall i :: 0 <= i < |s| ==> !IsSegmentChar(s[i])
    decreases |s|
  {
    if s == [] then []
    else if !IsSegmentChar(s[0]) then Runs(s[1..])
    else
      var n := RunLength(s);
      assert IsSegmentChar(s[..n][0]);
      [s[..n]] + Runs(s[n..])
  }

  /** The first index of `x` in `xs`. */
  function IndexOf(xs: seq<string>, x: string): (r: Option<nat>)
    ensures r.Some? ==> r.value < |xs| && xs[r.value] == x && x !in xs[..r.value]
    ensures r.None? <==> x !in xs
  {
    if xs == [] then None
    else if xs[0] == x then Some(0)
    else match IndexOf(xs[1..], x)
      case None => None
      case Some(i) => assert xs[1..][..i] == xs[1..i + 1]; Some(i + 1)
  }

  /**
   * `capture_segments`: the segments up to and including the first one equal to the core type
   * name, or all of them when none is equal. With no segment at all, `segments.len() - 1`
   * underflows and the call panics; the error text is the panic of a debug build (a release
   * build wraps around and panics on the out-of-range slice instead).
   */
  function CaptureSegments(s: string): (r: Result<seq<string>, string>)
    ensures r.Err? <==> Runs(s) == []
    ensures r.Ok? ==> 0 < |r.value| <= |Runs(s)| && r.value == Runs(s)[..|r.value|]
    ensures r.Ok? && ExtractTypeName(s) in Runs(s) ==>
              r.value[|r.value| - 1] == ExtractTypeName(s) && ExtractTypeName(s) !in r.value[..|r.value| - 1]
    ensures r.Ok? && ExtractTypeName(s) !in Runs(s) ==> r.value == Runs(s)
  {
    var segments := Runs(s);
    match IndexOf(segments, ExtractTypeName(s))
    case Some(i) =>
      assert segments[..i + 1][..i] == segments[..i];
      Ok(segments[..i + 1])
    case None =>
      if segments == [] then Err("attempt to subtract with overflow") else Ok(segments)
  }

  // ---------------------------------------------------------------------------------------------
  // `convert_to_snake_case`, `capitalize_first_letter`, `snake_case_of_fully_qualified_name`

  /** What character `i` of `s` becomes: an uppercase letter after index 0 gains a leading `_`. */
  function SnakePiece(s: string, i: nat): string
    requires i < |s|
  {
    if i > 0 && IsUpper(s[i]) then ['_', ToLower(s[i])] else [ToLower(s[i])]
  }

  function SnakeFrom(s: string, i: nat): (r: string)
    requires i <= |s|
    ensures NoUpper(r)
    decreases |s| - i
  {
    if i == |s| then "" else SnakePiece(s, i) + SnakeFrom(s, i + 1)
  }

  /** `convert_to_snake_case`: every letter lowercased, a `_` before each inner uppercase letter. */
  function ConvertToSnakeCase(segment: string): (r: string)
    ensures NoUpper(r)
  {
    SnakeFrom(segment, 0)
  }

  /** `capitalize_first_letter`. */
  function CapitalizeFirstLetter(s: string): (r: string)
    ensures |r| == |s|
    ensures s != [] ==> r[0] == ToUpper(s[0]) && r[1..] == s[1..]
  {
    if s == [] then "" else [ToUpper(s[0])] + s[1..]
  }

  function SnakeAll(segs: seq<string>): (r: seq<string>)
    ensures |r| == |segs|
    ensures forall i :: 0 <= i < |segs| ==> r[i] == ConvertToSnakeCase(segs[i])
  {
    seq(|segs|, i requires 0 <= i < |segs| => ConvertToSnakeCase(segs[i]))
  }

  /** `snake_case_of_fully_qualified_name`: the captured segments, snake-cased, joined by `_`, capitalised. */
  function SnakeCaseOfFullyQualifiedName(s: string): (r: Result<string, string>)
    ensures r.Err? <==> Runs(s) == []
    ensures r.Ok? ==> |r.value| > 0 && NoUpper(r.value[1..])
  {
    var segs :- CaptureSegments(s);
    var joined := Join(SnakeAll(segs), "_");
    SnakeJoinNoUpper(SnakeAll(segs));
    NoUpperTail(joined);
    SnakeNonEmpty(segs[0]);
    JoinNonEmpty(SnakeAll(segs), "_");
    Ok(CapitalizeFirstLetter(joined))
  }

  // ---------------------------------------------------------------------------------------------
  // Helper facts.

  lemma NoUpperTail(s: string)
    requires NoUpper(s)
    ensures s != [] ==> NoUpper(s[1..])
  {
  }

  lemma {:induction false} SnakeJoinNoUpper(parts: seq<string>)
    requires forall i :: 0 <= i < |parts| ==> NoUpper(parts[i])
    ensures NoUpper(Join(parts, "_"))
  {
    if |parts| > 1 {
      SnakeJoinNoUpper(parts[1..]);
      assert NoUpper(parts[0] + "_");
    }
  }

  lemma SnakeNonEmpty(s: string)
    requires s != []
    ensures |ConvertToSnakeCase(s)| > 0
  {
  }

  lemma {:induction false} JoinNonEmpty(parts: seq<string>, sep: string)
    requires |parts| > 0 && |parts[0]| > 0
    ensures |Join(parts, sep)| > 0
  {
  }

  /** A character that is not a word character. */
  lemma ColonNotWord()
    ensures !IsWordChar(':') && !IsWordChar('<')
  {
  }

  // ---------------------------------------------------------------------------------------------
  // Properties of `extract_type_name`.

  /** The text after the last `:` is fixed by the position of the last `:`. */
  lemma AfterLastColonAt(s: string, j: nat)
    requires j < |s| && s[j] == ':' && ':' !in s[j + 1..]
    ensures AfterLastColon(s) == s[j + 1..]
  {
  }

  /** With no `:` at all the whole string is the name. */
  lemma AfterLastColonNone(s: string)
    requires ':' !in s
    ensures AfterLastColon(s) == s
  {
  }

  /** A string without any `:` is its own core name. */
  lemma ExtractWithoutColon(s: string)
    requires ':' !in s
    ensures ExtractTypeName(s) == s
  {
    AfterLastColonNone(s);
  }

  /** Without generics the core name is the text after the last `:`. */
  lemma ExtractWithoutGenerics(s: string)
    requires '<' !in s
    ensures ExtractTypeName(s) == AfterLastColon(s)
  {
    match FirstMatch(s, 0)
    case None =>
    case Some(k) =>
      MatchRunsToEnd(s, k);
      AfterLastColonAt(s, k + 1);
  }

  /** Without `<`, a match runs to the end of the string, which holds no `:` after it. */
  lemma MatchRunsToEnd(s: string, k: nat)
    requires '<' !in s && MatchAt(s, k)
    ensures WordEnd(s, k + 2) == |s| && s[k + 2..WordEnd(s, k + 2)] == s[k + 2..]
    ensures k + 1 < |s| && s[k + 1] == ':' && ':' !in s[k + 2..]
  {
    assert WordEnd(s, k + 2) == |s|;
    forall i | k + 2 <= i < |s|
      ensures s[i] != ':'
    {
      assert IsWordChar(s[i]);
      ColonNotWord();
    }
  }

  /** `a::b::c` (segments with no `:` and no `<`) has core name `c`. */
  lemma ExtractJoined(segs: seq<string>)
    requires |segs| > 0 && forall i :: 0 <= i < |segs| ==> SegmentText(segs[i])
    ensures ExtractTypeName(Join(segs, "::")) == segs[|segs| - 1]
  {
    JoinAvoids(segs, "::", '<');
    JoinedAfterLastColon(segs);
    ExtractWithoutGenerics(Join(segs, "::"));
  }

  /** The last `:`-segment of `a::b::c` is `c`. */
  lemma JoinedAfterLastColon(segs: seq<string>)
    requires |segs| > 0 && forall i :: 0 <= i < |segs| ==> SegmentText(segs[i])
    ensures AfterLastColon(Join(segs, "::")) == segs[|segs| - 1]
  {
    var last := segs[|segs| - 1];
    if |segs| == 1 {
      AfterLastColonNone(segs[0]);
    } else {
      JoinLast(segs, "::");
      AfterSeparator(Join(segs[..|segs| - 1], "::"), last);
    }
  }

  /** The text after `head::last` is `last` when `last` has no `:`. */
  lemma AfterSeparator(head: string, last: string)
    requires ':' !in last
    ensures AfterLastColon(head + "::" + last) == last
  {
    var s := head + "::" + last;
    var j := |head| + 1;
    assert s[j] == ':';
    assert s[j + 1..] == last;
    AfterLastColonAt(s, j);
  }

  /** A character in neither the parts nor the separator is not in their join. */
  lemma {:induction false} JoinAvoids(parts: seq<string>, sep: string, c: char)
    requires c !in sep && forall i :: 0 <= i < |parts| ==> c !in parts[i]
    ensures c !in Join(parts, sep)
  {
    if |parts| > 1 {
      JoinAvoids(parts[1..], sep, c);
      var t := Join(parts[1..], sep);
      assert Join(parts, sep) == parts[0] + sep + t;
    }
  }

  /** `WordEnd` is the unique end of the word run. */
  lemma WordEndAt(s: string, i: nat, e: nat)
    requires i <= e <= |s| && AllWord(s[i..e]) && (e == |s| || !IsWordChar(s[e]))
    ensures WordEnd(s, i) == e
  {
  }

  /** With generics the core name is the word between the last `::` before the first `<` and that `<`. */
  lemma ExtractGeneric(pre: string, w: string, post: string)
    requires '<' !in pre && |w| > 0 && AllWord(w)
    ensures ExtractTypeName(pre + "::" + w + "<" + post) == w
  {
    var s := pre + "::" + w + "<" + post;
    var k0 := |pre|;
    GenericShape(pre, w, post);
    NoMatchBefore(s, k0);
    var m := FirstMatch(s, 0);
    assert m == Some(k0);
  }

  /** The pattern matches at the `::` in front of the word, and nothing before it is a `<`. */
  lemma GenericShape(pre: string, w: string, post: string)
    requires '<' !in pre && |w| > 0 && AllWord(w)
    ensures var s := pre + "::" + w + "<" + post;
            && |pre| < |s| && s[|pre|] == ':' && (forall i :: 0 <= i < |pre| ==> s[i] != '<')
            && MatchAt(s, |pre|) && s[|pre| + 2..WordEnd(s, |pre| + 2)] == w
  {
    var s := pre + "::" + w + "<" + post;
    var k0 := |pre|;
    var e0 := k0 + 2 + |w|;
    assert s[k0] == ':' && s[k0 + 1] == ':' && s[e0] == '<';
    assert s[k0 + 2..e0] == w;
    assert forall i :: 0 <= i < k0 ==> s[i] == pre[i];
    ColonNotWord();
    WordEndAt(s, k0 + 2, e0);
  }

  /** No match starts before a `::` that has no `<` in front of it. */
  lemma NoMatchBefore(s: string, k0: nat)
    requires k0 + 1 < |s| && s[k0] == ':' && s[k0 + 1] == ':' && forall i :: 0 <= i < k0 ==> s[i] != '<'
    ensures forall k :: 0 <= k < k0 ==> !MatchAt(s, k)
  {
    forall k | 0 <= k < k0 && k + 2 < |s|
      ensures !MatchAt(s, k)
    {
      ColonNotWord();
      if k + 2 <= k0 {
        var r := WordEnd(s, k + 2);
        assert r <= k0 by {
          assert !IsWordChar(s[k0]);
        }
        assert s[r] != '<' by {
          if r < k0 {
            assert s[r] != '<';
          }
        }
      } else {
        assert s[k + 2] == ':';
      }
    }
  }

  // ---------------------------------------------------------------------------------------------
  // Properties of `capture_segments`.

  /** The runs of a segment followed by a separator. */
  lemma RunsAfterSegment(a: string, t: string)
    requires SegmentText(a) && (t == [] || !IsSegmentChar(t[0]))
    ensures Runs(a + t) == [a] + Runs(t)
  {
    var s := a + t;
    assert s[0] == a[0] && a[0] in a;
    var n := RunLength(s);
    assert n == |a| by {
      assert forall i :: 0 <= i < |a| ==> s[i] == a[i] && a[i] in a;
      assert |a| < |s| ==> s[|a|] == t[0];
    }
    assert s[..n] == a && s[n..] == t;
  }

  /** A leading `::` adds no run. */
  lemma RunsAfterSeparator(t: string)
    ensures Runs("::" + t) == Runs(t)
  {
    assert ("::" + t)[1..] == ":" + t;
    assert (":" + t)[1..] == t;
  }

  /** `a::b::c` splits back into its segments. */
  lemma {:induction false} RunsOfJoin(segs: seq<string>)
    requires forall i :: 0 <= i < |segs| ==> SegmentText(segs[i])
    ensures Runs(Join(segs, "::")) == segs
  {
    if |segs| == 1 {
      RunsAfterSegment(segs[0], "");
      assert segs[0] + "" == segs[0];
    } else if |segs| > 1 {
      var t := Join(segs[1..], "::");
      RunsOfJoin(segs[1..]);
      RunsAfterSegment(segs[0], "::" + t);
      assert segs[0] + "::" + t == segs[0] + ("::" + t);
      RunsAfterSeparator(t);
      assert [segs[0]] + segs[1..] == segs;
    }
  }

  /**
   * `capture_segments` on `a::b::c`: the segments up to the first copy of the last one (all of
   * them when the last segment occurs only once).
   */
  lemma CaptureJoined(segs: seq<string>)
    requires |segs| > 0 && forall i :: 0 <= i < |segs| ==> SegmentText(segs[i])
    ensures var i := IndexOf(segs, segs[|segs| - 1]);
            i.Some? && CaptureSegments(Join(segs, "::")) == Ok(segs[..i.value + 1])
  {
    RunsOfJoin(segs);
    ExtractJoined(segs);
    assert segs[|segs| - 1] in segs;
  }

  // ---------------------------------------------------------------------------------------------
  // Properties of the case conversions.

  /** Over a stretch with no uppercase letter, snake-casing copies the text. */
  lemma {:induction false} SnakeCopiesLower(s: string, i: nat, j: nat)
    requires i <= j <= |s| && NoUpper(s[i..j])
    ensures SnakeFrom(s, i) == s[i..j] + SnakeFrom(s, j)
    decreases j - i
  {
    if i < j {
      LowerStretchStep(s, i, j);
      SnakeCopiesLower(s, i + 1, j);
      ConsAppend(s[i], s[i + 1..j], SnakeFrom(s, j));
    }
  }

  /** The first character of a stretch with no uppercase letter is copied, and the rest has none either. */
  lemma LowerStretchStep(s: string, i: nat, j: nat)
    requires i < j <= |s| && NoUpper(s[i..j])
    ensures SnakePiece(s, i) == [s[i]] && NoUpper(s[i + 1..j]) && s[i..j] == [s[i]] + s[i + 1..j]
  {
    assert s[i] == s[i..j][0];
    assert s[i + 1..j] == s[i..j][1..];
    NoUpperTail(s[i..j]);
  }

  lemma ConsAppend<T>(x: T, a: seq<T>, b: seq<T>)
    ensures [x] + (a + b) == ([x] + a) + b
  {
  }

  /** A string with no uppercase letter is already in snake case. */
  lemma SnakeOfLower(s: string)
    requires NoUpper(s)
    ensures ConvertToSnakeCase(s) == s
  {
    SnakeCopiesLower(s, 0, |s|);
    assert s[0..|s|] == s;
  }

  /** Snake-casing is idempotent. */
  lemma SnakeIdempotent(s: string)
    ensures ConvertToSnakeCase(ConvertToSnakeCase(s)) == ConvertToSnakeCase(s)
  {
    SnakeOfLower(ConvertToSnakeCase(s));
  }

  /** The number of uppercase letters after index 0, from index `i` on. */
  function InnerUpperFrom(s: string, i: nat): nat
    requires i <= |s|
    decreases |s| - i
  {
    if i == |s| then 0 else (if i > 0 && IsUpper(s[i]) then 1 else 0) + InnerUpperFrom(s, i + 1)
  }

  /** One `_` is inserted per uppercase letter after the first character. */
  lemma {:induction false} SnakeLength(s: string, i: nat)
    requires i <= |s|
    ensures |SnakeFrom(s, i)| == |s| - i + InnerUpperFrom(s, i)
    decreases |s| - i
  {
    if i < |s| {
      SnakeLength(s, i + 1);
    }
  }

  /** A CamelCase pair of words `Xyz` + `Uvw` becomes `xyz_uvw`. */
  lemma SnakeCamelPair(a: char, tailA: string, b: char, tailB: string)
    requires IsUpper(a) && IsUpper(b) && NoUpper(tailA) && NoUpper(tailB)
    ensures ConvertToSnakeCase([a] + tailA + [b] + tailB) == [ToLower(a)] + tailA + "_" + [ToLower(b)] + tailB
  {
    var s := [a] + tailA + [b] + tailB;
    var j := 1 + |tailA|;
    assert SnakeFrom(s, 0) == [ToLower(a)] + SnakeFrom(s, 1);
    assert s[1..j] == tailA;
    SnakeCopiesLower(s, 1, j);
    assert s[j] == b;
    assert SnakeFrom(s, j) == ['_', ToLower(b)] + SnakeFrom(s, j + 1);
    assert s[j + 1..|s|] == tailB;
    SnakeCopiesLower(s, j + 1, |s|);
  }

  /** A capitalised word `Xyz` becomes `xyz`. */
  lemma SnakeCapitalised(a: char, tail: string)
    requires IsUpper(a) && NoUpper(tail)
    ensures ConvertToSnakeCase([a] + tail) == [ToLower(a)] + tail
  {
    var s := [a] + tail;
    assert SnakeFrom(s, 0) == [ToLower(a)] + SnakeFrom(s, 1);
    assert s[1..|s|] == tail;
    SnakeCopiesLower(s, 1, |s|);
  }

  /** Capitalising twice is capitalising once. */
  lemma CapitalizeIdempotent(s: string)
    ensures CapitalizeFirstLetter(CapitalizeFirstLetter(s)) == CapitalizeFirstLetter(s)
  {
  }

  // ---------------------------------------------------------------------------------------------
  // The variant tags of the documented bindings.

  /** The tag of a plain `a::b::c` path whose last segment occurs once. */
  lemma TagOfJoined(segs: seq<string>)
    requires |segs| > 0 && forall i :: 0 <= i < |segs| ==> SegmentText(segs[i])
    requires segs[|segs| - 1] !in segs[..|segs| - 1]
    ensures SnakeCaseOfFullyQualifiedName(Join(segs, "::")) == Ok(CapitalizeFirstLetter(Join(SnakeAll(segs), "_")))
  {
    CaptureJoinedOnce(segs);
    TagOfCaptured(Join(segs, "::"), segs);
  }

  /** `capture_segments` keeps every segment of `a::b::c` when `c` occurs once. */
  lemma CaptureJoinedOnce(segs: seq<string>)
    requires |segs| > 0 && forall i :: 0 <= i < |segs| ==> SegmentText(segs[i])
    requires segs[|segs| - 1] !in segs[..|segs| - 1]
    ensures CaptureSegments(Join(segs, "::")) == Ok(segs)
  {
    CaptureJoined(segs);
    var i := IndexOf(segs, segs[|segs| - 1]).value;
    assert segs[..i + 1] == segs;
  }

  /** The tag is built from whatever `capture_segments` returned. */
  lemma TagOfCaptured(s: string, segs: seq<string>)
    requires CaptureSegments(s) == Ok(segs)
    ensures SnakeCaseOfFullyQualifiedName(s) == Ok(CapitalizeFirstLetter(Join(SnakeAll(segs), "_")))
  {
  }
}
