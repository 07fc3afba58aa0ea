/**
 * The input grammar of `register_type!` and `register_trait!`: a braced block of named fields
 * `name: value` and named lists `name: [v, ...]`, read in a fixed order with optional trailing
 * commas. The token stream is a sequence of tokens; a parser returns what it read and the tokens
 * it left.
 */
module MacroParse {
  import opened Wrappers
  import opened MacroPaths

  datatype Delimiter = Brace | Bracket | Parenthesis

  /** `::` is one token (`PathSep`), as it is for the Rust parser. */
  datatype Token =
    | Ident(name: string)
    | Colon
    | PathSep
    | Comma
    | Group(delim: Delimiter, inner: seq<Token>)
    | Other(text: string)

  datatype Parsed<T> = Parsed(value: T, rest: seq<Token>)

  datatype TypeRegisterInput = TypeRegisterInput(ty: Path, markerTraits: seq<Path>, objectSafeTraits: seq<Path>)

  datatype TraitRegisterInput = TraitRegisterInput(ty: Path, markerTraits: seq<Path>)

  const ExpectedIdent := "expected identifier"
  const ExpectedColon := "expected `:`"
  const ExpectedComma := "expected `,`"
  const ExpectedBraces := "expected curly braces"
  const ExpectedBrackets := "expected square brackets"
  const UnexpectedToken := "unexpected token"

  /**
   * A `syn::Error`: its message, and whether it was raised by syn's cursor with nothing left in
   * the stream (or in the group being read), in which case syn prefixes the message with
   * `unexpected end of input, `.
   */
  datatype Diagnostic = Diagnostic(atEnd: bool, message: string)
  {
    /** The text the compiler shows. */
    function Text(): string
    {
      (if atEnd then "unexpected end of input, " else "") + message
    }
  }

  /** `syn::Error::new`: the message as given. */
  function Plain(msg: string): (d: Diagnostic)
    ensures !d.atEnd && d.message == msg
  {
    Diagnostic(false, msg)
  }

  /** An error raised by syn's cursor at `ts`: prefixed exactly when `ts` is exhausted. */
  function CursorError(ts: seq<Token>, msg: string): (d: Diagnostic)
    ensures d.atEnd <==> |ts| == 0
    ensures d.message == msg
  {
    Diagnostic(|ts| == 0, msg)
  }

  /** The diagnostics `parse_named_field` can give; only the identifier one can be at the end. */
  predicate FieldError(d: Diagnostic, name: string)
  {
    (d.message == ExpectedIdent || (!d.atEnd && (d.message == ExpectedName(name) || d.message == ExpectedColon)))
  }

  /** The diagnostics `parse_named_list` can give; only the identifier and bracket ones can be at the end. */
  predicate ListError(d: Diagnostic, name: string)
  {
    d.message == ExpectedIdent || d.message == ExpectedBrackets
    || (!d.atEnd && (d.message == ExpectedName(name) || d.message == ExpectedColon || d.message == ExpectedComma))
  }

  /** The diagnostic of a field or list whose leading identifier is not the expected one. */
  function ExpectedName(name: string): string
  {
    "Expected '" + name + "'"
  }

  predicate StartsWith(ts: seq<Token>, t: Token)
  {
    |ts| > 0 && ts[0] == t
  }

  /** `rest` is what is left of `ts` after a non-empty prefix was read. */
  predicate Consumed(ts: seq<Token>, rest: seq<Token>)
  {
    |rest| < |ts| && rest == ts[|ts| - |rest|..]
  }

  /** Reads one identifier. */
  function ParseIdent(ts: seq<Token>): (r: Result<Parsed<string>, Diagnostic>)
    ensures r.Ok? <==> |ts| > 0 && ts[0].Ident?
    ensures r.Ok? ==> r.value == Parsed(ts[0].name, ts[1..])
    ensures r.Err? ==> r.error == CursorError(ts, ExpectedIdent)
  {
    if |ts| > 0 && ts[0].Ident? then Ok(Parsed(ts[0].name, ts[1..])) else Err(CursorError(ts, ExpectedIdent))
  }

  /** `input.parse::<Token![,]>().ok()`: a comma is skipped when there is one. */
  function SkipComma(ts: seq<Token>): (r: seq<Token>)
    ensures StartsWith(ts, Comma) ==> r == ts[1..]
    ensures !StartsWith(ts, Comma) ==> r == ts
  {
    if StartsWith(ts, Comma) then ts[1..] else ts
  }

  /** The `:: ident` continuations of a path, appended to `segs`. */
  function ParseSegments(ts: seq<Token>, segs: seq<string>): (r: Result<Parsed<seq<string>>, Diagnostic>)
    ensures r.Ok? ==> |r.value.rest| <= |ts| && r.value.rest == ts[|ts| - |r.value.rest|..]
    ensures r.Ok? ==> !StartsWith(r.value.rest, PathSep)
    ensures r.Ok? ==> |r.value.value| >= |segs| && r.value.value[..|segs|] == segs
    ensures r.Err? ==> r.error.message == ExpectedIdent
    decreases |ts|
  {
    if StartsWith(ts, PathSep) then
      if |ts| > 1 && ts[1].Ident? then ParseSegments(ts[2..], segs + [ts[1].name])
      else Err(CursorError(ts[1..], ExpectedIdent))
    else Ok(Parsed(segs, ts))
  }

  /** A path: an optional leading `::`, an identifier, then `:: ident` as long as there is a `::`. */
  function ParsePath(ts: seq<Token>): (r: Result<Parsed<Path>, Diagnostic>)
    ensures r.Ok? ==> Consumed(ts, r.value.rest) && |r.value.value.segments| > 0
    ensures r.Ok? ==> !StartsWith(r.value.rest, PathSep)
    ensures r.Ok? ==> r.value.value.leadingColon == StartsWith(ts, PathSep)
    ensures r.Err? ==> r.error.message == ExpectedIdent
  {
    var lead := StartsWith(ts, PathSep);
    var ts1 := if lead then ts[1..] else ts;
    if |ts1| > 0 && ts1[0].Ident? then
      match ParseSegments(ts1[1..], [ts1[0].name])
      case Err(e) => Err(e)
      case Ok(p) =>
        ConsumedSuffix(ts, ts1[1..], p.rest);
        Ok(Parsed(Path(lead, p.value), p.rest))
    else Err(CursorError(ts1, ExpectedIdent))
  }

  /** A suffix of a proper suffix of `ts` is a proper suffix of `ts`. */
  lemma ConsumedSuffix(ts: seq<Token>, mid: seq<Token>, rest: seq<Token>)
    requires Consumed(ts, mid)
    requires |rest| <= |mid| && rest == mid[|mid| - |rest|..]
    ensures Consumed(ts, rest)
  {
  }

  /** `Punctuated::parse_terminated`: paths separated by commas, a trailing comma allowed, to the end. */
  function ParseTerminated(ts: seq<Token>): (r: Result<seq<Path>, Diagnostic>)
    ensures r.Ok? && ts == [] ==> r.value == []
    ensures r.Ok? ==> WellFormed(r.value)
    ensures r.Err? ==> r.error.message == ExpectedIdent || r.error == Plain(ExpectedComma)
    decreases |ts|
  {
    if ts == [] then Ok([])
    else match ParsePath(ts)
      case Err(e) => Err(e)
      case Ok(p) =>
        if p.rest == [] then Ok([p.value])
        else if p.rest[0] != Comma then Err(Plain(ExpectedComma))
        else match ParseTerminated(p.rest[1..])
          case Err(e) => Err(e)
          case Ok(vs) => WellFormedCons(p.value, vs); Ok([p.value] + vs)
  }

  lemma WellFormedCons(p: Path, ps: seq<Path>)
    requires |p.segments| > 0 && WellFormed(ps)
    ensures WellFormed([p] + ps)
  {
    assert forall i :: 1 <= i < |ps| + 1 ==> ([p] + ps)[i] == ps[i - 1];
  }

  /** `parse_named_field` for a path-valued field: `name : path` and an optional comma. */
  function ParseNamedField(ts: seq<Token>, name: string): (r: Result<Parsed<Path>, Diagnostic>)
    ensures r.Ok? ==> |ts| > 1 && ts[0] == Ident(name) && ts[1] == Colon && Consumed(ts, r.value.rest)
    ensures r.Ok? ==> |r.value.value.segments| > 0
    ensures r.Err? ==> FieldError(r.error, name)
  {
    match ParseIdent(ts)
    case Err(e) => Err(e)
    case Ok(id) =>
      if id.value != name then Err(Plain(ExpectedName(name)))
      else if !StartsWith(id.rest, Colon) then Err(Plain(ExpectedColon))
      else match ParsePath(id.rest[1..])
        case Err(e) => Err(e)
        case Ok(p) => Ok(Parsed(p.value, SkipComma(p.rest)))
  }

  /** `parse_named_list` for a list of paths: `name : [ ... ]` and an optional comma. */
  function ParseNamedList(ts: seq<Token>, name: string): (r: Result<Parsed<seq<Path>>, Diagnostic>)
    ensures r.Ok? ==> |ts| > 2 && ts[0] == Ident(name) && ts[1] == Colon && ts[2].Group? && ts[2].delim == Bracket
    ensures r.Ok? ==> Consumed(ts, r.value.rest) && WellFormed(r.value.value)
    ensures r.Err? ==> ListError(r.error, name)
  {
    match ParseIdent(ts)
    case Err(e) => Err(e)
    case Ok(id) =>
      if id.value != name then Err(Plain(ExpectedName(name)))
      else if !StartsWith(id.rest, Colon) then Err(Plain(ExpectedColon))
      else if !(|id.rest| > 1 && id.rest[1].Group? && id.rest[1].delim == Bracket) then Err(CursorError(id.rest[1..], ExpectedBrackets))
      else match ParseTerminated(id.rest[1].inner)
        case Err(e) => Err(e)
        case Ok(vs) => Ok(Parsed(vs, SkipComma(id.rest[2..])))
  }

  /** `braced!`: the next token must be a brace-delimited group; yields its content and what follows. */
  function Braced(ts: seq<Token>): (r: Result<Parsed<seq<Token>>, Diagnostic>)
    ensures r.Ok? <==> ts != [] && ts[0].Group? && ts[0].delim == Brace
    ensures r.Ok? ==> r.value == Parsed(ts[0].inner, ts[1..])
    ensures r.Err? ==> r.error == CursorError(ts, ExpectedBraces)
  {
    if ts == [] || !ts[0].Group? || ts[0].delim != Brace then Err(CursorError(ts, ExpectedBraces))
    else Ok(Parsed(ts[0].inner, ts[1..]))
  }

  /**
   * What `syn::parse2` checks once the input's parser has returned: no token left unread in the
   * braces, then none after them; either is `unexpected token`.
   */
  function Finish<T>(value: T, contentRest: seq<Token>, after: seq<Token>): (r: Result<T, Diagnostic>)
    ensures r.Ok? <==> contentRest == [] && after == []
    ensures r.Ok? ==> r.value == value
    ensures r.Err? ==> r.error == Plain(UnexpectedToken)
  {
    if contentRest != [] || after != [] then Err(Plain(UnexpectedToken)) else Ok(value)
  }

  /** `TypeRegisterInput::parse` under `parse_macro_input!`: `{ ty: .., marker_traits: [..], object_safe_traits: [..] }`. */
  function ParseTypeRegisterInput(ts: seq<Token>): (r: Result<TypeRegisterInput, Diagnostic>)
    ensures r.Ok? ==> |ts| == 1 && ts[0].Group? && ts[0].delim == Brace
    ensures r.Ok? ==> |r.value.ty.segments| > 0 && WellFormed(r.value.markerTraits) && WellFormed(r.value.objectSafeTraits)
    ensures r.Err? ==> r.error.message == ExpectedBraces || FieldError(r.error, "ty") || ListError(r.error, "marker_traits")
                       || ListError(r.error, "object_safe_traits") || r.error == Plain(UnexpectedToken)
  {
    var group :- Braced(ts);
    var ty :- ParseNamedField(group.value, "ty");
    var markers :- ParseNamedList(ty.rest, "marker_traits");
    var traits :- ParseNamedList(markers.rest, "object_safe_traits");
    Finish(TypeRegisterInput(ty.value, markers.value, traits.value), traits.rest, group.rest)
  }

  /** `TraitRegisterInput::parse` under `parse_macro_input!`: `{ ty: .., marker_traits: [..] }`. */
  function ParseTraitRegisterInput(ts: seq<Token>): (r: Result<TraitRegisterInput, Diagnostic>)
    ensures r.Ok? ==> |ts| == 1 && ts[0].Group? && ts[0].delim == Brace
    ensures r.Ok? ==> |r.value.ty.segments| > 0 && WellFormed(r.value.markerTraits)
    ensures r.Err? ==> r.error.message == ExpectedBraces || FieldError(r.error, "ty") || ListError(r.error, "marker_traits")
                       || r.error == Plain(UnexpectedToken)
  {
    var group :- Braced(ts);
    var ty :- ParseNamedField(group.value, "ty");
    var markers :- ParseNamedList(ty.rest, "marker_traits");
    Finish(TraitRegisterInput(ty.value, markers.value), markers.rest, group.rest)
  }

  // ---------------------------------------------------------------------------------------------
  // Printing: the token stream a macro user writes for a given input.

  /** `:: s` for every segment. */
  function SegmentTokens(segs: seq<string>): seq<Token>
  {
    if segs == [] then [] else [PathSep, Ident(segs[0])] + SegmentTokens(segs[1..])
  }

  function PathTokens(p: Path): seq<Token>
    requires |p.segments| > 0
  {
    (if p.leadingColon then [PathSep] else []) + [Ident(p.segments[0])] + SegmentTokens(p.segments[1..])
  }

  predicate WellFormed(ps: seq<Path>)
  {
    forall i :: 0 <= i < |ps| ==> |ps[i].segments| > 0
  }

  /** The paths separated by commas, with a trailing comma when `trailing` holds. */
  function ListTokens(ps: seq<Path>, trailing: bool): seq<Token>
    requires WellFormed(ps)
  {
    if ps == [] then []
    else if |ps| == 1 then PathTokens(ps[0]) + (if trailing then [Comma] else [])
    else PathTokens(ps[0]) + [Comma] + ListTokens(ps[1..], trailing)
  }

  function CommaIf(b: bool): seq<Token>
  {
    if b then [Comma] else []
  }

  function FieldTokens(name: string, p: Path, comma: bool): seq<Token>
    requires |p.segments| > 0
  {
    [Ident(name), Colon] + PathTokens(p) + CommaIf(comma)
  }

  function NamedListTokens(name: string, ps: seq<Path>, trailing: bool, comma: bool): seq<Token>
    requires WellFormed(ps)
  {
    [Ident(name), Colon, Group(Bracket, ListTokens(ps, trailing))] + CommaIf(comma)
  }

  function TypeInputTokens(input: TypeRegisterInput, comma: bool): seq<Token>
    requires |input.ty.segments| > 0 && WellFormed(input.markerTraits) && WellFormed(input.objectSafeTraits)
  {
    [Group(Brace, FieldTokens("ty", input.ty, true)
                  + NamedListTokens("marker_traits", input.markerTraits, comma, true)
                  + NamedListTokens("object_safe_traits", input.objectSafeTraits, comma, comma))]
  }

  function TraitInputTokens(input: TraitRegisterInput, comma: bool): seq<Token>
    requires |input.ty.segments| > 0 && WellFormed(input.markerTraits)
  {
    [Group(Brace, FieldTokens("ty", input.ty, true) + NamedListTokens("marker_traits", input.markerTraits, comma, comma))]
  }

  // ---------------------------------------------------------------------------------------------
  // Properties.

  lemma {:induction false} SegmentsRoundTrip(segs: seq<string>, acc: seq<string>, rest: seq<Token>)
    requires !StartsWith(rest, PathSep)
    ensures ParseSegments(SegmentTokens(segs) + rest, acc) == Ok(Parsed(acc + segs, rest))
    decreases |segs|
  {
    if segs == [] {
      assert SegmentTokens(segs) + rest == rest;
      assert acc + segs == acc;
    } else {
      SegmentTokensCons(segs, rest);
      SegmentsRoundTrip(segs[1..], acc + [segs[0]], rest);
      AppendHeadTail(acc, segs);
    }
  }

  /** The tokens of a non-empty segment list start with `:: first`. */
  lemma SegmentTokensCons(segs: seq<string>, rest: seq<Token>)
    requires segs != []
    ensures StartsWith(SegmentTokens(segs) + rest, PathSep)
    ensures |SegmentTokens(segs) + rest| > 1 && (SegmentTokens(segs) + rest)[1] == Ident(segs[0])
    ensures (SegmentTokens(segs) + rest)[2..] == SegmentTokens(segs[1..]) + rest
  {
    assert SegmentTokens(segs) + rest == [PathSep, Ident(segs[0])] + (SegmentTokens(segs[1..]) + rest);
  }

  lemma HeadTail<T>(xs: seq<T>)
    requires xs != []
    ensures [xs[0]] + xs[1..] == xs
  {
  }

  lemma AppendHeadTail<T>(acc: seq<T>, xs: seq<T>)
    requires xs != []
    ensures acc + [xs[0]] + xs[1..] == acc + xs
  {
  }

  /** A path reads back from its tokens when what follows does not continue it. */
  lemma PathRoundTrip(p: Path, rest: seq<Token>)
    requires |p.segments| > 0 && !StartsWith(rest, PathSep)
    ensures ParsePath(PathTokens(p) + rest) == Ok(Parsed(p, rest))
  {
    var tail := SegmentTokens(p.segments[1..]) + rest;
    PathTokensSplit(p, rest);
    ParsePathAfterLead(p.leadingColon, p.segments[0], tail);
    SegmentsRoundTrip(p.segments[1..], [p.segments[0]], rest);
    HeadTail(p.segments);
  }

  lemma PathTokensSplit(p: Path, rest: seq<Token>)
    requires |p.segments| > 0
    ensures PathTokens(p) + rest ==
            (if p.leadingColon then [PathSep] else []) + ([Ident(p.segments[0])] + (SegmentTokens(p.segments[1..]) + rest))
  {
  }

  /** `ParsePath` on a stream that is an optional `::`, an identifier and then `tail`. */
  lemma ParsePathAfterLead(lead: bool, first: string, tail: seq<Token>)
    ensures var seg := ParseSegments(tail, [first]);
            seg.Ok? ==> ParsePath((if lead then [PathSep] else []) + ([Ident(first)] + tail)) ==
                          Ok(Parsed(Path(lead, seg.value.value), seg.value.rest))
  {
    var ts1 := [Ident(first)] + tail;
    var ts := (if lead then [PathSep] else []) + ts1;
    assert StartsWith(ts, PathSep) == lead;
    assert (if lead then ts[1..] else ts) == ts1;
    assert ts1[0] == Ident(first) && ts1[1..] == tail;
  }

  /** The last path of a list, with or without a trailing comma. */
  lemma TerminatedLast(p: Path, trailing: bool)
    requires |p.segments| > 0
    ensures ParseTerminated(PathTokens(p) + CommaIf(trailing)) == Ok([p])
  {
    if trailing {
      PathRoundTrip(p, [Comma]);
      assert ParseTerminated([Comma][1..]) == Ok([]);
      assert [p] + [] == [p];
    } else {
      assert PathTokens(p) + CommaIf(trailing) == PathTokens(p) + [];
      PathRoundTrip(p, []);
    }
  }

  /** A path followed by a comma and more of the list. */
  lemma TerminatedStep(p: Path, more: seq<Token>)
    requires |p.segments| > 0
    ensures ParseTerminated(PathTokens(p) + [Comma] + more) ==
            match ParseTerminated(more)
            case Err(e) => Err(e)
            case Ok(vs) => Ok([p] + vs)
  {
    var tail := [Comma] + more;
    assert PathTokens(p) + [Comma] + more == PathTokens(p) + tail;
    PathRoundTrip(p, tail);
    assert tail[1..] == more;
  }

  /** A comma-separated list, with or without the trailing comma, reads back as the same paths. */
  lemma {:induction false} ListRoundTrip(ps: seq<Path>, trailing: bool)
    requires WellFormed(ps)
    ensures ParseTerminated(ListTokens(ps, trailing)) == Ok(ps)
    decreases |ps|
  {
    if ps == [] {
    } else if |ps| == 1 {
      TerminatedLast(ps[0], trailing);
      assert [ps[0]] == ps;
    } else {
      TerminatedStep(ps[0], ListTokens(ps[1..], trailing));
      ListRoundTrip(ps[1..], trailing);
      HeadTail(ps);
    }
  }

  /** A named field reads back, its comma optional. */
  lemma FieldRoundTrip(name: string, p: Path, comma: bool, rest: seq<Token>)
    requires |p.segments| > 0 && !StartsWith(rest, PathSep) && !StartsWith(rest, Comma)
    ensures ParseNamedField(FieldTokens(name, p, comma) + rest, name) == Ok(Parsed(p, rest))
  {
    var afterName := FieldTokensSplit(name, p, comma, rest);
    CommaIfSkipped(comma, rest);
    PathRoundTrip(p, CommaIf(comma) + rest);
  }

  /** `name : <path tokens>` then the optional comma and `rest`, as `ParseNamedField` reads it. */
  lemma FieldTokensSplit(name: string, p: Path, comma: bool, rest: seq<Token>) returns (afterName: seq<Token>)
    requires |p.segments| > 0
    ensures ParseIdent(FieldTokens(name, p, comma) + rest) == Ok(Parsed(name, afterName))
    ensures StartsWith(afterName, Colon) && afterName[1..] == PathTokens(p) + (CommaIf(comma) + rest)
  {
    afterName := [Colon] + (PathTokens(p) + (CommaIf(comma) + rest));
    assert FieldTokens(name, p, comma) + rest == [Ident(name)] + afterName;
  }

  /** The optional comma is skipped, and what follows it does not continue a path. */
  lemma CommaIfSkipped(comma: bool, rest: seq<Token>)
    requires !StartsWith(rest, PathSep) && !StartsWith(rest, Comma)
    ensures SkipComma(CommaIf(comma) + rest) == rest && !StartsWith(CommaIf(comma) + rest, PathSep)
  {
    if comma {
      assert (CommaIf(comma) + rest)[1..] == rest;
    }
  }

  /** `parse_named_list` on `name : [inner]` followed by `after`. */
  lemma NamedListUnfold(name: string, inner: seq<Token>, after: seq<Token>)
    ensures ParseNamedList([Ident(name), Colon, Group(Bracket, inner)] + after, name) ==
            match ParseTerminated(inner)
            case Err(e) => Err(e)
            case Ok(vs) => Ok(Parsed(vs, SkipComma(after)))
  {
    var ts := [Ident(name), Colon, Group(Bracket, inner)] + after;
    assert ts[1..] == [Colon, Group(Bracket, inner)] + after;
    assert ts[1..][2..] == after;
  }

  /** A named list reads back, its trailing comma and the comma after it both optional. */
  lemma ListFieldRoundTrip(name: string, ps: seq<Path>, trailing: bool, comma: bool, rest: seq<Token>)
    requires WellFormed(ps) && !StartsWith(rest, Comma)
    ensures ParseNamedList(NamedListTokens(name, ps, trailing, comma) + rest, name) == Ok(Parsed(ps, rest))
  {
    var after := CommaIf(comma) + rest;
    assert NamedListTokens(name, ps, trailing, comma) + rest == [Ident(name), Colon, Group(Bracket, ListTokens(ps, trailing))] + after;
    NamedListUnfold(name, ListTokens(ps, trailing), after);
    ListRoundTrip(ps, trailing);
    if comma {
      assert after[1..] == rest;
    }
  }

  /**
   * `parse_named_field` and `parse_named_list` fail with `Expected '<name>'` exactly when the
   * leading token is an identifier other than `name`.
   */
  lemma WrongNameFails(ts: seq<Token>, name: string)
    ensures ParseNamedField(ts, name) == Err(Plain(ExpectedName(name))) <==> |ts| > 0 && ts[0].Ident? && ts[0].name != name
    ensures ParseNamedList(ts, name) == Err(Plain(ExpectedName(name))) <==> |ts| > 0 && ts[0].Ident? && ts[0].name != name
  {
    var e := ExpectedName(name);
    assert e[0] == 'E';
    assert ExpectedIdent[0] == 'e' && ExpectedColon[0] == 'e' && ExpectedBrackets[0] == 'e' && ExpectedComma[0] == 'e';
    assert e != ExpectedIdent && e != ExpectedColon && e != ExpectedBrackets && e != ExpectedComma;
  }

  /**
   * The full input of `register_type!` reads back, with or without the optional commas; any
   * token after the braces makes it `unexpected token`.
   */
  lemma TypeInputRoundTrip(input: TypeRegisterInput, comma: bool, after: seq<Token>)
    requires |input.ty.segments| > 0 && WellFormed(input.markerTraits) && WellFormed(input.objectSafeTraits)
    ensures ParseTypeRegisterInput(TypeInputTokens(input, comma) + after)
              == if after == [] then Ok(input) else Err(Plain(UnexpectedToken))
  {
    var l2 := NamedListTokens("object_safe_traits", input.objectSafeTraits, comma, comma);
    var l1 := NamedListTokens("marker_traits", input.markerTraits, comma, true) + l2;
    var content := FieldTokens("ty", input.ty, true) + l1;
    assert FieldTokens("ty", input.ty, true)
           + NamedListTokens("marker_traits", input.markerTraits, comma, true)
           + NamedListTokens("object_safe_traits", input.objectSafeTraits, comma, comma) == content;
    assert TypeInputTokens(input, comma) + after == [Group(Brace, content)] + after;
    FieldRoundTrip("ty", input.ty, true, l1);
    ListFieldRoundTrip("marker_traits", input.markerTraits, comma, true, l2);
    ListFieldRoundTrip("object_safe_traits", input.objectSafeTraits, comma, comma, []);
    assert l2 + [] == l2;
  }

  /**
   * The full input of `register_trait!` reads back, with or without the optional commas; any
   * token after the braces makes it `unexpected token`.
   */
  lemma TraitInputRoundTrip(input: TraitRegisterInput, comma: bool, after: seq<Token>)
    requires |input.ty.segments| > 0 && WellFormed(input.markerTraits)
    ensures ParseTraitRegisterInput(TraitInputTokens(input, comma) + after)
              == if after == [] then Ok(input) else Err(Plain(UnexpectedToken))
  {
    var l1 := NamedListTokens("marker_traits", input.markerTraits, comma, comma);
    var content := FieldTokens("ty", input.ty, true) + l1;
    assert TraitInputTokens(input, comma) + after == [Group(Brace, content)] + after;
    FieldRoundTrip("ty", input.ty, true, l1);
    ListFieldRoundTrip("marker_traits", input.markerTraits, comma, comma, []);
    assert l1 + [] == l1;
  }

  /**
   * A block that does not open with `ty` (the field missing, or misspelt such as `typo_type`)
   * is rejected with `Expected 'ty'`, whatever follows inside the braces and after them: the
   * content is parsed before the leftover tokens are looked at.
   */
  lemma MissingTyRejected(first: string, content: seq<Token>, after: seq<Token>)
    requires first != "ty"
    ensures ParseTypeRegisterInput([Group(Brace, [Ident(first)] + content)] + after) == Err(Plain(ExpectedName("ty")))
    ensures ParseTraitRegisterInput([Group(Brace, [Ident(first)] + content)] + after) == Err(Plain(ExpectedName("ty")))
  {
  }

  /** `{ typo: X } extra` reports the misspelt field, not the trailing `extra`. */
  lemma TypoBeforeTrailing()
    ensures ParseTypeRegisterInput([Group(Brace, [Ident("typo"), Colon, Ident("X")]), Ident("extra")]) == Err(Plain(ExpectedName("ty")))
  {
    assert [Ident("typo"), Colon, Ident("X")] == [Ident("typo")] + [Colon, Ident("X")];
    MissingTyRejected("typo", [Colon, Ident("X")], [Ident("extra")]);
  }

  /**
   * Input that stops early is reported by the cursor errors with the end-of-input prefix: an
   * empty invocation, and empty braces.
   */
  lemma EmptyInputDiagnostics()
    ensures ParseTypeRegisterInput([]) == Err(Diagnostic(true, ExpectedBraces))
    ensures ParseTraitRegisterInput([]) == Err(Diagnostic(true, ExpectedBraces))
    ensures ParseTypeRegisterInput([Group(Brace, [])]) == Err(Diagnostic(true, ExpectedIdent))
    ensures ParseTraitRegisterInput([Group(Brace, [])]) == Err(Diagnostic(true, ExpectedIdent))
  {
    assert [Group(Brace, [])][1..] == [];
  }

  /** A `register_trait!` block whose `ty` field reads back: what follows decides the outcome. */
  lemma TraitInputAfterTy(p: Path, rest: seq<Token>)
    requires |p.segments| > 0 && !StartsWith(rest, PathSep) && !StartsWith(rest, Comma)
    ensures ParseTraitRegisterInput([Group(Brace, FieldTokens("ty", p, true) + rest)]) ==
            match ParseNamedList(rest, "marker_traits")
            case Err(e) => Err(e)
            case Ok(m) => Finish(TraitRegisterInput(p, m.value), m.rest, [])
  {
    FieldRoundTrip("ty", p, true, rest);
  }

  /** A `register_trait!` block that ends after its `ty` field lacks the next identifier at the end. */
  lemma TraitInputEndsAfterTy(p: Path)
    requires |p.segments| > 0
    ensures ParseTraitRegisterInput([Group(Brace, FieldTokens("ty", p, true))]) == Err(Diagnostic(true, ExpectedIdent))
  {
    TraitInputAfterTy(p, []);
    assert FieldTokens("ty", p, true) + [] == FieldTokens("ty", p, true);
  }

  /** A `register_trait!` block that ends after `marker_traits:` lacks the brackets at the end. */
  lemma TraitInputEndsAfterColon(p: Path, name: string)
    requires |p.segments| > 0 && name == "marker_traits"
    ensures ParseTraitRegisterInput([Group(Brace, FieldTokens("ty", p, true) + [Ident(name), Colon])])
              == Err(Diagnostic(true, ExpectedBrackets))
  {
    TraitInputAfterTy(p, [Ident(name), Colon]);
    assert [Ident(name), Colon][1..][1..] == [];
  }
}
