/**
 * The text helpers used when OCaml declarations are generated: the type-parameter lists of
 * `P1`/`P2`/`P3`, the `WithTypeParams` wrapper's description and bindings, the splice that
 * adds type parameters to a generated `type nonrec` declaration, and the selection and naming
 * of the `.ml` files the stubs generator writes.
 */
module OcamlGenExtras {
  import opened Wrappers
  import opened Text

  // ---------------------------------------------------------------------------------------------
  // Type parameters (`TypeParams` for `P1`, `P2`, `P3`).

  /** The type-parameter markers; each carries the letters of its OCaml type variables. */
  datatype TypeParams = P1(c: char) | P2(c1: char, c2: char) | P3(c1: char, c2: char, c3: char)

  /** The letters of the type variables, in order. */
  function Vars(p: TypeParams): (r: seq<char>)
    ensures 1 <= |r| <= 3
  {
    match p
    case P1(c) => [c]
    case P2(c1, c2) => [c1, c2]
    case P3(c1, c2, c3) => [c1, c2, c3]
  }

  /** `'x`: an OCaml type variable. */
  function TypeVar(c: char): string
  {
    ['\'', c]
  }

  /**
   * OCaml's syntax for the parameters of a type constructor: a single variable stands alone,
   * several are parenthesised and separated by `, `.
   */
  function OCamlParams(vars: seq<char>): (r: string)
    requires |vars| > 0
  {
    if |vars| == 1 then TypeVar(vars[0])
    else "(" + Join(seq(|vars|, i requires 0 <= i < |vars| => TypeVar(vars[i])), ", ") + ")"
  }

  /** `params_string`. */
  function ParamsString(p: TypeParams): (r: string)
    ensures |r| == (if p.P1? then 2 else 4 * ParamsCount(p))
    ensures r[0] == (if p.P1? then '\'' else '(')
  {
    match p
    case P1(c) => "'" + [c]
    case P2(c1, c2) => "('" + [c1] + ", '" + [c2] + ")"
    case P3(c1, c2, c3) => "('" + [c1] + ", '" + [c2] + ", '" + [c3] + ")"
  }

  /** `params_count`. */
  function ParamsCount(p: TypeParams): (r: nat)
    ensures r == |Vars(p)|
  {
    match p
    case P1(_) => 1
    case P2(_, _) => 2
    case P3(_, _, _) => 3
  }

  /** `params_string` is OCaml's parameter syntax over exactly `params_count` variables. */
  lemma ParamsStringIsOCamlSyntax(p: TypeParams)
    ensures ParamsString(p) == OCamlParams(Vars(p))
    ensures ParamsCount(p) == |Vars(p)|
  {
    match p
    case P1(c) =>
    case P2(c1, c2) => OCamlParamsTwo(c1, c2);
    case P3(c1, c2, c3) => OCamlParamsThree(c1, c2, c3);
  }

  lemma OCamlParamsTwo(x: char, y: char)
    ensures OCamlParams([x, y]) == "('" + [x] + ", '" + [y] + ")"
  {
    var vs := [x, y];
    var quoted := seq(|vs|, i requires 0 <= i < |vs| => TypeVar(vs[i]));
    assert quoted == [TypeVar(x), TypeVar(y)];
    assert quoted[1..] == [TypeVar(y)];
    assert Join(quoted, ", ") == TypeVar(x) + ", " + TypeVar(y);
  }

  lemma OCamlParamsThree(x: char, y: char, z: char)
    ensures OCamlParams([x, y, z]) == "('" + [x] + ", '" + [y] + ", '" + [z] + ")"
  {
    var vs := [x, y, z];
    var quoted := seq(|vs|, i requires 0 <= i < |vs| => TypeVar(vs[i]));
    assert quoted == [TypeVar(x), TypeVar(y), TypeVar(z)];
    JoinThree(TypeVar(x), TypeVar(y), TypeVar(z), ", ");
  }

  /** How often `c` occurs in `s`. */
  function Count(s: string, c: char): (n: nat)
    ensures n <= |s|
  {
    if s == [] then 0 else (if s[0] == c then 1 else 0) + Count(s[1..], c)
  }

  lemma {:induction false} CountAppend(a: string, b: string, c: char)
    ensures Count(a + b, c) == Count(a, c) + Count(b, c)
  {
    if a != [] {
      assert (a + b)[0] == a[0];
      assert (a + b)[1..] == a[1..] + b;
      assert Count(a + b, c) == (if a[0] == c then 1 else 0) + Count(a[1..] + b, c);
      CountAppend(a[1..], b, c);
    } else {
      assert a + b == b;
    }
  }

  /** With variable letters other than `'`, the printed list holds one quote per parameter. */
  lemma ParamsQuotes(p: TypeParams)
    requires forall i :: 0 <= i < |Vars(p)| ==> Vars(p)[i] != '\''
    ensures Count(ParamsString(p), '\'') == ParamsCount(p)
  {
    match p
    case P1(c) =>
      assert Vars(p)[0] == c;
      CountAppend("'", [c], '\'');
    case P2(c1, c2) =>
      assert Vars(p)[0] == c1 && Vars(p)[1] == c2;
      QuotesTwo(c1, c2);
    case P3(c1, c2, c3) =>
      assert Vars(p)[0] == c1 && Vars(p)[1] == c2 && Vars(p)[2] == c3;
      QuotesThree(c1, c2, c3);
  }

  lemma QuotesTwo(c1: char, c2: char)
    requires c1 != '\'' && c2 != '\''
    ensures Count("('" + [c1] + ", '" + [c2] + ")", '\'') == 2
  {
    CountAppend("('" + [c1] + ", '" + [c2], ")", '\'');
    QuotesTwoPrefix(c1, c2);
  }

  lemma QuotesThree(c1: char, c2: char, c3: char)
    requires c1 != '\'' && c2 != '\'' && c3 != '\''
    ensures Count("('" + [c1] + ", '" + [c2] + ", '" + [c3] + ")", '\'') == 3
  {
    var q := '\'';
    CountAppend("('" + [c1] + ", '" + [c2] + ", '" + [c3], ")", q);
    CountAppend("('" + [c1] + ", '" + [c2] + ", '", [c3], q);
    CountAppend("('" + [c1] + ", '" + [c2], ", '", q);
    QuotesTwoPrefix(c1, c2);
  }

  lemma QuotesTwoPrefix(c1: char, c2: char)
    requires c1 != '\'' && c2 != '\''
    ensures Count("('" + [c1] + ", '" + [c2], '\'') == 2
  {
    var q := '\'';
    CountAppend("('" + [c1] + ", '", [c2], q);
    CountAppend("('" + [c1], ", '", q);
    CountAppend("('", [c1], q);
  }

  /** The parameter lists the bindings use: `'c`, `('a, 'b)` and `('a, 'b, 'c)`. */
  lemma ParamsExamples()
    ensures ParamsString(P1('c')) == "'c" && ParamsCount(P1('c')) == 1
    ensures ParamsString(P2('a', 'b')) == "('a, 'b)" && ParamsCount(P2('a', 'b')) == 2
    ensures ParamsString(P3('a', 'b', 'c')) == "('a, 'b, 'c)" && ParamsCount(P3('a', 'b', 'c')) == 3
  {
  }

  // ---------------------------------------------------------------------------------------------
  // `WithTypeParams`: its description and its bindings.

  /** What `OCamlDesc` gives for a type: its description and its unique id. */
  datatype Described = Described(desc: string, uniqueId: int)

  /** `WithTypeParams::<P, T>`'s `ocaml_desc` and `unique_id`, from T's. */
  function WithParamsDescribed(p: TypeParams, inner: Described): (r: Described)
    ensures r.uniqueId == inner.uniqueId
    ensures |r.desc| == |ParamsString(p)| + |inner.desc| + 3
    ensures r.desc[0] == '(' && r.desc[|r.desc| - 1] == ')'
    ensures r.desc[1..|ParamsString(p)| + 1] == ParamsString(p) && r.desc[|ParamsString(p)| + 1] == ' '
    ensures r.desc[|ParamsString(p)| + 2..|r.desc| - 1] == inner.desc
  {
    var ps := ParamsString(p);
    var d := "(" + ps + " " + inner.desc + ")";
    assert d[1..|ps| + 1] == ps;
    assert d[|ps| + 2..|d| - 1] == inner.desc;
    Described(d, inner.uniqueId)
  }

  const TypeNonrec := "type nonrec "
  const NoTypeNonrec := "Could not find 'type nonrec' in the input string"
  const MissingRename := "bug in `ocaml_gen`: rename should be `Some`"

  /** The declaration with `params` and a space spliced in right after the first `type nonrec `. */
  function WithParamsInserted(input: string, params: string): (r: Result<string, string>)
    ensures r.Err? <==> forall j :: 0 <= j <= |input| ==> !OccursAt(input, TypeNonrec, j)
    ensures r.Err? ==> r.error == NoTypeNonrec
    ensures r.Ok? ==> var k := Find(input, TypeNonrec).value + |TypeNonrec|;
                      k <= |input| && r.value == input[..k] + params + " " + input[k..]
  {
    match Find(input, TypeNonrec)
    case None => Err(NoTypeNonrec)
    case Some(i) =>
      var k := i + |TypeNonrec|;
      Ok(input[..k] + params + " " + input[k..])
  }

  /** `insert_type_params`, building the result piece by piece. */
  method InsertTypeParams(input: string, params: string) returns (r: Result<string, string>)
    ensures r == WithParamsInserted(input, params)
  {
    var found := Find(input, TypeNonrec);
    if found.Some? {
      var insertAt := found.value + |TypeNonrec|;
      var result := input[..insertAt];
      result := result + params;
      result := result + [' '];
      result := result + input[insertAt..];
      r := Ok(result);
    } else {
      r := Err(NoTypeNonrec);
    }
  }

  /** The splice adds exactly the parameters and one space, and removing them gives the input back. */
  lemma InsertedRemovable(input: string, params: string)
    requires WithParamsInserted(input, params).Ok?
    ensures var out := WithParamsInserted(input, params).value;
            var k := Find(input, TypeNonrec).value + |TypeNonrec|;
            |out| == |input| + |params| + 1
            && out[..k] == input[..k] && out[k..k + |params|] == params && out[k + |params|] == ' '
            && out[..k] + out[k + |params| + 1..] == input
  {
    var out := WithParamsInserted(input, params).value;
    var k := Find(input, TypeNonrec).value + |TypeNonrec|;
    assert out == input[..k] + params + " " + input[k..];
    assert out[..k] == input[..k];
    assert out[k + |params| + 1..] == input[k..];
    assert input[..k] + input[k..] == input;
  }

  /**
   * The first `type nonrec ` of the result is that of the input: the spliced text comes after
   * it, so parameters can be inserted again in front of the ones already there.
   */
  lemma InsertedKeepsAnchor(input: string, params: string)
    requires WithParamsInserted(input, params).Ok?
    ensures Find(WithParamsInserted(input, params).value, TypeNonrec) == Find(input, TypeNonrec)
  {
    var out := WithParamsInserted(input, params).value;
    var i := Find(input, TypeNonrec).value;
    var k := i + |TypeNonrec|;
    assert out[..k] == input[..k];
    assert OccursAt(out, TypeNonrec, i) by {
      assert out[i..k] == input[i..k];
    }
    forall j | 0 <= j < i
      ensures !OccursAt(out, TypeNonrec, j)
    {
      assert out[j..j + |TypeNonrec|] == input[j..j + |TypeNonrec|];
      assert !OccursAt(input, TypeNonrec, j);
    }
    FindFirst(out, TypeNonrec, i);
  }

  /** A leftmost occurrence is what `Find` returns. */
  lemma FindFirst(s: string, pat: string, i: nat)
    requires OccursAt(s, pat, i) && forall j :: 0 <= j < i ==> !OccursAt(s, pat, j)
    ensures Find(s, pat) == Some(i)
  {
  }

  /**
   * `WithTypeParams::ocaml_binding`. For a new type, T's own declaration (`declaration`) gets
   * the parameters spliced in, and a declaration without `type nonrec ` panics. For an alias,
   * the declaration `type nonrec P N = P D` is produced, where D is the wrapper's description.
   */
  function WithParamsBinding(p: TypeParams, inner: Described, declaration: string,
                             rename: Option<string>, newType: bool): (r: Result<string, string>)
    ensures newType ==> r == WithParamsInserted(declaration, ParamsString(p))
    ensures !newType ==> (r.Err? <==> rename.None?)
    ensures !newType && rename.None? ==> r.error == MissingRename
  {
    if newType then WithParamsInserted(declaration, ParamsString(p))
    else if rename.None? then Err(MissingRename)
    else
      var ps := ParamsString(p);
      Ok(TypeNonrec + ps + " " + rename.value + " = " + ps + " " + WithParamsDescribed(p, inner).desc)
  }

  /** The alias declaration names the alias with its parameters, then the parameterised wrapper. */
  lemma AliasBindingText(p: TypeParams, inner: Described, declaration: string, name: string)
    ensures var ps := ParamsString(p);
            WithParamsBinding(p, inner, declaration, Some(name), false)
              == Ok(TypeNonrec + ps + " " + name + " = " + ps + " (" + ps + " " + inner.desc + ")")
  {
    var ps := ParamsString(p);
    var head := TypeNonrec + ps + " " + name + " = " + ps;
    var d := WithParamsDescribed(p, inner).desc;
    assert d == "(" + ps + " " + inner.desc + ")";
    assert head + " " + d == head + " (" + ps + " " + inner.desc + ")";
  }

  // ---------------------------------------------------------------------------------------------
  // `stubs_gen_main`: which plugins run and what is written.

  /** A registered plugin: its crate and what running its generator gives (text, or a panic). */
  datatype Plugin = Plugin(crateName: string, output: Result<string, string>)

  /** A written file: its name and its contents. */
  datatype Written = Written(fileName: string, contents: string)

  /** The plugin runs when no crate is named on the command line or its crate is. */
  predicate Selected(args: seq<string>, crateName: string)
  {
    |args| == 0 || crateName in args
  }

  /** The file name: `-` becomes `_`, the first character is uppercased, `.ml` is appended. */
  function MlFileName(crateName: string): (r: string)
    ensures |r| == |crateName| + 3 && r[|crateName|..] == ".ml"
    ensures forall i :: 0 < i < |crateName| ==>
              r[i] == if crateName[i] == '-' then '_' else crateName[i]
    ensures crateName != [] ==> r[0] == if crateName[0] == '-' then '_' else ToUpper(crateName[0])
  {
    var replaced := ReplaceChar(crateName, '-', '_');
    var stem := if replaced == [] then [] else [ToUpper(replaced[0])] + replaced[1..];
    stem + ".ml"
  }

  /**
   * The file names of two crates whose names are ASCII lowercase apart from `-` and `_`
   * coincide exactly when their names agree up to `-` versus `_`: one file per crate is written
   * only when no two such names differ in that way alone.
   */
  lemma MlFileNameCollision(a: string, b: string)
    requires |a| > 0 && |b| > 0 && IsLower(a[0]) && IsLower(b[0])
    ensures MlFileName(a) == MlFileName(b) <==> ReplaceChar(a, '-', '_') == ReplaceChar(b, '-', '_')
  {
    var ra := ReplaceChar(a, '-', '_');
    var rb := ReplaceChar(b, '-', '_');
    if MlFileName(a) == MlFileName(b) {
      assert |a| == |b|;
      forall i | 0 <= i < |a|
        ensures ra[i] == rb[i]
      {
        if i == 0 {
          LowerUpper(a[0]);
          LowerUpper(b[0]);
        } else {
          assert MlFileName(a)[i] == MlFileName(b)[i];
        }
      }
    }
  }

  /** Uppercasing is undone by lowercasing on ASCII lowercase letters. */
  lemma LowerUpper(c: char)
    requires IsLower(c)
    ensures ToLower(ToUpper(c)) == c
  {
  }

  /** The plugins that run, in the order of the given plugin sequence. */
  function SelectedPlugins(plugins: seq<Plugin>, args: seq<string>): (r: seq<Plugin>)
    ensures |r| <= |plugins|
    ensures forall q :: q in r ==> q in plugins && Selected(args, q.crateName)
    ensures forall q :: q in plugins && Selected(args, q.crateName) ==> q in r
  {
    if plugins == [] then []
    else
      var rest := SelectedPlugins(plugins[1..], args);
      assert forall q :: q in plugins[1..] ==> q in plugins;
      if Selected(args, plugins[0].crateName) then [plugins[0]] + rest else rest
  }

  /** Every plugin runs when no crate is named. */
  lemma {:induction false} AllSelectedWithoutArgs(plugins: seq<Plugin>)
    ensures SelectedPlugins(plugins, []) == plugins
  {
    if plugins != [] {
      AllSelectedWithoutArgs(plugins[1..]);
      assert [plugins[0]] + plugins[1..] == plugins;
    }
  }

  function FailureMessage(crateName: string): string
  {
    "plugin from crate `" + crateName + "' failed: Any { .. }"
  }

  /**
   * What `stubs_gen_main` writes: one file per selected plugin, in order, until a selected
   * plugin's generator panics, which ends the run with an error naming its crate.
   */
  function StubsOutcome(plugins: seq<Plugin>, args: seq<string>): (r: Result<seq<Written>, string>)
    ensures r.Ok? ==> |r.value| <= |plugins|
    ensures r.Err? ==> SomeFails(plugins)
  {
    if plugins == [] then Ok([])
    else
      SomeFailsCons(plugins[0], plugins[1..]);
      assert [plugins[0]] + plugins[1..] == plugins;
      if !Selected(args, plugins[0].crateName) then StubsOutcome(plugins[1..], args)
      else if plugins[0].output.Err? then Err(FailureMessage(plugins[0].crateName))
      else
        var rest :- StubsOutcome(plugins[1..], args);
        Ok([Written(MlFileName(plugins[0].crateName), plugins[0].output.value)] + rest)
  }

  /** Some plugin of `ps` panics. */
  predicate SomeFails(ps: seq<Plugin>)
  {
    exists i :: 0 <= i < |ps| && ps[i].output.Err?
  }

  lemma SomeFailsCons(p: Plugin, rest: seq<Plugin>)
    ensures SomeFails([p] + rest) <==> p.output.Err? || SomeFails(rest)
  {
    var ps := [p] + rest;
    if SomeFails(ps) && p.output.Ok? {
      var i :| 0 <= i < |ps| && ps[i].output.Err?;
      assert rest[i - 1].output.Err?;
    }
    if SomeFails(rest) {
      var i :| 0 <= i < |rest| && rest[i].output.Err?;
      assert ps[i + 1].output.Err?;
    }
    if p.output.Err? {
      assert ps[0].output.Err?;
    }
  }

  /** The run fails iff one of the selected plugins panics. */
  lemma {:induction false} StubsOutcomeFails(plugins: seq<Plugin>, args: seq<string>)
    ensures StubsOutcome(plugins, args).Err? <==> SomeFails(SelectedPlugins(plugins, args))
  {
    if plugins != [] {
      StubsOutcomeFails(plugins[1..], args);
      var rest := SelectedPlugins(plugins[1..], args);
      if Selected(args, plugins[0].crateName) {
        assert SelectedPlugins(plugins, args) == [plugins[0]] + rest;
        SomeFailsCons(plugins[0], rest);
      }
    }
  }

  /** A successful run writes one file per selected plugin, named after its crate, in order. */
  lemma {:induction false} StubsOutcomeFiles(plugins: seq<Plugin>, args: seq<string>)
    requires StubsOutcome(plugins, args).Ok?
    ensures var sel := SelectedPlugins(plugins, args);
            var files := StubsOutcome(plugins, args).value;
            |files| == |sel|
            && forall i :: 0 <= i < |sel| ==>
                 sel[i].output.Ok? && files[i] == Written(MlFileName(sel[i].crateName), sel[i].output.value)
  {
    if plugins != [] {
      StubsOutcomeFiles(plugins[1..], args);
      var sel := SelectedPlugins(plugins, args);
      var rest := SelectedPlugins(plugins[1..], args);
      if Selected(args, plugins[0].crateName) {
        assert sel == [plugins[0]] + rest;
        WrittenCons(plugins[0], rest, StubsOutcome(plugins[1..], args).value);
      } else {
        assert sel == rest;
      }
    }
  }

  /** One more written file in front keeps the files in step with the plugins that made them. */
  lemma WrittenCons(p: Plugin, rest: seq<Plugin>, tail: seq<Written>)
    requires p.output.Ok?
    requires |tail| == |rest| && forall i :: 0 <= i < |rest| ==>
               rest[i].output.Ok? && tail[i] == Written(MlFileName(rest[i].crateName), rest[i].output.value)
    ensures var sel := [p] + rest;
            var files := [Written(MlFileName(p.crateName), p.output.value)] + tail;
            |files| == |sel|
            && forall i :: 0 <= i < |sel| ==>
                 sel[i].output.Ok? && files[i] == Written(MlFileName(sel[i].crateName), sel[i].output.value)
  {
    var sel := [p] + rest;
    var files := [Written(MlFileName(p.crateName), p.output.value)] + tail;
    assert forall i :: 0 < i < |sel| ==> sel[i] == rest[i - 1] && files[i] == tail[i - 1];
  }

  /** A failed run names the first selected plugin that panicked. */
  lemma {:induction false} StubsOutcomeError(plugins: seq<Plugin>, args: seq<string>)
    requires StubsOutcome(plugins, args).Err?
    ensures exists i :: 0 <= i < |plugins| && Selected(args, plugins[i].crateName) && plugins[i].output.Err?
                        && StubsOutcome(plugins, args).error == FailureMessage(plugins[i].crateName)
                        && StubsOutcome(plugins[..i], args).Ok?
  {
    if Selected(args, plugins[0].crateName) && plugins[0].output.Err? {
      assert plugins[..0] == [];
    } else {
      StubsOutcomeError(plugins[1..], args);
      var i :| 0 <= i < |plugins[1..]| && Selected(args, plugins[1..][i].crateName) && plugins[1..][i].output.Err?
               && StubsOutcome(plugins[1..], args).error == FailureMessage(plugins[1..][i].crateName)
               && StubsOutcome(plugins[1..][..i], args).Ok?;
      assert plugins[..i + 1][1..] == plugins[1..][..i];
      assert plugins[i + 1] == plugins[1..][i];
    }
  }

  /** The generation loop of `stubs_gen_main`. */
  method StubsGenMain(plugins: seq<Plugin>, args: seq<string>) returns (r: Result<seq<Written>, string>)
    ensures r == StubsOutcome(plugins, args)
  {
    var written: seq<Written> := [];
    var n := 0;
    PrependNothing(StubsOutcome(plugins, args));
    while n < |plugins|
      invariant 0 <= n <= |plugins|
      invariant StubsOutcome(plugins, args) == Prepend(written, StubsOutcome(plugins[n..], args))
    {
      var plugin := plugins[n];
      assert plugins[n..][1..] == plugins[n + 1..];
      if Selected(args, plugin.crateName) {
        if plugin.output.Err? {
          return Err(FailureMessage(plugin.crateName));
        }
        PrependAppend(written, Written(MlFileName(plugin.crateName), plugin.output.value),
                      StubsOutcome(plugins[n + 1..], args));
        written := written + [Written(MlFileName(plugin.crateName), plugin.output.value)];
      }
      n := n + 1;
    }
    assert plugins[n..] == [];
    assert written + [] == written;
    r := Ok(written);
  }

  /** The files already written in front of the outcome of the rest. */
  function Prepend(done: seq<Written>, rest: Result<seq<Written>, string>): Result<seq<Written>, string>
  {
    if rest.Err? then rest else Ok(done + rest.value)
  }

  lemma PrependAppend(done: seq<Written>, w: Written, rest: Result<seq<Written>, string>)
    ensures Prepend(done, Prepend([w], rest)) == Prepend(done + [w], rest)
  {
    if rest.Ok? {
      assert done + ([w] + rest.value) == done + [w] + rest.value;
    }
  }

  lemma PrependNothing(rest: Result<seq<Written>, string>)
    ensures Prepend([], rest) == rest
  {
    if rest.Ok? {
      assert [] + rest.value == rest.value;
    }
  }
}
