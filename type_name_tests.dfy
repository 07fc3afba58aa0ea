/** The polymorphic-variant tags of the documented OCaml bindings, derived from the name rules. */
module TypeNameTests {
  import opened Wrappers
  import opened Text
  import opened TypeNames

  /** The tag of `a::b::c` when the three segments are distinct, from each segment's snake case. */
  lemma TagOfThree(s: string, a: string, b: string, c: string)
    requires s == a + "::" + b + "::" + c
    requires SegmentText(a) && SegmentText(b) && SegmentText(c) && c != a && c != b
    ensures SnakeCaseOfFullyQualifiedName(s) ==
            Ok(CapitalizeFirstLetter(ConvertToSnakeCase(a) + "_" + ConvertToSnakeCase(b) + "_" + ConvertToSnakeCase(c)))
  {
    var segs := [a, b, c];
    JoinThree(a, b, c, "::");
    assert segs[..2] == [a, b];
    TagOfJoined(segs);
    assert SnakeAll(segs) == [ConvertToSnakeCase(a), ConvertToSnakeCase(b), ConvertToSnakeCase(c)];
    JoinThree(ConvertToSnakeCase(a), ConvertToSnakeCase(b), ConvertToSnakeCase(c), "_");
  }

  lemma CapitalizeWord(x: char, tail: string)
    ensures CapitalizeFirstLetter([x] + tail) == [ToUpper(x)] + tail
  {
    assert ([x] + tail)[1..] == tail;
  }

  /** `a::b::c` with `a` and `b` free of uppercase letters: only `c` is rewritten, then the first letter is capitalised. */
  lemma TagOfLowerPrefix(s: string, a0: char, a: string, b: string, c: string, c': string, tag: string)
    requires s == [a0] + a + "::" + b + "::" + c
    requires SegmentText([a0] + a) && SegmentText(b) && SegmentText(c) && c != [a0] + a && c != b
    requires NoUpper([a0] + a) && NoUpper(b) && ConvertToSnakeCase(c) == c'
    requires tag == [ToUpper(a0)] + (a + "_" + b + "_" + c')
    ensures SnakeCaseOfFullyQualifiedName(s) == Ok(tag)
  {
    TagOfThree(s, [a0] + a, b, c);
    LowerJoin(a0, a, b, c, c');
    CapitalizeWord(a0, a + "_" + b + "_" + c');
  }

  lemma LowerJoin(a0: char, a: string, b: string, c: string, c': string)
    requires NoUpper([a0] + a) && NoUpper(b) && ConvertToSnakeCase(c) == c'
    ensures ConvertToSnakeCase([a0] + a) + "_" + ConvertToSnakeCase(b) + "_" + ConvertToSnakeCase(c)
         == [a0] + (a + "_" + b + "_" + c')
  {
    SnakeOfLower([a0] + a);
    SnakeOfLower(b);
  }

  lemma SendSnake(c: string)
    requires c == "Send"
    ensures ConvertToSnakeCase(c) == "send"
  {
    assert c == ['S'] + "end";
    SnakeCapitalised('S', "end");
    assert ToLower('S') == 's';
  }

  lemma SendPieces(s: string, a: string, b: string, c: string)
    requires s == "core::marker::Send"
    requires a == "ore" && b == "marker" && c == "Send"
    ensures s == ['c'] + a + "::" + b + "::" + c
    ensures SegmentText(['c'] + a) && SegmentText(b) && SegmentText(c) && c != ['c'] + a && c != b
    ensures NoUpper(['c'] + a) && NoUpper(b)
  {
    assert c[0] != (['c'] + a)[0];
  }

  lemma SendTagText(t: string, a: string, b: string, c': string)
    requires a == "ore" && b == "marker" && c' == "send"
    requires t == "Core_marker_send"
    ensures t == [ToUpper('c')] + (a + "_" + b + "_" + c')
  {
    assert ToUpper('c') == 'C';
  }

  /** `core::marker::Send` is tagged `Core_marker_send`. */
  lemma SendTag(s: string)
    requires s == "core::marker::Send"
    ensures SnakeCaseOfFullyQualifiedName(s) == Ok("Core_marker_send")
  {
    var a, b, c, c', t := "ore", "marker", "Send", "send", "Core_marker_send";
    SendPieces(s, a, b, c);
    SendSnake(c);
    SendTagText(t, a, b, c');
    TagOfLowerPrefix(s, 'c', a, b, c, c', t);
  }

  lemma AnimalProxySnake(c: string)
    requires c == "AnimalProxy"
    ensures ConvertToSnakeCase(c) == "animal_proxy"
  {
    assert c == ['A'] + "nimal" + ['P'] + "roxy";
    SnakeCamelPair('A', "nimal", 'P', "roxy");
    assert ToLower('A') == 'a' && ToLower('P') == 'p';
  }

  lemma AnimalProxyPieces(s: string, a: string, b: string, c: string)
    requires s == "ocaml_rs_smartptr_test::stubs::AnimalProxy"
    requires a == "caml_rs_smartptr_test" && b == "stubs" && c == "AnimalProxy"
    ensures s == ['o'] + a + "::" + b + "::" + c
    ensures SegmentText(['o'] + a) && SegmentText(b) && SegmentText(c) && c != ['o'] + a && c != b
    ensures NoUpper(['o'] + a) && NoUpper(b)
  {
    AnimalProxySplit(s);
    AnimalProxyHead();
    AnimalProxyTail();
    Regroup(['o'], a, "::", b, "::", c);
    AnimalProxyWords(a, b, c);
    AnimalProxyLower(a, b);
  }

  lemma AnimalProxySplit(s: string)
    requires s == "ocaml_rs_smartptr_test::stubs::AnimalProxy"
    ensures s == "ocaml_rs_smartptr_test" + "::stubs::AnimalProxy"
  {
  }

  lemma AnimalProxyHead()
    ensures "ocaml_rs_smartptr_test" == ['o'] + "caml_rs_smartptr_test"
  {
  }

  lemma AnimalProxyTail()
    ensures "::stubs::AnimalProxy" == "::" + "stubs" + "::" + "AnimalProxy"
  {
  }

  lemma Regroup(x: string, a: string, b: string, c: string, d: string, e: string)
    ensures x + a + (b + c + d + e) == x + a + b + c + d + e
  {
  }

  lemma AnimalProxyWords(a: string, b: string, c: string)
    requires a == "caml_rs_smartptr_test" && b == "stubs" && c == "AnimalProxy"
    ensures SegmentText(['o'] + a) && SegmentText(b) && SegmentText(c) && c != ['o'] + a && c != b
  {
    assert c[0] != (['o'] + a)[0];
  }

  lemma AnimalProxyLower(a: string, b: string)
    requires a == "caml_rs_smartptr_test" && b == "stubs"
    ensures NoUpper(['o'] + a) && NoUpper(b)
  {
  }

  lemma AnimalProxyTagText(t: string, a: string, b: string, c': string)
    requires a == "caml_rs_smartptr_test" && b == "stubs" && c' == "animal_proxy"
    requires t == "Ocaml_rs_smartptr_test_stubs_animal_proxy"
    ensures t == [ToUpper('o')] + (a + "_" + b + "_" + c')
  {
    assert ToUpper('o') == 'O';
    AnimalProxyTagSplit(t);
    AnimalProxyTagHead();
    AnimalProxyTagTail();
    TagRegroup(['O'], a, "_", b, "_", c');
  }

  lemma AnimalProxyTagSplit(t: string)
    requires t == "Ocaml_rs_smartptr_test_stubs_animal_proxy"
    ensures t == "Ocaml_rs_smartptr_test" + "_stubs_animal_proxy"
  {
  }

  lemma AnimalProxyTagHead()
    ensures "Ocaml_rs_smartptr_test" == ['O'] + "caml_rs_smartptr_test"
  {
  }

  lemma AnimalProxyTagTail()
    ensures "_stubs_animal_proxy" == "_" + "stubs" + "_" + "animal_proxy"
  {
  }

  lemma TagRegroup(x: string, a: string, b: string, c: string, d: string, e: string)
    ensures x + a + (b + c + d + e) == x + (a + b + c + d + e)
  {
  }

  /** `ocaml_rs_smartptr_test::stubs::AnimalProxy` is tagged `Ocaml_rs_smartptr_test_stubs_animal_proxy`. */
  lemma AnimalProxyTag(s: string)
    requires s == "ocaml_rs_smartptr_test::stubs::AnimalProxy"
    ensures SnakeCaseOfFullyQualifiedName(s) == Ok("Ocaml_rs_smartptr_test_stubs_animal_proxy")
  {
    var a, b, c, c', t := "caml_rs_smartptr_test", "stubs", "AnimalProxy", "animal_proxy", "Ocaml_rs_smartptr_test_stubs_animal_proxy";
    AnimalProxyPieces(s, a, b, c);
    AnimalProxySnake(c);
    AnimalProxyTagText(t, a, b, c');
    TagOfLowerPrefix(s, 'o', a, b, c, c', t);
  }
}
