/**
 * The registration plans the macro crate's own generation tests pin down, restated as lemmas
 * about `TypePlan` (crate `this_crate`, type `crate::test_types::MyType`).
 */
module MacroTests {
  import opened Text
  import opened MacroPaths
  import opened Combinations
  import opened Generate

  const MyType := Path(false, ["crate", "test_types", "MyType"])
  const Send := Path(false, ["core", "marker", "Send"])
  const Sync := Path(false, ["core", "marker", "Sync"])
  const StdError := Path(false, ["std", "error", "Error"])
  const Marker1 := TestTypePath("MyMarkerTrait1")
  const Marker2 := TestTypePath("MyMarkerTrait2")
  const Trait1 := TestTypePath("MyObjectSafeTrait1")
  const Trait2 := TestTypePath("MyObjectSafeTrait2")

  /** `crate::test_types::x` */
  function TestTypePath(x: string): Path
  {
    Path(false, ["crate", "test_types", x])
  }

  /** `this_crate::test_types::x` */
  function TestTypeFq(x: string): string
  {
    "this_crate::test_types::" + x
  }

  /** The path with a leading `::`, as `globalize_path` leaves a path not rooted at `crate`. */
  function Global(p: Path): Path
  {
    p.(leadingColon := true)
  }

  /** `crate` resolves to the crate name; other paths keep their segments. */
  lemma MyTypeName()
    ensures FqName(MyType, "this_crate") == "this_crate::test_types::MyType"
  {
    assert ResolvePath(MyType, "this_crate").segments == ["this_crate", "test_types", "MyType"];
    JoinThree("this_crate", "test_types", "MyType", "::");
    assert "this_crate" + "::" + "test_types" + "::" + "MyType" == "this_crate::test_types::MyType";
  }

  lemma SendName()
    ensures FqName(Send, "this_crate") == "core::marker::Send"
  {
    JoinThree("core", "marker", "Send", "::");
    assert "core" + "::" + "marker" + "::" + "Send" == "core::marker::Send";
  }

  lemma SyncName()
    ensures FqName(Sync, "this_crate") == "core::marker::Sync"
  {
    JoinThree("core", "marker", "Sync", "::");
    assert "core" + "::" + "marker" + "::" + "Sync" == "core::marker::Sync";
  }

  lemma StdErrorName()
    ensures FqName(StdError, "this_crate") == "std::error::Error"
  {
    JoinThree("std", "error", "Error", "::");
    assert "std" + "::" + "error" + "::" + "Error" == "std::error::Error";
  }

  /**
   * `register_type!` for `MyType` with markers [Send, Sync] and the single trait `std::error::Error`:
   * the three header calls, then the bare trait, the empty combination (the bare trait again),
   * `+ Send`, `+ Sync` and `+ Send + Sync`.
   */
  lemma GlobalPlan()
    ensures TypePlan(MyType, [Send, Sync], [StdError], "this_crate") ==
            [RegisterTypeCall(PathTy(MyType)),
             RegisterTypeInfoCall(PathTy(MyType), "this_crate::test_types::MyType",
               ["this_crate::test_types::MyType", "core::marker::Send", "core::marker::Sync", "std::error::Error"]),
             RegisterCall(PathTy(MyType), PathTy(MyType)),
             RegisterCall(PathTy(MyType), DynTy(Global(StdError), [])),
             RegisterCall(PathTy(MyType), DynTy(Global(StdError), [])),
             RegisterCall(PathTy(MyType), DynTy(Global(StdError), [Global(Send)])),
             RegisterCall(PathTy(MyType), DynTy(Global(StdError), [Global(Sync)])),
             RegisterCall(PathTy(MyType), DynTy(Global(StdError), [Global(Send), Global(Sync)]))]
  {
    var t := PathTy(MyType);
    var e := Global(StdError);
    var combos := Subsets([Global(Send), Global(Sync)]);
    GlobalPlanParts();
    assert AllTraitCalls(t, [e], combos) == TraitCalls(t, e, combos) by {
      assert [e][..0] == [];
    }
    TwoMarkerTraitCalls(t, e, Global(Send), Global(Sync));
  }

  /** The parts of the `MyType` plan over the global markers: every path globalized, every name resolved. */
  lemma GlobalPlanParts()
    ensures TypePlan(MyType, [Send, Sync], [StdError], "this_crate")
         == TypeRegistration(PathTy(MyType), "this_crate::test_types::MyType",
              ["this_crate::test_types::MyType", "core::marker::Send", "core::marker::Sync", "std::error::Error"],
              [Global(StdError)], Subsets([Global(Send), Global(Sync)]))
  {
    var markers := Globalized([Send, Sync]);
    assert markers == [Global(Send), Global(Sync)];
    var traits := Globalized([StdError]);
    assert traits == [Global(StdError)];
    MyTypeName();
    SendName();
    SyncName();
    StdErrorName();
    ResolveGlobalized(Send, "this_crate");
    ResolveGlobalized(Sync, "this_crate");
    ResolveGlobalized(StdError, "this_crate");
    assert FqNames(markers, "this_crate") == ["core::marker::Send", "core::marker::Sync"];
    assert FqNames(traits, "this_crate") == ["std::error::Error"];
    assert GlobalizePath(MyType) == MyType;
    assert TypeImpls(MyType, [Send, Sync], [StdError], "this_crate") ==
           ["this_crate::test_types::MyType", "core::marker::Send", "core::marker::Sync", "std::error::Error"];
  }

  /** A `crate::test_types::X` path resolves to `this_crate::test_types::X`. */
  lemma TestTypeName(x: string)
    ensures FqName(TestTypePath(x), "this_crate") == TestTypeFq(x)
  {
    var p := TestTypePath(x);
    assert ResolvePath(p, "this_crate").segments == ["this_crate", "test_types", x];
    JoinThree("this_crate", "test_types", x, "::");
    assert "this_crate" + "::" + "test_types" + "::" + x == "this_crate::test_types::" + x;
  }

  /** The per-trait calls for one trait and the markers [M1, M2]. */
  lemma TwoMarkerTraitCalls(t: Ty, tr: Path, m1: Path, m2: Path)
    ensures TraitCalls(t, tr, Subsets([m1, m2])) ==
            [RegisterCall(t, DynTy(tr, [])), RegisterCall(t, DynTy(tr, [])), RegisterCall(t, DynTy(tr, [m1])),
             RegisterCall(t, DynTy(tr, [m2])), RegisterCall(t, DynTy(tr, [m1, m2]))]
  {
    TwoMarkers(m1, m2);
  }

  /**
   * `register_type!` for `MyType` with crate-local markers [M1, M2] and traits [T1, T2]: every
   * path stays `crate`-rooted in the code, the names resolve to `this_crate`, and the traits'
   * blocks follow in input order.
   */
  lemma CratePlan()
    ensures TypePlan(MyType, [Marker1, Marker2], [Trait1, Trait2], "this_crate") ==
            [RegisterTypeCall(PathTy(MyType)),
             RegisterTypeInfoCall(PathTy(MyType), "this_crate::test_types::MyType",
               ["this_crate::test_types::MyType",
                TestTypeFq("MyMarkerTrait1"), TestTypeFq("MyMarkerTrait2"),
                TestTypeFq("MyObjectSafeTrait1"), TestTypeFq("MyObjectSafeTrait2")]),
             RegisterCall(PathTy(MyType), PathTy(MyType)),
             RegisterCall(PathTy(MyType), DynTy(Trait1, [])),
             RegisterCall(PathTy(MyType), DynTy(Trait1, [])),
             RegisterCall(PathTy(MyType), DynTy(Trait1, [Marker1])),
             RegisterCall(PathTy(MyType), DynTy(Trait1, [Marker2])),
             RegisterCall(PathTy(MyType), DynTy(Trait1, [Marker1, Marker2])),
             RegisterCall(PathTy(MyType), DynTy(Trait2, [])),
             RegisterCall(PathTy(MyType), DynTy(Trait2, [])),
             RegisterCall(PathTy(MyType), DynTy(Trait2, [Marker1])),
             RegisterCall(PathTy(MyType), DynTy(Trait2, [Marker2])),
             RegisterCall(PathTy(MyType), DynTy(Trait2, [Marker1, Marker2]))]
  {
    var t := PathTy(MyType);
    var combos := Subsets([Marker1, Marker2]);
    CratePlanParts();
    TwoTraitCalls(t, Trait1, Trait2, combos);
    TwoMarkerTraitCalls(t, Trait1, Marker1, Marker2);
    TwoMarkerTraitCalls(t, Trait2, Marker1, Marker2);
  }

  /** The parts of the `MyType` plan over crate-local paths: nothing to globalize, names under `this_crate`. */
  lemma CratePlanParts()
    ensures TypePlan(MyType, [Marker1, Marker2], [Trait1, Trait2], "this_crate")
         == TypeRegistration(PathTy(MyType), "this_crate::test_types::MyType",
              ["this_crate::test_types::MyType",
               TestTypeFq("MyMarkerTrait1"), TestTypeFq("MyMarkerTrait2"),
               TestTypeFq("MyObjectSafeTrait1"), TestTypeFq("MyObjectSafeTrait2")],
              [Trait1, Trait2], Subsets([Marker1, Marker2]))
  {
    var impls := ["this_crate::test_types::MyType",
                  TestTypeFq("MyMarkerTrait1"), TestTypeFq("MyMarkerTrait2"),
                  TestTypeFq("MyObjectSafeTrait1"), TestTypeFq("MyObjectSafeTrait2")];
    assert Globalized([Marker1, Marker2]) == [Marker1, Marker2];
    assert Globalized([Trait1, Trait2]) == [Trait1, Trait2];
    assert GlobalizePath(MyType) == MyType;
    MyTypeName();
    TestTypeName("MyMarkerTrait1");
    TestTypeName("MyMarkerTrait2");
    TestTypeName("MyObjectSafeTrait1");
    TestTypeName("MyObjectSafeTrait2");
    assert FqNames([Marker1, Marker2], "this_crate") == [TestTypeFq("MyMarkerTrait1"), TestTypeFq("MyMarkerTrait2")];
    assert FqNames([Trait1, Trait2], "this_crate") == [TestTypeFq("MyObjectSafeTrait1"), TestTypeFq("MyObjectSafeTrait2")];
    assert TypeImpls(MyType, [Marker1, Marker2], [Trait1, Trait2], "this_crate") == impls;
    assert FqName(GlobalizePath(MyType), "this_crate") == "this_crate::test_types::MyType";
  }

  /** With two traits, the per-trait part is the first trait's block followed by the second's. */
  lemma TwoTraitCalls(t: Ty, tr1: Path, tr2: Path, combos: seq<seq<Path>>)
    ensures AllTraitCalls(t, [tr1, tr2], combos) == TraitCalls(t, tr1, combos) + TraitCalls(t, tr2, combos)
  {
    assert [tr1, tr2][..1] == [tr1] && [tr1][..0] == [];
    assert AllTraitCalls(t, [tr1], combos) == TraitCalls(t, tr1, combos);
  }
}
