/**
 * `generate_type_registration` and `generate_trait_registration`: the ordered list of registry
 * calls a `register_type!` / `register_trait!` invocation expands to. `TypePlan` and `TraitPlan`
 * specify the lists; the methods build them with the source's loops.
 */
module Generate {
  import opened Text
  import opened MacroPaths
  import opened Combinations

  /** A type as written in generated code: a path, `dyn P + B1 + ...`, or `Box<..>`. */
  datatype Ty = PathTy(path: Path) | DynTy(principal: Path, bounds: seq<Path>) | BoxTy(inner: Ty)

  /** One emitted statement: `register_type::<ty>()`, `register_type_info::<ty>(..)` or `register::<from, to>(..)`. */
  datatype Call =
    | RegisterTypeCall(ty: Ty)
    | RegisterTypeInfoCall(ty: Ty, fqName: string, impls: seq<string>)
    | RegisterCall(from: Ty, to: Ty)

  function Globalized(ps: seq<Path>): (r: seq<Path>)
    ensures |r| == |ps| && forall i :: 0 <= i < |ps| ==> r[i] == GlobalizePath(ps[i])
  {
    seq(|ps|, i requires 0 <= i < |ps| => GlobalizePath(ps[i]))
  }

  function FqNames(ps: seq<Path>, crateName: string): (r: seq<string>)
    ensures |r| == |ps| && forall i :: 0 <= i < |ps| ==> r[i] == FqName(ps[i], crateName)
  {
    seq(|ps|, i requires 0 <= i < |ps| => FqName(ps[i], crateName))
  }

  /** The calls for one object-safe trait: the bare trait, then one per combination. */
  function TraitCalls(t: Ty, objTrait: Path, combos: seq<seq<Path>>): seq<Call>
  {
    [RegisterCall(t, DynTy(objTrait, []))]
      + seq(|combos|, i requires 0 <= i < |combos| => RegisterCall(t, DynTy(objTrait, combos[i])))
  }

  function AllTraitCalls(t: Ty, traits: seq<Path>, combos: seq<seq<Path>>): seq<Call>
    decreases |traits|
  {
    if |traits| == 0 then []
    else AllTraitCalls(t, traits[..|traits| - 1], combos) + TraitCalls(t, traits[|traits| - 1], combos)
  }

  /**
   * A type registration over already computed parts: the type `t`, its fq name, the
   * implementations list, the (globalized) object-safe traits and the marker combinations.
   */
  function TypeRegistration(t: Ty, fq: string, impls: seq<string>, traits: seq<Path>, combos: seq<seq<Path>>): seq<Call>
  {
    [RegisterTypeCall(t), RegisterTypeInfoCall(t, fq, impls), RegisterCall(t, t)] + AllTraitCalls(t, traits, combos)
  }

  /** The implementations list of a type registration: its own fq name, the markers, the traits. */
  function TypeImpls(ty: Path, markerTraits: seq<Path>, objectSafeTraits: seq<Path>, crateName: string): seq<string>
  {
    [FqName(GlobalizePath(ty), crateName)]
      + FqNames(Globalized(markerTraits), crateName) + FqNames(Globalized(objectSafeTraits), crateName)
  }

  /**
   * The calls `register_type!` expands to: a header of three calls, then one block per
   * object-safe trait holding the bare trait and each of the 2^k marker combinations.
   */
  function TypePlan(ty: Path, markerTraits: seq<Path>, objectSafeTraits: seq<Path>, crateName: string): seq<Call>
  {
    TypeRegistration(PathTy(GlobalizePath(ty)), FqName(GlobalizePath(ty), crateName),
                     TypeImpls(ty, markerTraits, objectSafeTraits, crateName),
                     Globalized(objectSafeTraits), Subsets(Globalized(markerTraits)))
  }

  /** The calls for one combination in a trait registration. */
  function ComboCalls(t: Path, fq: string, combo: seq<Path>, crateName: string): seq<Call>
  {
    var d := DynTy(t, combo);
    [RegisterTypeCall(d), RegisterTypeInfoCall(d, fq, [fq] + FqNames(combo, crateName)), RegisterCall(BoxTy(d), d)]
  }

  function AllComboCalls(t: Path, fq: string, combos: seq<seq<Path>>, crateName: string): seq<Call>
    decreases |combos|
  {
    if |combos| == 0 then []
    else AllComboCalls(t, fq, combos[..|combos| - 1], crateName) + ComboCalls(t, fq, combos[|combos| - 1], crateName)
  }

  /** A trait registration over already computed parts (`t` is the globalized trait path). */
  function TraitRegistration(t: Path, fq: string, impls: seq<string>, combos: seq<seq<Path>>, crateName: string): seq<Call>
  {
    var d := DynTy(t, []);
    [RegisterTypeCall(d), RegisterTypeInfoCall(d, fq, impls), RegisterCall(BoxTy(d), d)]
      + AllComboCalls(t, fq, combos, crateName)
  }

  /** The calls `register_trait!` expands to: a header of three calls, then three per marker combination. */
  function TraitPlan(ty: Path, markerTraits: seq<Path>, crateName: string): seq<Call>
  {
    var fq := FqName(GlobalizePath(ty), crateName);
    TraitRegistration(GlobalizePath(ty), fq, [fq] + FqNames(Globalized(markerTraits), crateName),
                      Subsets(Globalized(markerTraits)), crateName)
  }

  function RegisterCount(calls: seq<Call>): nat
    decreases |calls|
  {
    if |calls| == 0 then 0
    else RegisterCount(calls[..|calls| - 1]) + (if calls[|calls| - 1].RegisterCall? then 1 else 0)
  }

  lemma FqNamesGlobalized(ps: seq<Path>, crateName: string)
    ensures FqNames(Globalized(ps), crateName) == FqNames(ps, crateName)
  {
    forall i | 0 <= i < |ps| ensures FqNames(Globalized(ps), crateName)[i] == FqNames(ps, crateName)[i] {
      ResolveGlobalized(ps[i], crateName);
    }
  }

  /** The offset of block `n` when every block has `w` calls (`n * w`, by repeated addition). */
  function Blocks(n: nat, w: nat): nat
  {
    if n == 0 then 0 else Blocks(n - 1, w) + w
  }

  lemma {:induction false} BlocksIsProduct(n: nat, w: nat)
    ensures Blocks(n, w) == n * w
  {
    if n > 0 {
      BlocksIsProduct(n - 1, w);
      assert n * w == (n - 1) * w + w;
    }
  }

  lemma {:induction false} BlocksBelow(j: nat, n: nat, w: nat, c: nat)
    requires j < n && c < w
    ensures Blocks(j, w) + c < Blocks(n, w)
    decreases n
  {
    if j < n - 1 {
      BlocksBelow(j, n - 1, w, c);
    }
  }

  lemma {:induction false} AllTraitCallsLength(t: Ty, traits: seq<Path>, combos: seq<seq<Path>>)
    ensures |AllTraitCalls(t, traits, combos)| == Blocks(|traits|, 1 + |combos|)
    decreases |traits|
  {
    if |traits| > 0 {
      AllTraitCallsLength(t, traits[..|traits| - 1], combos);
    }
  }

  /** Inside the per-trait part, call `c` of trait `j` sits at offset `Blocks(j, 1 + |combos|) + c`. */
  lemma {:induction false} AllTraitCallsAt(t: Ty, traits: seq<Path>, combos: seq<seq<Path>>, j: nat, c: nat)
    requires j < |traits| && c <= |combos|
    ensures |AllTraitCalls(t, traits, combos)| == Blocks(|traits|, 1 + |combos|)
    ensures Blocks(j, 1 + |combos|) + c < |AllTraitCalls(t, traits, combos)|
    ensures AllTraitCalls(t, traits, combos)[Blocks(j, 1 + |combos|) + c]
              == RegisterCall(t, DynTy(traits[j], if c == 0 then [] else combos[c - 1]))
    decreases |traits|
  {
    var n := |traits| - 1;
    var w := 1 + |combos|;
    AllTraitCallsLength(t, traits, combos);
    AllTraitCallsLength(t, traits[..n], combos);
    BlocksBelow(j, |traits|, w, c);
    if j < n {
      AllTraitCallsAt(t, traits[..n], combos, j, c);
    }
  }

  lemma {:induction false} AllTraitCallsRegister(t: Ty, traits: seq<Path>, combos: seq<seq<Path>>)
    ensures RegisterCount(AllTraitCalls(t, traits, combos)) == |AllTraitCalls(t, traits, combos)|
  {
    var calls := AllTraitCalls(t, traits, combos);
    AllTraitCallsAreRegister(t, traits, combos);
    AllRegisterCount(calls);
  }

  lemma {:induction false} AllTraitCallsAreRegister(t: Ty, traits: seq<Path>, combos: seq<seq<Path>>)
    ensures forall k :: 0 <= k < |AllTraitCalls(t, traits, combos)| ==>
              AllTraitCalls(t, traits, combos)[k].RegisterCall? && AllTraitCalls(t, traits, combos)[k].from == t
    decreases |traits|
  {
    if |traits| > 0 {
      AllTraitCallsAreRegister(t, traits[..|traits| - 1], combos);
    }
  }

  lemma {:induction false} AllRegisterCount(calls: seq<Call>)
    requires forall k :: 0 <= k < |calls| ==> calls[k].RegisterCall?
    ensures RegisterCount(calls) == |calls|
    decreases |calls|
  {
    if |calls| > 0 {
      AllRegisterCount(calls[..|calls| - 1]);
    }
  }

  lemma {:induction false} RegisterCountAppend(a: seq<Call>, b: seq<Call>)
    ensures RegisterCount(a + b) == RegisterCount(a) + RegisterCount(b)
    decreases |b|
  {
    if |b| == 0 {
      assert a + b == a;
    } else {
      assert (a + b)[..|a + b| - 1] == a + b[..|b| - 1];
      RegisterCountAppend(a, b[..|b| - 1]);
    }
  }

  /**
   * The shape of a type registration: `register_type`, `register_type_info`, the self-coercion,
   * then one block of 1 + |combos| `register` calls per trait; all but the first two calls are
   * `register` calls and every one of them coerces from `t`.
   */
  lemma TypeRegistrationShape(t: Ty, fq: string, impls: seq<string>, traits: seq<Path>, combos: seq<seq<Path>>)
    ensures var r := TypeRegistration(t, fq, impls, traits, combos);
            && |r| == 3 + Blocks(|traits|, 1 + |combos|)
            && r[0] == RegisterTypeCall(t) && r[1] == RegisterTypeInfoCall(t, fq, impls) && r[2] == RegisterCall(t, t)
            && RegisterCount(r) == |r| - 2
            && forall k :: 2 <= k < |r| ==> r[k].RegisterCall? && r[k].from == t
  {
    var r := TypeRegistration(t, fq, impls, traits, combos);
    var header := [RegisterTypeCall(t), RegisterTypeInfoCall(t, fq, impls), RegisterCall(t, t)];
    var tail := AllTraitCalls(t, traits, combos);
    AllTraitCallsLength(t, traits, combos);
    AllTraitCallsRegister(t, traits, combos);
    AllTraitCallsAreRegister(t, traits, combos);
    RegisterCountAppend(header, tail);
    assert RegisterCount(header) == 1 by {
      assert [RegisterTypeCall(t)][..0] == [];
      assert RegisterCount([RegisterTypeCall(t)]) == 0;
      assert header[..2][..1] == [RegisterTypeCall(t)];
      assert RegisterCount(header[..2]) == 0;
    }
    forall k | 3 <= k < |r| ensures r[k].RegisterCall? && r[k].from == t {
      assert r[k] == tail[k - 3];
    }
  }

  /** Call `c` of trait `j` in a type registration (c = 0 is the bare trait). */
  lemma TypeRegistrationTraitCall(t: Ty, fq: string, impls: seq<string>, traits: seq<Path>, combos: seq<seq<Path>>, j: nat, c: nat)
    requires j < |traits| && c <= |combos|
    ensures 3 + Blocks(j, 1 + |combos|) + c < |TypeRegistration(t, fq, impls, traits, combos)|
    ensures TypeRegistration(t, fq, impls, traits, combos)[3 + Blocks(j, 1 + |combos|) + c]
              == RegisterCall(t, DynTy(traits[j], if c == 0 then [] else combos[c - 1]))
  {
    AllTraitCallsAt(t, traits, combos, j, c);
  }

  /**
   * The head of the type plan: `register_type`, then `register_type_info` with the
   * implementations list [fq name of ty] ++ marker names ++ trait names (input order), then the
   * self-coercion. The plan has 3 + Blocks(|I|, 1 + 2^k) calls (see `BlocksIsProduct`), all
   * but two of them `register` calls from the type itself.
   */
  lemma TypePlanHeader(ty: Path, markerTraits: seq<Path>, objectSafeTraits: seq<Path>, crateName: string)
    ensures var plan := TypePlan(ty, markerTraits, objectSafeTraits, crateName);
            var t := PathTy(GlobalizePath(ty));
            var fq := FqName(ty, crateName);
            && |plan| == 3 + Blocks(|objectSafeTraits|, 1 + Pow2(|markerTraits|))
            && plan[0] == RegisterTypeCall(t)
            && plan[1] == RegisterTypeInfoCall(t, fq, [fq] + FqNames(markerTraits, crateName) + FqNames(objectSafeTraits, crateName))
            && plan[2] == RegisterCall(t, t)
            && RegisterCount(plan) == |plan| - 2
  {
    TypePlanLength(ty, markerTraits, objectSafeTraits, crateName);
    TypePlanRegisterCount(ty, markerTraits, objectSafeTraits, crateName);
    TypePlanParts(ty, markerTraits, objectSafeTraits, crateName);
    TypeImplsNames(ty, markerTraits, objectSafeTraits, crateName);
    ResolveGlobalized(ty, crateName);
  }

  lemma TypePlanLength(ty: Path, markerTraits: seq<Path>, objectSafeTraits: seq<Path>, crateName: string)
    ensures |TypePlan(ty, markerTraits, objectSafeTraits, crateName)| == 3 + Blocks(|objectSafeTraits|, 1 + Pow2(|markerTraits|))
  {
    var markers := Globalized(markerTraits);
    var t := PathTy(GlobalizePath(ty));
    var traits := Globalized(objectSafeTraits);
    var combos := Subsets(markers);
    assert TypePlan(ty, markerTraits, objectSafeTraits, crateName)
        == TypeRegistration(t, FqName(GlobalizePath(ty), crateName), TypeImpls(ty, markerTraits, objectSafeTraits, crateName), traits, combos);
    SubsetsShape(markers);
    AllTraitCallsLength(t, traits, combos);
  }

  lemma TypePlanRegisterCount(ty: Path, markerTraits: seq<Path>, objectSafeTraits: seq<Path>, crateName: string)
    ensures RegisterCount(TypePlan(ty, markerTraits, objectSafeTraits, crateName)) == |TypePlan(ty, markerTraits, objectSafeTraits, crateName)| - 2
  {
    var t := PathTy(GlobalizePath(ty));
    var fq := FqName(GlobalizePath(ty), crateName);
    var impls := TypeImpls(ty, markerTraits, objectSafeTraits, crateName);
    var traits := Globalized(objectSafeTraits);
    var combos := Subsets(Globalized(markerTraits));
    assert TypePlan(ty, markerTraits, objectSafeTraits, crateName) == TypeRegistration(t, fq, impls, traits, combos);
    TypeRegistrationShape(t, fq, impls, traits, combos);
  }

  /** The implementations list names the type, the markers and the traits as written. */
  lemma TypeImplsNames(ty: Path, markerTraits: seq<Path>, objectSafeTraits: seq<Path>, crateName: string)
    ensures TypeImpls(ty, markerTraits, objectSafeTraits, crateName)
            == [FqName(ty, crateName)] + FqNames(markerTraits, crateName) + FqNames(objectSafeTraits, crateName)
  {
    ResolveGlobalized(ty, crateName);
    FqNamesGlobalized(markerTraits, crateName);
    FqNamesGlobalized(objectSafeTraits, crateName);
  }

  /**
   * The per-trait part of the type plan: for trait `j` (input order) the bare trait comes first
   * (c = 0), then one call per combination, the first of which is the empty combination and so
   * names the bare trait a second time.
   */
  /** The marker combinations of a type registration, in doubling order. */
  function MarkerCombos(markerTraits: seq<Path>): (r: seq<seq<Path>>)
    ensures |r| == Pow2(|markerTraits|) && r[0] == []
  {
    SubsetsShape(Globalized(markerTraits));
    Subsets(Globalized(markerTraits))
  }

  /** Index of the first call of trait `j` in a type plan. */
  function TraitBlockStart(markerTraits: seq<Path>, j: nat): nat
  {
    3 + Blocks(j, 1 + Pow2(|markerTraits|))
  }

  lemma {:induction false} TypePlanTraitCall(ty: Path, markerTraits: seq<Path>, objectSafeTraits: seq<Path>, crateName: string, j: nat, c: nat)
    requires j < |objectSafeTraits| && c <= |MarkerCombos(markerTraits)|
    ensures TraitBlockStart(markerTraits, j) + c < |TypePlan(ty, markerTraits, objectSafeTraits, crateName)|
    ensures TypePlan(ty, markerTraits, objectSafeTraits, crateName)[TraitBlockStart(markerTraits, j) + c]
              == RegisterCall(PathTy(GlobalizePath(ty)),
                              DynTy(GlobalizePath(objectSafeTraits[j]),
                                    if c == 0 then [] else MarkerCombos(markerTraits)[c - 1]))
  {
    var k := TraitBlockStart(markerTraits, j) + c;
    SubsetsShape(Globalized(markerTraits));
    AllTraitCallsAtOffset(PathTy(GlobalizePath(ty)), Globalized(objectSafeTraits), Subsets(Globalized(markerTraits)),
                          1 + Pow2(|markerTraits|), j, c, k);
    TypePlanTail(ty, markerTraits, objectSafeTraits, crateName, k);
  }

  /** `AllTraitCallsAt` for an index into the whole type registration, past its three header calls. */
  lemma AllTraitCallsAtOffset(t: Ty, traits: seq<Path>, combos: seq<seq<Path>>, w: nat, j: nat, c: nat, k: nat)
    requires w == 1 + |combos| && j < |traits| && c < w && k == 3 + Blocks(j, w) + c
    ensures 3 <= k < 3 + |AllTraitCalls(t, traits, combos)|
    ensures AllTraitCalls(t, traits, combos)[k - 3] == RegisterCall(t, DynTy(traits[j], if c == 0 then [] else combos[c - 1]))
  {
    AllTraitCallsAt(t, traits, combos, j, c);
  }

  /** Past the three header calls, the type plan is its per-trait part. */
  lemma TypePlanTail(ty: Path, markerTraits: seq<Path>, objectSafeTraits: seq<Path>, crateName: string, k: nat)
    requires 3 <= k < 3 + |AllTraitCalls(PathTy(GlobalizePath(ty)), Globalized(objectSafeTraits), Subsets(Globalized(markerTraits)))|
    ensures k < |TypePlan(ty, markerTraits, objectSafeTraits, crateName)|
    ensures TypePlan(ty, markerTraits, objectSafeTraits, crateName)[k]
            == AllTraitCalls(PathTy(GlobalizePath(ty)), Globalized(objectSafeTraits), Subsets(Globalized(markerTraits)))[k - 3]
  {
  }

  /**
   * The bare registration of trait `j` and the one for the empty combination that follows it
   * are the same call, so each trait block registers its bare trait object twice.
   */
  lemma {:induction false} TypePlanRepeatsBareTrait(ty: Path, markerTraits: seq<Path>, objectSafeTraits: seq<Path>, crateName: string, j: nat)
    requires j < |objectSafeTraits|
    ensures var plan := TypePlan(ty, markerTraits, objectSafeTraits, crateName);
            var k := TraitBlockStart(markerTraits, j);
            && k + 1 < |plan|
            && plan[k] == plan[k + 1] == RegisterCall(PathTy(GlobalizePath(ty)), DynTy(GlobalizePath(objectSafeTraits[j]), []))
  {
    TypePlanTraitCall(ty, markerTraits, objectSafeTraits, crateName, j, 0);
    TypePlanTraitCall(ty, markerTraits, objectSafeTraits, crateName, j, 1);
  }

  lemma {:induction false} AllComboCallsLength(t: Path, fq: string, combos: seq<seq<Path>>, crateName: string)
    ensures |AllComboCalls(t, fq, combos, crateName)| == 3 * |combos|
    decreases |combos|
  {
    if |combos| > 0 {
      AllComboCallsLength(t, fq, combos[..|combos| - 1], crateName);
    }
  }

  /** Combination `c` owns the three calls at offsets 3c, 3c + 1 and 3c + 2. */
  lemma {:induction false} AllComboCallsAt(t: Path, fq: string, combos: seq<seq<Path>>, crateName: string, c: nat)
    requires c < |combos|
    ensures |AllComboCalls(t, fq, combos, crateName)| == 3 * |combos|
    ensures AllComboCalls(t, fq, combos, crateName)[3 * c..3 * c + 3] == ComboCalls(t, fq, combos[c], crateName)
    decreases |combos|
  {
    var n := |combos| - 1;
    AllComboCallsLength(t, fq, combos, crateName);
    AllComboCallsLength(t, fq, combos[..n], crateName);
    if c < n {
      AllComboCallsAt(t, fq, combos[..n], crateName, c);
    }
  }

  /** Call `k` (0, 1 or 2) of combination `c` in a trait registration. */
  lemma TraitRegistrationComboCall(t: Path, fq: string, impls: seq<string>, combos: seq<seq<Path>>, crateName: string, c: nat, k: nat)
    requires c < |combos| && k < 3
    ensures |TraitRegistration(t, fq, impls, combos, crateName)| == 3 + 3 * |combos|
    ensures TraitRegistration(t, fq, impls, combos, crateName)[3 + 3 * c + k] == ComboCalls(t, fq, combos[c], crateName)[k]
  {
    var tail := AllComboCalls(t, fq, combos, crateName);
    AllComboCallsAt(t, fq, combos, crateName, c);
    assert tail[3 * c + k] == tail[3 * c..3 * c + 3][k];
  }

  /**
   * The head of the trait plan: `register_type`, `register_type_info` (listing all markers) and
   * the `Box` coercion of the bare `dyn Trait`; 3 + 3 * 2^k calls in all.
   */
  lemma TraitPlanHeader(ty: Path, markerTraits: seq<Path>, crateName: string)
    ensures var plan := TraitPlan(ty, markerTraits, crateName);
            var t := GlobalizePath(ty);
            var fq := FqName(ty, crateName);
            && |plan| == 3 + 3 * Pow2(|markerTraits|)
            && plan[0] == RegisterTypeCall(DynTy(t, []))
            && plan[1] == RegisterTypeInfoCall(DynTy(t, []), fq, [fq] + FqNames(markerTraits, crateName))
            && plan[2] == RegisterCall(BoxTy(DynTy(t, [])), DynTy(t, []))
  {
    var markers := Globalized(markerTraits);
    var t := GlobalizePath(ty);
    SubsetsShape(markers);
    ResolveGlobalized(ty, crateName);
    FqNamesGlobalized(markerTraits, crateName);
    AllComboCallsLength(t, FqName(t, crateName), Subsets(markers), crateName);
  }

  /**
   * Combination `c` (doubling order) of a trait registration: `register_type`,
   * `register_type_info` with [fq] ++ the combination's names, and the `Box` coercion of
   * `dyn Trait + combination`. The empty combination comes first and names the bare trait
   * again, so its `register_type_info` call (with the list [fq]) follows the header's.
   */
  lemma {:induction false} TraitPlanComboCalls(ty: Path, markerTraits: seq<Path>, crateName: string, c: nat)
    requires c < |MarkerCombos(markerTraits)|
    ensures var plan := TraitPlan(ty, markerTraits, crateName);
            var t := GlobalizePath(ty);
            var fq := FqName(ty, crateName);
            var combo := MarkerCombos(markerTraits)[c];
            && |plan| == 3 + 3 * |MarkerCombos(markerTraits)|
            && plan[3 + 3 * c] == RegisterTypeCall(DynTy(t, combo))
            && plan[4 + 3 * c] == RegisterTypeInfoCall(DynTy(t, combo), fq, [fq] + FqNames(combo, crateName))
            && plan[5 + 3 * c] == RegisterCall(BoxTy(DynTy(t, combo)), DynTy(t, combo))
            && (c == 0 ==> plan[4] == RegisterTypeInfoCall(DynTy(t, []), fq, [fq]))
  {
    var markers := Globalized(markerTraits);
    var t := GlobalizePath(ty);
    var fq := FqName(t, crateName);
    var impls := [fq] + FqNames(markers, crateName);
    var combos := Subsets(markers);
    assert TraitPlan(ty, markerTraits, crateName) == TraitRegistration(t, fq, impls, combos, crateName);
    assert combos == MarkerCombos(markerTraits);
    assert fq == FqName(ty, crateName) by {
      ResolveGlobalized(ty, crateName);
    }
    TraitRegistrationComboCall(t, fq, impls, combos, crateName, c, 0);
    TraitRegistrationComboCall(t, fq, impls, combos, crateName, c, 1);
    TraitRegistrationComboCall(t, fq, impls, combos, crateName, c, 2);
    assert FqNames(combos[0], crateName) == [];
  }

  lemma TraitCallsSnoc(t: Ty, objTrait: Path, combos: seq<seq<Path>>, x: seq<Path>)
    ensures TraitCalls(t, objTrait, combos + [x]) == TraitCalls(t, objTrait, combos) + [RegisterCall(t, DynTy(objTrait, x))]
  {
  }

  /** One iteration of the outer loop of `generate_type_registration`: the calls for one trait. */
  method EmitTraitCalls(t: Ty, objTrait: Path, markers: seq<Path>) returns (calls: seq<Call>)
    ensures calls == TraitCalls(t, objTrait, Subsets(markers))
  {
    ghost var combos := Subsets(markers);
    calls := [RegisterCall(t, DynTy(objTrait, []))];
    var combinations := MarkerTraitCombinations(markers);
    for c := 0 to |combinations|
      invariant calls == TraitCalls(t, objTrait, combos[..c])
    {
      assert combos[..c + 1] == combos[..c] + [combinations[c].paths];
      TraitCallsSnoc(t, objTrait, combos[..c], combinations[c].paths);
      calls := calls + [RegisterCall(t, DynTy(objTrait, combinations[c].paths))];
    }
    assert combos[..|combinations|] == combos;
  }

  lemma AllTraitCallsSnoc(t: Ty, traits: seq<Path>, combos: seq<seq<Path>>, j: nat)
    requires j < |traits|
    ensures AllTraitCalls(t, traits[..j + 1], combos) == AllTraitCalls(t, traits[..j], combos) + TraitCalls(t, traits[j], combos)
  {
    assert traits[..j + 1][..j] == traits[..j];
  }

  /** `TypePlan` written out as its header calls followed by the per-trait part. */
  lemma TypePlanParts(ty: Path, markerTraits: seq<Path>, objectSafeTraits: seq<Path>, crateName: string)
    ensures var t := PathTy(GlobalizePath(ty));
            var fq := FqName(GlobalizePath(ty), crateName);
            TypePlan(ty, markerTraits, objectSafeTraits, crateName)
              == [RegisterTypeCall(t),
                  RegisterTypeInfoCall(t, fq, [fq] + FqNames(Globalized(markerTraits), crateName)
                                                  + FqNames(Globalized(objectSafeTraits), crateName)),
                  RegisterCall(t, t)]
                 + AllTraitCalls(t, Globalized(objectSafeTraits), Subsets(Globalized(markerTraits)))
  {
  }

  method GenerateTypeRegistration(ty: Path, markerTraits: seq<Path>, objectSafeTraits: seq<Path>, crateName: string)
    returns (output: seq<Call>)
    ensures output == TypePlan(ty, markerTraits, objectSafeTraits, crateName)
  {
    var t := PathTy(GlobalizePath(ty));
    var markers := Globalized(markerTraits);
    var traits := Globalized(objectSafeTraits);
    output := [RegisterTypeCall(t)];
    var fqName := FqName(t.path, crateName);
    var implementations := [fqName];
    implementations := implementations + FqNames(markers, crateName);
    implementations := implementations + FqNames(traits, crateName);
    output := output + [RegisterTypeInfoCall(t, fqName, implementations)];
    output := output + [RegisterCall(t, t)];
    ghost var header := output;
    ghost var combos := Subsets(markers);
    for j := 0 to |traits|
      invariant output == header + AllTraitCalls(t, traits[..j], combos)
    {
      var calls := EmitTraitCalls(t, traits[j], markers);
      TraitLoopStep(header, t, traits, combos, j, calls);
      output := output + calls;
    }
    assert traits[..|traits|] == traits;
    TypePlanFromParts(ty, markerTraits, objectSafeTraits, crateName, output, fqName, implementations);
  }

  /** One turn of the outer loop of `generate_type_registration` appends the next trait's calls. */
  lemma TraitLoopStep(header: seq<Call>, t: Ty, traits: seq<Path>, combos: seq<seq<Path>>, j: nat, calls: seq<Call>)
    requires j < |traits| && calls == TraitCalls(t, traits[j], combos)
    ensures header + AllTraitCalls(t, traits[..j], combos) + calls == header + AllTraitCalls(t, traits[..j + 1], combos)
  {
    AllTraitCallsSnoc(t, traits, combos, j);
  }

  /** The header pushed call by call, followed by the per-trait part, is the type plan. */
  lemma TypePlanFromParts(ty: Path, markerTraits: seq<Path>, objectSafeTraits: seq<Path>, crateName: string,
                          output: seq<Call>, fqName: string, impls: seq<string>)
    requires fqName == FqName(PathTy(GlobalizePath(ty)).path, crateName)
    requires impls == [fqName] + FqNames(Globalized(markerTraits), crateName) + FqNames(Globalized(objectSafeTraits), crateName)
    requires output == [RegisterTypeCall(PathTy(GlobalizePath(ty)))]
                       + [RegisterTypeInfoCall(PathTy(GlobalizePath(ty)), fqName, impls)]
                       + [RegisterCall(PathTy(GlobalizePath(ty)), PathTy(GlobalizePath(ty)))]
                       + AllTraitCalls(PathTy(GlobalizePath(ty)), Globalized(objectSafeTraits), Subsets(Globalized(markerTraits)))
    ensures output == TypePlan(ty, markerTraits, objectSafeTraits, crateName)
  {
    TypePlanParts(ty, markerTraits, objectSafeTraits, crateName);
  }

  lemma AllComboCallsSnoc(t: Path, fq: string, combos: seq<seq<Path>>, crateName: string, c: nat)
    requires c < |combos|
    ensures AllComboCalls(t, fq, combos[..c + 1], crateName)
            == AllComboCalls(t, fq, combos[..c], crateName) + ComboCalls(t, fq, combos[c], crateName)
  {
    assert combos[..c + 1][..c] == combos[..c];
  }

  /** Three calls pushed one at a time extend the output by their block. */
  lemma AppendBlock(header: seq<Call>, done: seq<Call>, block: seq<Call>, a: Call, b: Call, c: Call)
    requires block == [a, b, c]
    ensures header + done + [a] + [b] + [c] == header + (done + block)
  {
  }

  /** `TraitPlan` written out as its header calls followed by the combination part. */
  lemma TraitPlanParts(ty: Path, markerTraits: seq<Path>, crateName: string)
    ensures var t := GlobalizePath(ty);
            var fq := FqName(t, crateName);
            TraitPlan(ty, markerTraits, crateName)
              == [RegisterTypeCall(DynTy(t, [])),
                  RegisterTypeInfoCall(DynTy(t, []), fq, [fq] + FqNames(Globalized(markerTraits), crateName)),
                  RegisterCall(BoxTy(DynTy(t, [])), DynTy(t, []))]
                 + AllComboCalls(t, fq, Subsets(Globalized(markerTraits)), crateName)
  {
  }

  method GenerateTraitRegistration(ty: Path, markerTraits: seq<Path>, crateName: string) returns (output: seq<Call>)
    ensures output == TraitPlan(ty, markerTraits, crateName)
  {
    var t := GlobalizePath(ty);
    var markers := Globalized(markerTraits);
    var d := DynTy(t, []);
    output := [RegisterTypeCall(d)];
    var fqName := FqName(t, crateName);
    var implementations := [fqName];
    implementations := implementations + FqNames(markers, crateName);
    output := output + [RegisterTypeInfoCall(d, fqName, implementations)];
    output := output + [RegisterCall(BoxTy(d), d)];
    var combinations := MarkerTraitCombinations(markers);
    ghost var header := output;
    ghost var combos := Subsets(markers);
    for c := 0 to |combinations|
      invariant output == header + AllComboCalls(t, fqName, combos[..c], crateName)
    {
      var combinationPaths := combinations[c].paths;
      var fullTrait := DynTy(t, combinationPaths);
      output := output + [RegisterTypeCall(fullTrait)];
      var impls := [fqName];
      impls := impls + FqNames(combinationPaths, crateName);
      output := output + [RegisterTypeInfoCall(fullTrait, fqName, impls)];
      output := output + [RegisterCall(BoxTy(fullTrait), fullTrait)];
      ComboLoopStep(header, t, fqName, combos, crateName, c, combinationPaths, impls);
    }
    assert combos[..|combinations|] == combos;
    TraitPlanFromParts(ty, markerTraits, crateName, output, fqName, implementations);
  }

  /** One turn of the loop of `generate_trait_registration` appends the next combination's three calls. */
  lemma ComboLoopStep(header: seq<Call>, t: Path, fq: string, combos: seq<seq<Path>>, crateName: string, c: nat,
                      combo: seq<Path>, impls: seq<string>)
    requires c < |combos| && combo == combos[c] && impls == [fq] + FqNames(combo, crateName)
    ensures header + AllComboCalls(t, fq, combos[..c], crateName)
              + [RegisterTypeCall(DynTy(t, combo))] + [RegisterTypeInfoCall(DynTy(t, combo), fq, impls)]
              + [RegisterCall(BoxTy(DynTy(t, combo)), DynTy(t, combo))]
            == header + AllComboCalls(t, fq, combos[..c + 1], crateName)
  {
    AllComboCallsSnoc(t, fq, combos, crateName, c);
    AppendBlock(header, AllComboCalls(t, fq, combos[..c], crateName), ComboCalls(t, fq, combos[c], crateName),
                RegisterTypeCall(DynTy(t, combo)), RegisterTypeInfoCall(DynTy(t, combo), fq, impls),
                RegisterCall(BoxTy(DynTy(t, combo)), DynTy(t, combo)));
  }

  /** The header pushed call by call, followed by the combination part, is the trait plan. */
  lemma TraitPlanFromParts(ty: Path, markerTraits: seq<Path>, crateName: string, output: seq<Call>, fqName: string, impls: seq<string>)
    requires fqName == FqName(GlobalizePath(ty), crateName)
    requires impls == [fqName] + FqNames(Globalized(markerTraits), crateName)
    requires output == [RegisterTypeCall(DynTy(GlobalizePath(ty), []))]
                       + [RegisterTypeInfoCall(DynTy(GlobalizePath(ty), []), fqName, impls)]
                       + [RegisterCall(BoxTy(DynTy(GlobalizePath(ty), [])), DynTy(GlobalizePath(ty), []))]
                       + AllComboCalls(GlobalizePath(ty), fqName, Subsets(Globalized(markerTraits)), crateName)
    ensures output == TraitPlan(ty, markerTraits, crateName)
  {
    TraitPlanParts(ty, markerTraits, crateName);
  }
}
