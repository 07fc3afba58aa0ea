/**
 * What a generated registration plan does to the registry once the crate runs it: each
 * emitted call becomes the registry operation on the type identities it names. The theorems
 * say which coercions exist after `register_type!` and `register_trait!`.
 */
module PlanExec {
  import opened Text
  import opened Types
  import opened CoercionRegistry
  import opened MacroPaths
  import opened Combinations
  import opened Generate

  /** The fully qualified name of a path, as a function value. */
  function FqOf(crateName: string): Path -> string
  {
    p => FqName(p, crateName)
  }

  /**
   * The run-time identity of a generated type inside crate `crateName`: paths are identified
   * by their fully qualified name, a trait object by its principal trait and its set of
   * auto traits (their order in the source text does not matter).
   */
  function TyId(ty: Ty, crateName: string): TypeId
  {
    match ty
    case PathTy(p) => Nominal(FqName(p, crateName))
    case DynTy(p, bs) => DynTrait(FqName(p, crateName), Image(FqOf(crateName), bs))
    case BoxTy(inner) => BoxOf(TyId(inner, crateName))
  }

  /** The display name `std::any::type_name` gives a generated type. */
  function TyName(ty: Ty, crateName: string): string
  {
    match ty
    case PathTy(p) => FqName(p, crateName)
    case DynTy(p, bs) => "dyn " + Join([FqName(p, crateName)] + FqNames(bs, crateName), " + ")
    case BoxTy(inner) => "alloc::boxed::Box<" + TyName(inner, crateName) + ">"
  }

  /** The registry operation one emitted call performs. */
  function ToOp(call: Call, crateName: string): RegOp
  {
    match call
    case RegisterTypeCall(ty) => RegisterTypeOp(RustType(TyId(ty, crateName), TyName(ty, crateName)))
    case RegisterTypeInfoCall(ty, fq, impls) => RegisterTypeInfoOp(TyId(ty, crateName), fq, impls)
    case RegisterCall(from, to) => RegisterOp(TyId(from, crateName), TyId(to, crateName))
  }

  function ToOps(calls: seq<Call>, crateName: string): (r: seq<RegOp>)
    ensures |r| == |calls| && forall i :: 0 <= i < |calls| ==> r[i] == ToOp(calls[i], crateName)
  {
    seq(|calls|, i requires 0 <= i < |calls| => ToOp(calls[i], crateName))
  }

  /** `op` stores a coercion pair under `key`. */
  predicate Registers(op: RegOp, key: (TypeId, TypeId))
  {
    op.RegisterOp? && key.1 == op.out && (key.0 == MutexOf(op.inner) || key.0 == RwLockOf(op.inner))
  }

  /** A key is in the coercion table after `ops` iff it was before or one of `ops` stored it. */
  lemma {:induction false} RegisteredAfterOps(s: RegistryState, ops: seq<RegOp>, key: (TypeId, TypeId))
    ensures key in ApplyOps(s, ops).traits <==>
              key in s.traits || exists i :: 0 <= i < |ops| && Registers(ops[i], key)
    decreases |ops|
  {
    if |ops| > 0 {
      var pre := ops[..|ops| - 1];
      RegisteredAfterOps(s, pre, key);
      RegisteredAfterOp(ApplyOps(s, pre), ops[|ops| - 1], key);
      SomeRegistersSnoc(ops, pre, key);
    }
  }

  /** One operation adds a coercion key exactly when it stores that key. */
  lemma RegisteredAfterOp(s: RegistryState, op: RegOp, key: (TypeId, TypeId))
    ensures key in ApplyOp(s, op).traits <==> key in s.traits || Registers(op, key)
  {
  }

  /** Some operation of `ops` stores `key` iff one before the last does or the last does. */
  lemma SomeRegistersSnoc(ops: seq<RegOp>, pre: seq<RegOp>, key: (TypeId, TypeId))
    requires |ops| > 0 && pre == ops[..|ops| - 1]
    ensures (exists i :: 0 <= i < |ops| && Registers(ops[i], key)) <==>
            (exists i :: 0 <= i < |pre| && Registers(pre[i], key)) || Registers(ops[|ops| - 1], key)
  {
    if exists i :: 0 <= i < |pre| && Registers(pre[i], key) {
      var i :| 0 <= i < |pre| && Registers(pre[i], key);
      assert ops[i] == pre[i];
    }
    if exists i :: 0 <= i < |ops| && Registers(ops[i], key) {
      var i :| 0 <= i < |ops| && Registers(ops[i], key);
      if i < |pre| {
        assert pre[i] == ops[i];
      }
    }
  }

  /** Operations other than `register_type_info` leave the type-info table as it is. */
  lemma {:induction false} TypeInfoUntouched(s: RegistryState, ops: seq<RegOp>)
    requires forall i :: 0 <= i < |ops| ==> !ops[i].RegisterTypeInfoOp?
    ensures ApplyOps(s, ops).typeInfo == s.typeInfo
    decreases |ops|
  {
    if |ops| > 0 {
      TypeInfoUntouched(s, ops[..|ops| - 1]);
    }
  }

  /** Coercion registrations leave the name table and the type-info table as they are. */
  lemma {:induction false} CoercionsOnlyTouchTraits(s: RegistryState, ops: seq<RegOp>)
    requires forall i :: 0 <= i < |ops| ==> ops[i].RegisterOp?
    ensures ApplyOps(s, ops).types == s.types && ApplyOps(s, ops).typeInfo == s.typeInfo
    decreases |ops|
  {
    if |ops| > 0 {
      CoercionsOnlyTouchTraits(s, ops[..|ops| - 1]);
    }
  }

  lemma {:induction false} ToOpsAppend(a: seq<Call>, b: seq<Call>, crateName: string)
    ensures ToOps(a + b, crateName) == ToOps(a, crateName) + ToOps(b, crateName)
  {
  }

  /** Every call of the per-trait part targets trait `j` with no bounds or with a combination. */
  lemma {:induction false} AllTraitCallsTarget(t: Ty, traits: seq<Path>, combos: seq<seq<Path>>, k: nat)
    returns (j: nat, c: nat)
    requires k < |AllTraitCalls(t, traits, combos)|
    ensures j < |traits| && c <= |combos|
    ensures AllTraitCalls(t, traits, combos)[k] == RegisterCall(t, DynTy(traits[j], if c == 0 then [] else combos[c - 1]))
    decreases |traits|
  {
    var n := |traits| - 1;
    var pre := AllTraitCalls(t, traits[..n], combos);
    if k < |pre| {
      j, c := AllTraitCallsTarget(t, traits[..n], combos, k);
    } else {
      j, c := n, k - |pre|;
    }
  }

  /** The type identity of a globalized path is that of the path itself. */
  lemma ImageGlobalized(ps: seq<Path>, crateName: string)
    ensures Image(FqOf(crateName), Globalized(ps)) == Image(FqOf(crateName), ps)
  {
    var gs := Globalized(ps);
    forall x | x in Image(FqOf(crateName), gs) ensures x in Image(FqOf(crateName), ps) {
      var g :| g in gs && FqOf(crateName)(g) == x;
      var i :| 0 <= i < |gs| && gs[i] == g;
      ResolveGlobalized(ps[i], crateName);
      assert FqOf(crateName)(ps[i]) == x;
    }
    forall x | x in Image(FqOf(crateName), ps) ensures x in Image(FqOf(crateName), gs) {
      var p :| p in ps && FqOf(crateName)(p) == x;
      var i :| 0 <= i < |ps| && ps[i] == p;
      ResolveGlobalized(p, crateName);
      assert FqOf(crateName)(gs[i]) == x;
    }
  }

  /** A trait-object view built on one of `traitIds` with auto traits drawn from `markerIds`. */
  predicate TraitView(out: TypeId, traitIds: set<string>, markerIds: set<string>)
  {
    out.DynTrait? && out.principal in traitIds && out.autoTraits <= markerIds
  }

  /** The registry state after the program runs a plan. */
  function RunPlan(s: RegistryState, plan: seq<Call>, crateName: string): RegistryState
  {
    ApplyOps(s, ToOps(plan, crateName))
  }

  /** The identity of the type a `register_type!` invocation names. */
  function TypeIdOf(ty: Path, crateName: string): TypeId
  {
    Nominal(FqName(ty, crateName))
  }

  /** `call` is a `register` call from a type with identity `inner` to one with identity `out`. */
  predicate CallRegisters(call: Call, crateName: string, inner: TypeId, out: TypeId)
  {
    call.RegisterCall? && TyId(call.from, crateName) == inner && TyId(call.to, crateName) == out
  }

  /** After a plan, a coercion key is present iff it was before or a `register` call of the plan names it. */
  lemma PlanRegisters(s: RegistryState, plan: seq<Call>, crateName: string, f: Flavour, inner: TypeId, out: TypeId)
    ensures (Container(f, inner), out) in RunPlan(s, plan, crateName).traits <==>
              || (Container(f, inner), out) in s.traits
              || exists i :: 0 <= i < |plan| && CallRegisters(plan[i], crateName, inner, out)
  {
    var ops := ToOps(plan, crateName);
    var key := (Container(f, inner), out);
    RegisteredAfterOps(s, ops, key);
    assert forall i :: 0 <= i < |plan| ==> (Registers(ops[i], key) <==> CallRegisters(plan[i], crateName, inner, out));
  }

  /**
   * Every `register` call of a type registration goes from `t` to `t` itself or to a trait
   * object on one of `traits` whose bounds are one of `combos` (or none).
   */
  lemma {:induction false} TypeRegistrationSound(t: Ty, fq: string, impls: seq<string>, traits: seq<Path>, combos: seq<seq<Path>>,
                                                 crateName: string, markerIds: set<string>, i: nat, out: TypeId)
    requires forall c :: 0 <= c < |combos| ==> Image(FqOf(crateName), combos[c]) <= markerIds
    requires i < |TypeRegistration(t, fq, impls, traits, combos)|
    requires CallRegisters(TypeRegistration(t, fq, impls, traits, combos)[i], crateName, TyId(t, crateName), out)
    ensures out == TyId(t, crateName) || TraitView(out, Image(FqOf(crateName), traits), markerIds)
  {
    var r := TypeRegistration(t, fq, impls, traits, combos);
    var tail := AllTraitCalls(t, traits, combos);
    if i >= 3 {
      assert r[i] == tail[i - 3];
      var j, c := AllTraitCallsTarget(t, traits, combos, i - 3);
      var combo := if c == 0 then [] else combos[c - 1];
      assert Image(FqOf(crateName), combo) <= markerIds by {
        assert c == 0 ==> Image(FqOf(crateName), combo) == {};
      }
      TraitCallView(t, traits, j, combo, crateName, markerIds, out);
    }
  }

  /** A `register` call from `t` to `dyn traits[j] + combo` registers a trait-object view. */
  lemma TraitCallView(t: Ty, traits: seq<Path>, j: nat, combo: seq<Path>, crateName: string, markerIds: set<string>, out: TypeId)
    requires j < |traits| && Image(FqOf(crateName), combo) <= markerIds
    requires CallRegisters(RegisterCall(t, DynTy(traits[j], combo)), crateName, TyId(t, crateName), out)
    ensures TraitView(out, Image(FqOf(crateName), traits), markerIds)
  {
    assert FqOf(crateName)(traits[j]) in Image(FqOf(crateName), traits);
  }

  /** Call `c + 1` of trait `j` in a type registration registers `dyn traits[j] + combos[c]`. */
  lemma {:induction false} TypeRegistrationComplete(t: Ty, fq: string, impls: seq<string>, traits: seq<Path>, combos: seq<seq<Path>>,
                                                    crateName: string, j: nat, c: nat)
    requires j < |traits| && c < |combos|
    ensures 3 + Blocks(j, 1 + |combos|) + c + 1 < |TypeRegistration(t, fq, impls, traits, combos)|
    ensures CallRegisters(TypeRegistration(t, fq, impls, traits, combos)[3 + Blocks(j, 1 + |combos|) + c + 1],
                          crateName, TyId(t, crateName),
                          DynTrait(FqName(traits[j], crateName), Image(FqOf(crateName), combos[c])))
  {
    var k := 3 + Blocks(j, 1 + |combos|) + c + 1;
    TypeRegistrationTraitCall(t, fq, impls, traits, combos, j, c + 1);
    assert TypeRegistration(t, fq, impls, traits, combos)[k] == RegisterCall(t, DynTy(traits[j], combos[c]));
  }

  /** The marker combinations only ever name markers. */
  lemma SubsetsNameMarkers(markerTraits: seq<Path>, crateName: string)
    ensures forall c :: 0 <= c < |Subsets(Globalized(markerTraits))| ==>
              Image(FqOf(crateName), Subsets(Globalized(markerTraits))[c]) <= Image(FqOf(crateName), markerTraits)
  {
    var markers := Globalized(markerTraits);
    ImageGlobalized(markerTraits, crateName);
    forall c | 0 <= c < |Subsets(markers)|
      ensures Image(FqOf(crateName), Subsets(markers)[c]) <= Image(FqOf(crateName), markers)
    {
      SubsetsWithin(markers, c);
    }
  }

  /** A trait view on the globalized traits and markers has a registering call in the registration. */
  lemma TraitViewRegistered(t: Ty, fq: string, impls: seq<string>, markerTraits: seq<Path>, traits: seq<Path>,
                            crateName: string, out: TypeId)
    requires TraitView(out, Image(FqOf(crateName), traits), Image(FqOf(crateName), markerTraits))
    ensures exists i :: 0 <= i < |TypeRegistration(t, fq, impls, traits, Subsets(Globalized(markerTraits)))| &&
              CallRegisters(TypeRegistration(t, fq, impls, traits, Subsets(Globalized(markerTraits)))[i],
                            crateName, TyId(t, crateName), out)
  {
    var markers := Globalized(markerTraits);
    var combos := Subsets(markers);
    var pj :| pj in traits && FqOf(crateName)(pj) == out.principal;
    var j :| 0 <= j < |traits| && traits[j] == pj;
    var c := SubsetsCover(markers, FqOf(crateName), out.autoTraits) by {
      ImageGlobalized(markerTraits, crateName);
    }
    TypeRegistrationComplete(t, fq, impls, traits, combos, crateName, j, c);
    assert out == DynTrait(FqName(traits[j], crateName), Image(FqOf(crateName), combos[c]));
  }

  /**
   * After `register_type!{ ty, marker_traits, object_safe_traits }` a cell holding `ty`, in
   * either storage flavour, can be coerced to exactly: the type itself, and every trait object
   * `dyn I + M1 + ...` with `I` one of the object-safe traits and the `Mi` any subset of the
   * markers (in any order); every other target is as it was.
   */
  lemma TypePlanCoercions(s: RegistryState, ty: Path, markerTraits: seq<Path>, objectSafeTraits: seq<Path>,
                          crateName: string, f: Flavour, out: TypeId)
    ensures (Container(f, TypeIdOf(ty, crateName)), out)
              in RunPlan(s, TypePlan(ty, markerTraits, objectSafeTraits, crateName), crateName).traits
            <==>
            || (Container(f, TypeIdOf(ty, crateName)), out) in s.traits
            || out == TypeIdOf(ty, crateName)
            || TraitView(out, Image(FqOf(crateName), objectSafeTraits), Image(FqOf(crateName), markerTraits))
  {
    var T := TypeIdOf(ty, crateName);
    var plan := TypePlan(ty, markerTraits, objectSafeTraits, crateName);
    var t := PathTy(GlobalizePath(ty));
    var fq := FqName(GlobalizePath(ty), crateName);
    var impls := TypeImpls(ty, markerTraits, objectSafeTraits, crateName);
    var markers := Globalized(markerTraits);
    var traits := Globalized(objectSafeTraits);
    var combos := Subsets(markers);
    var traitIds := Image(FqOf(crateName), objectSafeTraits);
    var markerIds := Image(FqOf(crateName), markerTraits);
    assert plan == TypeRegistration(t, fq, impls, traits, combos);
    assert TyId(t, crateName) == T by {
      ResolveGlobalized(ty, crateName);
    }
    assert Image(FqOf(crateName), traits) == traitIds by {
      ImageGlobalized(objectSafeTraits, crateName);
    }
    PlanRegisters(s, plan, crateName, f, T, out);
    if exists i :: 0 <= i < |plan| && CallRegisters(plan[i], crateName, T, out) {
      var i :| 0 <= i < |plan| && CallRegisters(plan[i], crateName, T, out);
      SubsetsNameMarkers(markerTraits, crateName);
      TypeRegistrationSound(t, fq, impls, traits, combos, crateName, markerIds, i, out);
    }
    if out == T {
      TypeRegistrationShape(t, fq, impls, traits, combos);
      assert CallRegisters(plan[2], crateName, T, out);
    } else if TraitView(out, traitIds, markerIds) {
      TraitViewRegistered(t, fq, impls, markerTraits, traits, crateName, out);
    }
  }

  /**
   * On a fresh registry, after `register_type!` a coercion of a `ty` cell succeeds exactly for
   * the targets `TypePlanCoercions` lists, borrowing the payload itself.
   */
  lemma TypePlanCoerce<V>(ty: Path, markerTraits: seq<Path>, objectSafeTraits: seq<Path>, crateName: string,
                          access: Access, f: Flavour, payload: V, out: RustType)
    ensures var s := RunPlan(EmptyState(), TypePlan(ty, markerTraits, objectSafeTraits, crateName), crateName);
            var r := CoerceWith(s, access, Container(f, TypeIdOf(ty, crateName)), payload, out);
            && (r.Ok? <==> out.id == TypeIdOf(ty, crateName)
                           || TraitView(out.id, Image(FqOf(crateName), objectSafeTraits), Image(FqOf(crateName), markerTraits)))
            && (r.Ok? ==> r.value.target == payload && r.value.out == out.id)
  {
    var plan := TypePlan(ty, markerTraits, objectSafeTraits, crateName);
    ApplyOpsWellFormed(EmptyState(), ToOps(plan, crateName));
    CoerceSucceedsIffRegistered(RunPlan(EmptyState(), plan, crateName), access,
                                Container(f, TypeIdOf(ty, crateName)), payload, out);
    TypePlanCoercions(EmptyState(), ty, markerTraits, objectSafeTraits, crateName, f, out.id);
  }

  /** The tables a type registration writes: names from its first call, type info from its second. */
  lemma TypeRegistrationTables(s: RegistryState, t: Ty, fq: string, impls: seq<string>, traits: seq<Path>,
                               combos: seq<seq<Path>>, crateName: string)
    ensures var r := RunPlan(s, TypeRegistration(t, fq, impls, traits, combos), crateName);
            && r.types == AddType(s, RustType(TyId(t, crateName), TyName(t, crateName))).types
            && r.typeInfo == s.typeInfo[TyId(t, crateName) := TypeInfo(fq, impls)]
  {
    var header := [RegisterTypeCall(t), RegisterTypeInfoCall(t, fq, impls), RegisterCall(t, t)];
    var tail := AllTraitCalls(t, traits, combos);
    var ops := ToOps(header, crateName);
    var mid := ApplyOps(s, ops);
    assert RunPlan(s, TypeRegistration(t, fq, impls, traits, combos), crateName) == ApplyOps(mid, ToOps(tail, crateName)) by {
      ToOpsAppend(header, tail, crateName);
      ApplyOpsAppend(s, ops, ToOps(tail, crateName));
    }
    assert ApplyOps(mid, ToOps(tail, crateName)).types == mid.types
        && ApplyOps(mid, ToOps(tail, crateName)).typeInfo == mid.typeInfo by {
      AllTraitCallsAreRegister(t, traits, combos);
      CoercionsOnlyTouchTraits(mid, ToOps(tail, crateName));
    }
    HeaderTables(s, t, fq, impls, crateName);
  }

  lemma HeaderTables(s: RegistryState, t: Ty, fq: string, impls: seq<string>, crateName: string)
    ensures var mid := ApplyOps(s, ToOps([RegisterTypeCall(t), RegisterTypeInfoCall(t, fq, impls), RegisterCall(t, t)], crateName));
            && mid.types == AddType(s, RustType(TyId(t, crateName), TyName(t, crateName))).types
            && mid.typeInfo == s.typeInfo[TyId(t, crateName) := TypeInfo(fq, impls)]
  {
    var calls := [RegisterTypeCall(t), RegisterTypeInfoCall(t, fq, impls), RegisterCall(t, t)];
    var a, b, c := ToOp(calls[0], crateName), ToOp(calls[1], crateName), ToOp(calls[2], crateName);
    assert ToOps(calls, crateName) == [a] + [b] + [c];
    ApplyOpsSnoc(s, [], a);
    ApplyOpsSnoc(s, [a], b);
    ApplyOpsSnoc(s, [a] + [b], c);
  }

  /** Issuing one more operation applies it to the state the earlier ones left. */
  lemma ApplyOpsSnoc(s: RegistryState, ops: seq<RegOp>, op: RegOp)
    ensures ApplyOps(s, ops + [op]) == ApplyOp(ApplyOps(s, ops), op)
  {
    assert (ops + [op])[..|ops|] == ops;
  }

  /**
   * `register_type!` records the fully qualified name of `ty` under `ty`, `Mutex<ty>` and
   * `RwLock<ty>`, and one type-info entry under `ty` listing [fq] ++ markers ++ traits; no
   * other name or type-info entry changes.
   */
  lemma TypePlanTables(s: RegistryState, ty: Path, markerTraits: seq<Path>, objectSafeTraits: seq<Path>, crateName: string)
    ensures var r := RunPlan(s, TypePlan(ty, markerTraits, objectSafeTraits, crateName), crateName);
            var fq := FqName(ty, crateName);
            && r.types == AddType(s, RustType(TypeIdOf(ty, crateName), fq)).types
            && r.typeInfo == s.typeInfo[TypeIdOf(ty, crateName) :=
                 TypeInfo(fq, [fq] + FqNames(markerTraits, crateName) + FqNames(objectSafeTraits, crateName))]
  {
    var t := PathTy(GlobalizePath(ty));
    var fq := FqName(GlobalizePath(ty), crateName);
    var impls := TypeImpls(ty, markerTraits, objectSafeTraits, crateName);
    ResolveGlobalized(ty, crateName);
    FqNamesGlobalized(markerTraits, crateName);
    FqNamesGlobalized(objectSafeTraits, crateName);
    TypeRegistrationTables(s, t, fq, impls, Globalized(objectSafeTraits), Subsets(Globalized(markerTraits)), crateName);
  }

  /** The `register` calls of the combination part are the `Box` coercions, one per combination. */
  lemma {:induction false} AllComboCallsRegisterAt(t: Path, fq: string, combos: seq<seq<Path>>, crateName: string, k: nat)
    returns (c: nat)
    requires k < |AllComboCalls(t, fq, combos, crateName)| && AllComboCalls(t, fq, combos, crateName)[k].RegisterCall?
    ensures c < |combos|
    ensures AllComboCalls(t, fq, combos, crateName)[k] == RegisterCall(BoxTy(DynTy(t, combos[c])), DynTy(t, combos[c]))
    decreases |combos|
  {
    var n := |combos| - 1;
    var pre := AllComboCalls(t, fq, combos[..n], crateName);
    if k < |pre| {
      c := AllComboCallsRegisterAt(t, fq, combos[..n], crateName, k);
    } else {
      c := n;
    }
  }

  /** The `register_type_info` calls of the combination part: the second call of combination `c`. */
  lemma {:induction false} AllComboCallsInfoAt(t: Path, fq: string, combos: seq<seq<Path>>, crateName: string, k: nat)
    returns (c: nat)
    requires k < |AllComboCalls(t, fq, combos, crateName)| && AllComboCalls(t, fq, combos, crateName)[k].RegisterTypeInfoCall?
    ensures c < |combos| && k == 3 * c + 1
    ensures AllComboCalls(t, fq, combos, crateName)[k].ty == DynTy(t, combos[c])
    decreases |combos|
  {
    var n := |combos| - 1;
    var pre := AllComboCalls(t, fq, combos[..n], crateName);
    AllComboCallsLength(t, fq, combos[..n], crateName);
    if k < |pre| {
      c := AllComboCallsInfoAt(t, fq, combos[..n], crateName, k);
    } else {
      c := n;
    }
  }

  /**
   * After `register_trait!{ ty, marker_traits }` a cell of type `Box<X>`, in either flavour,
   * coerces to `out` exactly when `X` is `out` and `out` is `dyn ty` plus any subset of the
   * markers; every other key is as it was.
   */
  lemma TraitPlanCoercions(s: RegistryState, ty: Path, markerTraits: seq<Path>, crateName: string,
                           f: Flavour, inner: TypeId, out: TypeId)
    ensures (Container(f, inner), out) in RunPlan(s, TraitPlan(ty, markerTraits, crateName), crateName).traits
            <==>
            || (Container(f, inner), out) in s.traits
            || (inner == BoxOf(out) && TraitView(out, {FqName(ty, crateName)}, Image(FqOf(crateName), markerTraits)))
  {
    var t := GlobalizePath(ty);
    var markers := Globalized(markerTraits);
    var fq := FqName(t, crateName);
    var impls := [fq] + FqNames(markers, crateName);
    var combos := Subsets(markers);
    var plan := TraitPlan(ty, markerTraits, crateName);
    var markerIds := Image(FqOf(crateName), markerTraits);
    assert plan == TraitRegistration(t, fq, impls, combos, crateName);
    ResolveGlobalized(ty, crateName);
    PlanRegisters(s, plan, crateName, f, inner, out);
    if exists i :: 0 <= i < |plan| && CallRegisters(plan[i], crateName, inner, out) {
      var i :| 0 <= i < |plan| && CallRegisters(plan[i], crateName, inner, out);
      SubsetsNameMarkers(markerTraits, crateName);
      TraitRegistrationSound(t, fq, impls, combos, crateName, markerIds, i, inner, out);
    }
    if inner == BoxOf(out) && TraitView(out, {FqName(ty, crateName)}, markerIds) {
      BoxViewRegistered(t, fq, impls, markerTraits, crateName, out);
    }
  }

  /** The `Box` coercion to `out`, a view on the markers, is a call of the trait registration. */
  lemma BoxViewRegistered(t: Path, fq: string, impls: seq<string>, markerTraits: seq<Path>, crateName: string, out: TypeId)
    requires TraitView(out, {FqName(t, crateName)}, Image(FqOf(crateName), markerTraits))
    ensures exists i :: 0 <= i < |TraitRegistration(t, fq, impls, Subsets(Globalized(markerTraits)), crateName)| &&
              CallRegisters(TraitRegistration(t, fq, impls, Subsets(Globalized(markerTraits)), crateName)[i],
                            crateName, BoxOf(out), out)
  {
    var markers := Globalized(markerTraits);
    var combos := Subsets(markers);
    var c := SubsetsCover(markers, FqOf(crateName), out.autoTraits) by {
      ImageGlobalized(markerTraits, crateName);
    }
    TraitRegistrationComboCall(t, fq, impls, combos, crateName, c, 2);
    var d := DynTy(t, combos[c]);
    assert TraitRegistration(t, fq, impls, combos, crateName)[3 + 3 * c + 2] == RegisterCall(BoxTy(d), d);
    assert TyId(d, crateName) == out;
  }

  /** Every `register` call of a trait registration is the `Box` coercion of one combination (or none). */
  lemma {:induction false} TraitRegistrationSound(t: Path, fq: string, impls: seq<string>, combos: seq<seq<Path>>, crateName: string,
                                                  markerIds: set<string>, i: nat, inner: TypeId, out: TypeId)
    requires forall c :: 0 <= c < |combos| ==> Image(FqOf(crateName), combos[c]) <= markerIds
    requires i < |TraitRegistration(t, fq, impls, combos, crateName)|
    requires CallRegisters(TraitRegistration(t, fq, impls, combos, crateName)[i], crateName, inner, out)
    ensures inner == BoxOf(out) && TraitView(out, {FqName(t, crateName)}, markerIds)
  {
    var r := TraitRegistration(t, fq, impls, combos, crateName);
    if i >= 3 {
      var tail := AllComboCalls(t, fq, combos, crateName);
      assert r[i] == tail[i - 3];
      var c := AllComboCallsRegisterAt(t, fq, combos, crateName, i - 3);
      BoxCoercionView(t, combos[c], crateName, markerIds, inner, out);
    } else {
      assert Image(FqOf(crateName), []) == {};
      BoxCoercionView(t, [], crateName, markerIds, inner, out);
    }
  }

  /** The `Box` coercion of `dyn t + combo` registers a trait-object view whose markers are the combination's. */
  lemma BoxCoercionView(t: Path, combo: seq<Path>, crateName: string, markerIds: set<string>, inner: TypeId, out: TypeId)
    requires Image(FqOf(crateName), combo) <= markerIds
    requires CallRegisters(RegisterCall(BoxTy(DynTy(t, combo)), DynTy(t, combo)), crateName, inner, out)
    ensures inner == BoxOf(out) && TraitView(out, {FqName(t, crateName)}, markerIds)
  {
  }

  /** The last `register_type_info` for a key decides its entry. */
  lemma {:induction false} LastInfoWins(s: RegistryState, ops: seq<RegOp>, i: nat, key: TypeId, fq: string, impls: seq<string>)
    requires i < |ops| && ops[i] == RegisterTypeInfoOp(key, fq, impls)
    requires forall k :: i < k < |ops| ==> !(ops[k].RegisterTypeInfoOp? && ops[k].key == key)
    ensures key in ApplyOps(s, ops).typeInfo && ApplyOps(s, ops).typeInfo[key] == TypeInfo(fq, impls)
    decreases |ops|
  {
    if i < |ops| - 1 {
      LastInfoWins(s, ops[..|ops| - 1], i, key, fq, impls);
    }
  }

  /**
   * In a trait registration whose first combination is the only empty one, the entry of the
   * bare `dyn t` is the one the empty combination writes: [fq] alone.
   */
  lemma TraitRegistrationBareInfo(s: RegistryState, t: Path, fq: string, impls: seq<string>, combos: seq<seq<Path>>,
                                  crateName: string)
    requires |combos| > 0 && combos[0] == []
    requires forall c :: 0 < c < |combos| ==> combos[c] != []
    ensures var r := RunPlan(s, TraitRegistration(t, fq, impls, combos, crateName), crateName);
            var bare := DynTrait(FqName(t, crateName), {});
            bare in r.typeInfo && r.typeInfo[bare] == TypeInfo(fq, [fq])
  {
    var r := TraitRegistration(t, fq, impls, combos, crateName);
    var ops := ToOps(r, crateName);
    var tail := AllComboCalls(t, fq, combos, crateName);
    var bare := DynTrait(FqName(t, crateName), {});
    TraitRegistrationComboCall(t, fq, impls, combos, crateName, 0, 1);
    assert FqNames([], crateName) == [];
    assert Image(FqOf(crateName), []) == {};
    assert ops[4] == RegisterTypeInfoOp(bare, fq, [fq]);
    forall k | 4 < k < |ops| ensures !(ops[k].RegisterTypeInfoOp? && ops[k].key == bare) {
      if ops[k].RegisterTypeInfoOp? {
        assert r[k] == tail[k - 3];
        var c := AllComboCallsInfoAt(t, fq, combos, crateName, k - 3);
        var x := combos[c][0];
        assert FqOf(crateName)(x) in Image(FqOf(crateName), combos[c]);
      }
    }
    LastInfoWins(s, ops, 4, bare, fq, [fq]);
  }

  /**
   * After `register_trait!` the entry of the bare `dyn ty` lists only its own fq name: the
   * empty combination re-registers `dyn ty` and replaces the list (with the markers) that the
   * header wrote.
   */
  lemma TraitPlanBareInfo(s: RegistryState, ty: Path, markerTraits: seq<Path>, crateName: string)
    ensures var r := RunPlan(s, TraitPlan(ty, markerTraits, crateName), crateName);
            var fq := FqName(ty, crateName);
            var bare := DynTrait(fq, {});
            bare in r.typeInfo && r.typeInfo[bare] == TypeInfo(fq, [fq])
  {
    var t := GlobalizePath(ty);
    var markers := Globalized(markerTraits);
    var fq := FqName(t, crateName);
    ResolveGlobalized(ty, crateName);
    SubsetsShape(markers);
    forall c | 0 < c < |Subsets(markers)| ensures Subsets(markers)[c] != [] {
      SubsetsNonEmpty(markers, c);
    }
    TraitRegistrationBareInfo(s, t, fq, [fq] + FqNames(markers, crateName), Subsets(markers), crateName);
  }
}
