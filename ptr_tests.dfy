/**
 * The `DynBox` tests of the core crate, run against the model: `register_trait!` for
 * `std::error::Error` with the marker `core::marker::Send`, then an error boxed through
 * `From<E: Error>`, sent through a raw pointer and coerced back (crate `ocaml_rs_smartptr`).
 */
module PtrTests {
  import opened Wrappers
  import opened Text
  import opened Types
  import opened CoercionRegistry
  import opened MacroPaths
  import opened Combinations
  import opened Generate
  import opened PlanExec
  import opened Ptr

  const CrateName := "ocaml_rs_smartptr"
  const StdErrorPath := Path(false, ["std", "error", "Error"])
  const SendPath := Path(false, ["core", "marker", "Send"])

  /** The registration `register_trait!({ty: std::error::Error, marker_traits: [core::marker::Send]})` expands to. */
  function ErrorTraitOps(): seq<RegOp>
  {
    ToOps(TraitPlan(StdErrorPath, [SendPath], CrateName), CrateName)
  }

  lemma ErrorPathNames()
    ensures FqName(StdErrorPath, CrateName) == "std::error::Error"
    ensures FqName(SendPath, CrateName) == "core::marker::Send"
  {
    JoinThree("std", "error", "Error", "::");
    assert "std" + "::" + "error" + "::" + "Error" == "std::error::Error";
    JoinThree("core", "marker", "Send", "::");
    assert "core" + "::" + "marker" + "::" + "Send" == "core::marker::Send";
  }

  /** After the trait registration, `Mutex<Box<dyn Error + Send>>` coerces to `dyn Error + Send`. */
  lemma ErrorSendRegistered(s: RegistryState)
    ensures (MutexOf(BoxOf(ErrorSend.id)), ErrorSend.id) in ApplyOps(s, ErrorTraitOps()).traits
  {
    ErrorPathNames();
    assert Image(FqOf(CrateName), [SendPath]) == {"core::marker::Send"} by {
      assert FqOf(CrateName)(SendPath) == "core::marker::Send";
    }
    TraitPlanCoercions(s, StdErrorPath, [SendPath], CrateName, Exclusive, BoxOf(ErrorSend.id), ErrorSend.id);
  }

  /** Running the trait registration on a registry (as the plugin initializer does). */
  method RegisterErrorTrait(r: Registry)
    requires WellFormed(r.State())
    modifies r
    ensures WellFormed(r.State()) && (MutexOf(BoxOf(ErrorSend.id)), ErrorSend.id) in r.traits
  {
    ghost var s := r.State();
    RunOps(r, ErrorTraitOps());
    ErrorSendRegistered(s);
    ApplyOpsWellFormed(s, ErrorTraitOps());
  }

  /** Under a well-formed registry holding the coercion, the boxed error coerces to itself. */
  lemma ErrorSendCoerces<V>(s: RegistryState, err: V)
    requires WellFormed(s) && (MutexOf(BoxOf(ErrorSend.id)), ErrorSend.id) in s.traits
    ensures var c := CoerceWith(s, Read, MutexOf(BoxOf(ErrorSend.id)), err, ErrorSend);
            c.Ok? && c.value.target == err && c.value.out == ErrorSend.id
  {
    CoerceSucceedsIffRegistered(s, Read, MutexOf(BoxOf(ErrorSend.id)), err, ErrorSend);
  }

  /** First half of `test_error_boxing`: box the error and leak the box into a raw pointer. */
  method BoxAndSend<V>(r: Registry, err: V) returns (p: RawPtr<V>)
    requires WellFormed(r.State()) && (MutexOf(BoxOf(ErrorSend.id)), ErrorSend.id) in r.traits
    modifies r
    ensures WellFormed(r.State()) && (MutexOf(BoxOf(ErrorSend.id)), ErrorSend.id) in r.traits
    ensures fresh(p.cell) && p.cell.Valid() && p.cell.storage == MutexOf(BoxOf(ErrorSend.id))
    ensures p.cell.payload == err && p.cell.Snapshot() == Ledger(1, {}, {p.ticket}, {}, 0)
  {
    var b := FromError(r, err);
    p := IntoRaw(b);
  }

  /**
   * Second half: take the pointer back as `DynBox<dyn Error + Send>`, coerce it, and drop
   * the handle and the box.
   */
  method ReceiveAndCoerce<V>(r: Registry, p: RawPtr<V>) returns (h: Handle<V>, final: Ledger)
    requires WellFormed(r.State()) && (MutexOf(BoxOf(ErrorSend.id)), ErrorSend.id) in r.traits
    requires p.cell.Valid() && p.cell.storage == MutexOf(BoxOf(ErrorSend.id))
    requires p.cell.Snapshot() == Ledger(1, {}, {p.ticket}, {}, 0)
    modifies p.cell
    ensures h.target == old(p.cell.payload) && h.out == ErrorSend.id
    ensures final == Ledger(0, {}, {}, {}, 1)
  {
    ErrorSendCoerces(r.State(), p.cell.payload);
    var back := FromRaw(p, ErrorSend);
    var g := Ptr.Coerce(r, back);
    h := g.value.handle;
    DropHandle(g.value);
    Drop(back);
    final := back.cell.Snapshot();
  }

  /**
   * `test_error_boxing`: the coercion of the round-tripped error succeeds and borrows the
   * original error; once the handle and the box are dropped, the error is destroyed exactly
   * once and no reference is left (`final`).
   */
  method ErrorBoxing<V>(r: Registry, err: V) returns (h: Result<Handle<V>, string>, final: Ledger)
    requires WellFormed(r.State())
    modifies r
    ensures h.Ok? && h.value.target == err && h.value.out == ErrorSend.id
    ensures final == Ledger(0, {}, {}, {}, 1)
  {
    RegisterErrorTrait(r);
    var p := BoxAndSend(r, err);
    var handle;
    handle, final := ReceiveAndCoerce(r, p);
    h := Ok(handle);
  }
}
