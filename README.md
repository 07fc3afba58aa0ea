# ocaml-rs-smartptr, modelled in Dafny

`ocaml-rs-smartptr` lets a Rust value live behind a reference-counted `DynBox`
handle that OCaml code can hold. At run time the handle can be coerced into any
trait-object view registered for it beforehand. This project models the
crate's logic without locks, `unsafe` or OCaml runtime:

- **Coercion registry** (`registry.dfy`, module `CoercionRegistry`). The
  registry holds three tables:
  - (storage type, target) to a coercion pair;
  - type to display name;
  - type to `TypeInfo`.

  `Registry` is a class whose three `map` fields hold these tables. Each method
  is proved against a pure `RegistryState` function. The global wrappers take the
  single instance as a parameter. The `initialize_plugins` once-gate is a class
  with a boolean.
- **Registration macros**:
  - `macro_paths.dfy` covers path rewriting;
  - `combinations.dfy` covers the marker power set;
  - `generate.dfy` covers the emitted call plans of `register_type!` and
    `register_trait!`;
  - `macro_parse.dfy` covers the input parsers;
  - `plan_exec.dfy` covers what a plan does to the registry once it runs;
  - `macro_tests.dfy` covers the crate's own generation tests.

  Generated code is a sequence of call records rather than a token stream. A
  path is a segment sequence with a flag for the leading `::`.
- **Handle lifetime** (`ptr.dfy`, module `Ptr`). `SharedCell` is the `Arc`
  allocation. It has a strong count and records who holds each reference:
  Rust handles, raw pointers, or OCaml custom blocks. It also counts how often
  the payload was destroyed. Every method of `DynBox<T>` (`clone`, `into_raw`,
  `from_raw`, `to_value`, `from_value`, the finalizer, the constructors and
  `From` impls) states its exact effect on that ledger. A coercion handle owns
  a clone of the `Arc`, so it holds one reference until it is dropped.
  `ptr_tests.dfy` runs the crate's `test_error_boxing` against the model.
- **Name mangling** (`type_name.dfy`, `type_name_tests.dfy`). This is the
  string pipeline from a fully qualified Rust path to an OCaml
  polymorphic-variant tag.
- **OCaml declaration text** (`ocaml_gen_extras.dfy`). It covers:
  - type-parameter strings;
  - `insert_type_params`;
  - `WithTypeParams` descriptions and alias bindings;
  - the plugin selection, file naming and error path of `stubs_gen_main`.
- **Test animals** (`animals.dfy`). A `Sheep` carries a `naked` flag that
  `shear` sets. A `Wolf` never changes.

Shared pieces:

- `wrappers.dfy`: `Option` and `Result`.
- `text.dfy`: joining, substring search and ASCII case mapping.
- `types.dfy`: run-time type identities.
  - `TypeId` identifies a trait object by its principal trait and the *set* of
    its auto traits, so `dyn A + Send + Sync` and `dyn A + Sync + Send` are the
    same type, as in Rust.
  - `RustType` pairs a `TypeId` with the name `std::any::type_name` gives it.
    That name is a compiler intrinsic, so it is carried as data.

A Rust panic is modelled as an `Err` result carrying the panic message. Where
the source prints a line, the model returns that line.

## Model

| member | source | states |
|---|---|---|
| CoercionRegistry.NameIn | src/registry.rs:268-274 | the recorded display name of a key, or `<unregistered type>` when there is none |
| CoercionRegistry.AddCoercion | src/registry.rs:221-226 | `register::<In, Out>` stores one pair under both `(Mutex<In>, Out)` and `(RwLock<In>, Out)`; the pair is built with the name of `In`; every other entry of each table is unchanged |
| CoercionRegistry.AddType | src/registry.rs:368-375 | the global `register_type::<In>` records In's name under `In`, `Mutex<In>` and `RwLock<In>`; every other name and table is unchanged |
| CoercionRegistry.RunCoerceFn | src/registry.rs:186-218 | a closure succeeds iff the cell is `Mutex<In>` or `RwLock<In>`; the Mutex downcast is tried first, and an RwLock takes a read or write guard by access; any other container fails with the "unsupported container" message for that access |
| CoercionRegistry.LookupCoercion | src/registry.rs:238-257 | the stored pair iff (cell type, Out) is a key; otherwise the message naming the stored type and Out |
| CoercionRegistry.CoerceWith | src/registry.rs:238-310 | a success is only for a registered key, targets Out and borrows the payload; an unregistered key gives the lookup failure |
| CoercionRegistry.TypeInfoOf | src/registry.rs:321-332 | a stored `TypeInfo` is returned iff one is present; otherwise the failure message names the type |
| CoercionRegistry.ApplyOpsAppend | src/registry.rs:352-393 | issuing two batches of registrations equals issuing their concatenation |
| CoercionRegistry.ApplyOpsWellFormed | src/registry.rs:130-136 | registrations made through the public calls keep every coercion entry matched to its key |
| CoercionRegistry.CoerceSucceedsIffRegistered | src/registry.rs:238-310 | on a well-formed registry a coercion succeeds iff (cell type, Out) is registered; the handle then borrows the payload under the guard picked by flavour and access; a miss reports the stored type's name and Out's name |
| CoercionRegistry.AddCoercionIdempotent | src/registry.rs:134-135 | registering the same coercion twice equals registering it once |
| CoercionRegistry.AddTypeIdempotent | src/registry.rs:144-147 | registering the same type twice equals registering it once |
| CoercionRegistry.AddCoercionKeepsOtherLookups | src/registry.rs:221-226 | registering a coercion leaves the lookup of every other key unchanged |
| CoercionRegistry.Registry.constructor | src/registry.rs:121-123 | a new registry has three empty tables |
| CoercionRegistry.Registry.RegisterCoercionFns | src/registry.rs:130-136 | inserts one pair under `(In, Out)` |
| CoercionRegistry.Registry.RegisterTypeName | src/registry.rs:144-147 | inserts the name of `InReal` under the key of `In` |
| CoercionRegistry.Registry.RegisterTypeInfo | src/registry.rs:156-168 | inserts `TypeInfo(fq_name, implementations)` under the key of `In` |
| CoercionRegistry.Registry.Register | src/registry.rs:176-227 | the new state is `AddCoercion` of the old one |
| CoercionRegistry.Registry.TypeName | src/registry.rs:268-274 | the recorded name, or the placeholder for an absent key |
| CoercionRegistry.Registry.GetCoerceFns | src/registry.rs:238-257 | returns the pair iff the key is present; otherwise the message names the stored type and Out |
| CoercionRegistry.Registry.Coerce | src/registry.rs:285-293 | a read coercion, with the "coercion fn returned wrong type" check on the handle |
| CoercionRegistry.Registry.CoerceMut | src/registry.rs:304-310 | a write coercion, with the same check |
| CoercionRegistry.Registry.CoerceAccess | src/registry.rs:238-310 | lookup, then the closure, then the target check, for either access |
| CoercionRegistry.Registry.GetTypeInfo | src/registry.rs:321-332 | a copy of the stored entry iff one is present, else the failure naming the type |
| CoercionRegistry.RegisterType | src/registry.rs:368-375 | the global wrapper registers the name under the three keys |
| CoercionRegistry.Register | src/registry.rs:352-362 | the global wrapper for `register` |
| CoercionRegistry.RegisterTypeInfo | src/registry.rs:384-393 | the global wrapper for `register_type_info` |
| CoercionRegistry.Coerce | src/registry.rs:403-410 | the global read coercion |
| CoercionRegistry.CoerceMut | src/registry.rs:421-427 | the global write coercion |
| CoercionRegistry.GetTypeInfo | src/registry.rs:438-443 | the global `get_type_info` |
| CoercionRegistry.RunOps | src/registry.rs:446-472 | a plugin initializer's registrations, issued in order |
| CoercionRegistry.Plugins.constructor | src/registry.rs:446-472 | the plugin inventory, not yet initialized |
| CoercionRegistry.Plugins.InitializePlugins | src/registry.rs:475-485 | the first call runs every initializer in order, and later calls change nothing |
| Ptr.SharedCell.constructor | src/ptr.rs:105-113 | `Arc::new` makes one reference, held by the new handle, and nothing destroyed |
| Ptr.SharedCell.Acquire | src/ptr.rs:210-217 | one more reference, held by a new Rust handle |
| Ptr.SharedCell.Release | src/ptr.rs:316-323 | one fewer reference; the payload is destroyed exactly when the count reaches zero |
| Ptr.SharedCell.Leak | src/ptr.rs:178-180 | a handle's reference moves to a raw pointer, and the count is unchanged |
| Ptr.SharedCell.Reclaim | src/ptr.rs:182-187 | a raw pointer's reference moves back to a handle, and the count is unchanged |
| Ptr.SharedCell.HandOver | src/ptr.rs:357-364 | a raw pointer's reference becomes owned by an OCaml custom block |
| Ptr.SharedCell.TakeBack | src/ptr.rs:316-323 | the finalizer takes the block's reference back as a raw pointer |
| Ptr.SharedCell.SetPayload | src/ptr.rs:205-207 | a write through a guard changes the payload and nothing in the ledger |
| Ptr.NewCell | src/ptr.rs:105-174 | a fresh cell with one reference and the given run-time storage type |
| Ptr.NewExclusive | src/ptr.rs:105-113 | registers `T` and `Arc<T>`, then stores the value as `Mutex<T>` |
| Ptr.NewShared | src/ptr.rs:146-153 | registers `T` and `Arc<T>`, then stores the value as `RwLock<T>` |
| Ptr.NewExclusiveBoxed | src/ptr.rs:126-133 | registers `Box<T>` and `Arc<Box<T>>`, then stores the value as `Mutex<Box<T>>` |
| Ptr.NewSharedBoxed | src/ptr.rs:167-174 | registers `Box<T>` and `Arc<Box<T>>`, then stores the value as `RwLock<Box<T>>` |
| Ptr.FromValueOfT | src/ptr.rs:367-376 | `From<T>` always builds the exclusive (Mutex) flavour |
| Ptr.FromError | src/ptr.rs:219-227 | `From<E: Error>` builds an exclusive boxed `dyn std::error::Error + Send`, identified by the path the impl writes |
| Ptr.Clone | src/ptr.rs:210-217 | the same cell and logical type, with the count one higher and a new Rust handle |
| Ptr.Drop | src/ptr.rs:316-323 | the count one lower; the payload is destroyed only when the count reaches zero |
| Ptr.IntoRaw | src/ptr.rs:178-180 | the handle is consumed, its reference moves to the pointer, and the count is unchanged |
| Ptr.FromRaw | src/ptr.rs:182-187 | the pointer is consumed and exactly one handle is restored, of any logical type |
| Ptr.ToValue | src/ptr.rs:357-364 | the count is one higher, and the new reference is owned by the OCaml block |
| Ptr.FromValue | src/ptr.rs:339-350 | the count is one higher for the new Rust handle, and the block keeps its reference |
| Ptr.Finalizer | src/ptr.rs:316-323 | drops exactly the block's reference, whatever the logical type |
| Ptr.Coerce | src/ptr.rs:195-197 | a read coercion of the cell to the handle's logical type; a handle that succeeds holds one more strong reference (the cloned `Arc`), and a failure leaves the ledger as it was |
| Ptr.CoerceMut | src/ptr.rs:205-207 | a write coercion; the payload changes only when it succeeds, the handle then holds one more strong reference, and a failure leaves the ledger as it was |
| Ptr.DropHandle | src/registry.rs:186-220 | dropping a handle releases the `Arc` clone it owns; the payload is destroyed only with the last reference |
| Ptr.ToValueThenFinalize | src/ptr.rs:316-364 | handing a handle to OCaml and then finalizing the block leaves the ledger as it was |
| Ptr.RoundTripCoerce | src/ptr.rs:405-422 | `from_raw(into_raw(b))` and then `coerce` sees the original payload, and the ledger ends as it started |
| Ptr.MutationVisible | src/registry.rs:572-579 | a mutation made through `coerce_mut` is what a later `coerce` observes, on every registered key; with both handles dropped the ledger is back where it started |
| Ptr.DestroyedExactlyOnce | src/ptr.rs:316-364 | a value shared between a Rust handle, its clone and an OCaml block is destroyed once, when the block is finalized, and only then |
| PtrTests.ErrorPathNames | macro/src/lib.rs:305-312 | the fq names `register_trait!` computes for `std::error::Error` and `core::marker::Send` |
| PtrTests.ErrorSendRegistered | src/ptr.rs:424-429 | after `register_trait!({ty: std::error::Error, marker_traits: [core::marker::Send]})`, `Mutex<Box<dyn Error + Send>>` coerces to `dyn Error + Send` |
| PtrTests.RegisterErrorTrait | src/ptr.rs:424-429 | running that registration keeps the registry well formed and adds that coercion |
| PtrTests.ErrorSendCoerces | src/ptr.rs:424-440 | the coercion of the boxed error then succeeds and borrows the error itself |
| PtrTests.BoxAndSend | src/ptr.rs:430-436 | `error.into()` then `into_raw`: one reference, held by the raw pointer |
| PtrTests.ReceiveAndCoerce | src/ptr.rs:436-439 | `from_raw` and `coerce` see the original error; dropping the handle and the box destroys it exactly once |
| PtrTests.ErrorBoxing | src/ptr.rs:424-440 | `test_error_boxing` end to end: the coercion succeeds on the original error, and it is destroyed exactly once |
| MacroPaths.ResolvePath | macro/src/lib.rs:10-24 | a `crate` root becomes the crate name without a leading `::`; any other path gets a leading `::` and keeps its segments |
| MacroPaths.GlobalizePath | macro/src/lib.rs:26-36 | keeps the segments; adds a leading `::` unless the path is `crate`-rooted |
| MacroPaths.ResolveGlobalized | macro/src/lib.rs:10-43 | globalizing first does not change resolution or the fq name, and globalizing is idempotent |
| MacroPaths.StringifyPathShape | macro/src/lib.rs:38-43 | `stringify_path` is the rendered path without its leading `::`; it starts with the first segment and adds 2 characters of `::` per further segment |
| MacroPaths.FqNameShape | macro/src/lib.rs:38-43 | the fq name is `crate_name::rest` for a `crate`-rooted path, else the segments joined by `::` without a leading `::` |
| Combinations.SubsetsShape | macro/src/lib.rs:139-166 | k markers give exactly 2^k combinations, and the first one is empty |
| Combinations.SubsetsAreBitmasks | macro/src/lib.rs:144-163 | combination i holds exactly the markers at the set bits of i, in marker order |
| Combinations.SubsetsAreSubsequences | macro/src/lib.rs:148-158 | every combination is an order-preserving subsequence of the markers |
| Combinations.SubsetsWithin | macro/src/lib.rs:148-158 | every combination draws only on the markers |
| Combinations.SubsetsNonEmpty | macro/src/lib.rs:142-163 | only the first combination is empty |
| Combinations.SubsetsCover | macro/src/lib.rs:142-163 | every subset of the markers is some combination |
| Combinations.TwoMarkers | macro/src/lib.rs:467-504 | [M1, M2] gives [], [M1], [M2], [M1, M2] |
| Combinations.BoundsTextSnoc | macro/src/lib.rs:148-158 | the bound text is the paths joined by ` + `, with no leading `+` |
| Combinations.MarkerTraitCombinations | macro/src/lib.rs:139-166 | the doubling loop returns the 2^k combinations of `Subsets`, each with its bound text |
| Generate.FqNamesGlobalized | macro/src/lib.rs:61-74 | the implementations list names the same items whether or not the paths were globalized |
| Generate.AllTraitCallsLength | macro/src/lib.rs:98-119 | the per-trait part has \|I\| blocks of 1 + \|combos\| calls |
| Generate.AllTraitCallsAt | macro/src/lib.rs:98-119 | call c of trait j sits at offset j·(1 + \|combos\|) + c |
| Generate.AllTraitCallsAreRegister | macro/src/lib.rs:98-119 | every call of the per-trait part is a `register` from the type |
| Generate.RegisterCountAppend | macro/src/lib.rs:57-119 | the number of `register` calls adds up over concatenation |
| Generate.TypeRegistrationShape | macro/src/lib.rs:57-119 | `register_type`, then `register_type_info`, then the self-coercion, then 1 + \|combos\| registers per trait, all from `t` |
| Generate.TypeRegistrationTraitCall | macro/src/lib.rs:98-119 | the bare trait is call 0 of each block; combination c is call c + 1 |
| Generate.TypePlanHeader | macro/src/lib.rs:57-96 | the header calls; the implementations list is [fq of ty] ++ marker names ++ trait names in input order; the plan length is 3 + \|I\|·(1 + 2^k) |
| Generate.MarkerCombos | macro/src/lib.rs:107 | the combinations a registration iterates over: 2^k of them, the empty one first |
| Generate.TypePlanTraitCall | macro/src/lib.rs:91-119 | per trait in input order: the bare trait, then one per combination, starting with the empty one |
| Generate.TypePlanRepeatsBareTrait | macro/src/lib.rs:91-119 | each trait block registers its bare trait object twice |
| Generate.AllComboCallsAt | macro/src/lib.rs:337-374 | combination c owns the three calls at offsets 3c, 3c + 1 and 3c + 2 |
| Generate.TraitRegistrationComboCall | macro/src/lib.rs:337-374 | 3 + 3·\|combos\| calls; call k of combination c is its k-th call |
| Generate.TraitPlanHeader | macro/src/lib.rs:302-335 | `register_type`, `register_type_info` listing every marker, then the `Box` coercion of the bare `dyn Trait` |
| Generate.TraitPlanComboCalls | macro/src/lib.rs:337-374 | per combination: `register_type`, `register_type_info` with [fq] ++ its names, then the `Box` coercion |
| Generate.EmitTraitCalls | macro/src/lib.rs:98-119 | the inner loop emits the bare trait and then one call per combination |
| Generate.GenerateTypeRegistration | macro/src/lib.rs:46-122 | the loops of `generate_type_registration` emit exactly `TypePlan` |
| Generate.GenerateTraitRegistration | macro/src/lib.rs:294-377 | the loops of `generate_trait_registration` emit exactly `TraitPlan` |
| PlanExec.RegisteredAfterOps | src/registry.rs:221-226 | a key is in the coercion table after a batch iff it was before, or one of the batch's `register` calls stored it |
| PlanExec.TypeInfoUntouched | src/registry.rs:156-168 | only `register_type_info` touches the type-info table |
| PlanExec.CoercionsOnlyTouchTraits | src/registry.rs:176-227 | `register` calls leave the name and type-info tables unchanged |
| PlanExec.TypeRegistrationSound | macro/src/lib.rs:98-119 | every `register` of a type registration targets the type itself, or a trait object on one trait with marker bounds |
| PlanExec.TypeRegistrationComplete | macro/src/lib.rs:98-119 | every trait paired with every combination is registered |
| PlanExec.TypePlanCoercions | macro/src/lib.rs:46-122 | after `register_type!` a `ty` cell, in either flavour, coerces to exactly `ty` and each `dyn I + (subset of markers)`; other keys keep their presence |
| PlanExec.TypePlanCoerce | macro/src/lib.rs:46-122 | on a fresh registry the coercion succeeds exactly for those targets, borrowing the payload itself |
| PlanExec.TypePlanTables | macro/src/lib.rs:57-96 | records ty's fq name under three keys, plus one type-info entry [fq] ++ markers ++ traits; nothing else |
| PlanExec.TraitPlanCoercions | macro/src/lib.rs:294-377 | after `register_trait!`, a `Box<X>` cell coerces to `out` iff `X` is `out` and `out` is `dyn ty` plus some subset of the markers |
| PlanExec.TraitRegistrationSound | macro/src/lib.rs:337-374 | every `register` of a trait registration is some combination's `Box` coercion |
| PlanExec.LastInfoWins | src/registry.rs:161-167 | the last `register_type_info` for a key decides its entry |
| PlanExec.TraitPlanBareInfo | macro/src/lib.rs:302-374 | after `register_trait!` the entry of the bare `dyn ty` lists only its own fq name: the empty combination overwrites the header's list |
| MacroParse.CursorError | macro/src/lib.rs:245 | a cursor diagnostic is marked as raised at the end exactly when no token is left |
| MacroParse.ParseIdent | macro/src/lib.rs:244-257 | succeeds iff the next token is an identifier, and consumes it; otherwise `expected identifier`, at the end iff the stream is empty |
| MacroParse.SkipComma | macro/src/lib.rs:252-255 | skips a comma iff one is next |
| MacroParse.ParsePath | macro/src/lib.rs:225-242 | consumes a non-empty path, and the leading `::` flag matches the input |
| MacroParse.ParseNamedField | macro/src/lib.rs:244-257 | succeeds only on `name :` followed by a path, consuming input; fails with the identifier error (the only one that can carry the end-of-input prefix), a plain `Expected '<name>'` or a plain colon error |
| MacroParse.ParseNamedList | macro/src/lib.rs:259-274 | succeeds only on `name : [..]`, consuming input and yielding printable paths; the errors are the identifier or bracket ones (which alone can carry the end-of-input prefix), or a plain name, colon or comma one |
| MacroParse.ParseTerminated | macro/src/lib.rs:265 | the empty stream is the empty list; every parsed path is non-empty; errors are `expected identifier` or a plain `expected ,` |
| MacroParse.Braced | macro/src/lib.rs:228 | succeeds iff the next token is a brace group, yielding its content and what follows it; otherwise `expected curly braces`, at the end iff the input is empty |
| MacroParse.Finish | macro/src/lib.rs:127 | after the parser returns: success iff nothing is left inside the braces or after them, else `unexpected token` |
| MacroParse.ParseTypeRegisterInput | macro/src/lib.rs:225-242 | success only for a single brace group, with a non-empty `ty` and printable lists; every error is one of the parser's diagnostics |
| MacroParse.ParseTraitRegisterInput | macro/src/lib.rs:281-291 | the same for the two-field `register_trait!` input |
| MacroParse.PathRoundTrip | macro/src/lib.rs:225-242 | a path reads back from its tokens |
| MacroParse.ListRoundTrip | macro/src/lib.rs:259-274 | a comma-separated list reads back, with or without a trailing comma |
| MacroParse.FieldRoundTrip | macro/src/lib.rs:244-257 | `name: path` reads back, with or without its comma |
| MacroParse.ListFieldRoundTrip | macro/src/lib.rs:259-274 | `name: [..]` reads back, with or without either comma |
| MacroParse.WrongNameFails | macro/src/lib.rs:244-274 | both parsers fail with `Expected '<name>'` iff the leading identifier is a different one |
| MacroParse.TypeInputRoundTrip | macro/src/lib.rs:225-242 | the `register_type!` input reads back (compare the test at 679-717); any token after the braces gives `unexpected token` |
| MacroParse.TraitInputRoundTrip | macro/src/lib.rs:281-291 | the `register_trait!` input reads back; any token after the braces gives `unexpected token` |
| MacroParse.MissingTyRejected | macro/src/lib.rs:759-791 | a block not opening with `ty` fails with `Expected 'ty'`, whatever follows inside or after the braces: the content is parsed first |
| MacroParse.TypoBeforeTrailing | macro/src/lib.rs:225-232 | `{ typo: X } extra` reports `Expected 'ty'`, not the trailing token |
| MacroParse.EmptyInputDiagnostics | macro/src/lib.rs:225-232 | an empty invocation gives `expected curly braces` and empty braces give `expected identifier`, both with the end-of-input prefix |
| MacroParse.TraitInputEndsAfterTy | macro/src/lib.rs:281-291 | a `register_trait!` block that ends after `ty` gives `expected identifier` with the end-of-input prefix |
| MacroParse.TraitInputEndsAfterColon | macro/src/lib.rs:259-274 | a block that ends after `marker_traits:` gives `expected square brackets` with the end-of-input prefix |
| MacroTests.GlobalPlan | macro/src/lib.rs:576-669 | the exact call sequence for markers [Send, Sync] and one trait, `std::error::Error` |
| MacroTests.CratePlan | macro/src/lib.rs:406-574 | the exact call sequence for crate-local markers and two traits |
| TypeNames.FirstMatch | src/type_name.rs:6-13 | finds the leftmost match of `::(\w+)(<\|$)`, or reports that none exists |
| TypeNames.AfterLastColon | src/type_name.rs:6-13 | a colon-free suffix that follows the last `:`, or the whole string |
| TypeNames.ExtractTypeName | src/type_name.rs:6-13 | a colon-free slice of the input; a non-empty word when the pattern matches somewhere, else the text after the last `:` |
| TypeNames.Runs | src/type_name.rs:17-18 | every run is non-empty and free of `:` and `<`; there is none iff every character is one of those |
| TypeNames.IndexOf | src/type_name.rs:21-24 | the first index holding the element, or none iff it does not occur |
| TypeNames.GetTypeName | src/type_name.rs:55-58 | the core name of the registered fq name, or the `get_type_info` failure |
| TypeNames.CaptureSegments | src/type_name.rs:16-27 | the leading segments through the first one equal to the core name, or all of them; it fails iff there are none |
| TypeNames.ConvertToSnakeCase | src/type_name.rs:30-42 | the result has no uppercase letter |
| TypeNames.CapitalizeFirstLetter | src/type_name.rs:45-52 | same length; only the first character is uppercased |
| TypeNames.SnakeCaseOfFullyQualifiedName | src/type_name.rs:61-69 | fails iff there are no segments; otherwise non-empty, with no uppercase after index 0 |
| TypeNames.ExtractWithoutColon | src/type_name.rs:6-13 | a string without `:` is its own core name |
| TypeNames.ExtractWithoutGenerics | src/type_name.rs:6-13 | without `<`, the core name is the text after the last `:` |
| TypeNames.ExtractJoined | src/type_name.rs:6-13 | `a::b::c` has core name `c` |
| TypeNames.ExtractGeneric | src/type_name.rs:6-13 | with generics, the core name is the word between the last `::` and the first `<` |
| TypeNames.RunsOfJoin | src/type_name.rs:16-27 | `a::b::c` splits back into its segments |
| TypeNames.CaptureJoined | src/type_name.rs:16-27 | for `a::b::c`, the segments up to the first copy of the last one |
| TypeNames.SnakeOfLower | src/type_name.rs:30-42 | a string without uppercase letters is unchanged |
| TypeNames.SnakeIdempotent | src/type_name.rs:30-42 | snake-casing twice equals snake-casing once |
| TypeNames.SnakeLength | src/type_name.rs:30-42 | one `_` is inserted per uppercase letter after index 0 |
| TypeNames.SnakeCamelPair | src/type_name.rs:30-42 | `XyzUvw` becomes `xyz_uvw` |
| TypeNames.CapitalizeIdempotent | src/type_name.rs:45-52 | capitalising twice equals capitalising once |
| TypeNames.TagOfJoined | src/type_name.rs:61-69 | the tag of `a::b::c` (with `c` occurring once) is the capitalised join of the snake-cased segments |
| TypeNameTests.SendTag | src/type_name.rs:61-69 | `core::marker::Send` gives `Core_marker_send` |
| TypeNameTests.AnimalProxyTag | src/type_name.rs:61-69 | `ocaml_rs_smartptr_test::stubs::AnimalProxy` gives `Ocaml_rs_smartptr_test_stubs_animal_proxy` |
| OcamlGenExtras.ParamsString | src/ocaml_gen_extras.rs:60-97 | a lone `'c` for one parameter, otherwise `(` … `)` with 4 characters per parameter |
| OcamlGenExtras.ParamsCount | src/ocaml_gen_extras.rs:60-97 | equals the number of type variables |
| OcamlGenExtras.ParamsStringIsOCamlSyntax | src/ocaml_gen_extras.rs:60-97 | the string is the OCaml rendering of the parameter list |
| OcamlGenExtras.ParamsQuotes | src/ocaml_gen_extras.rs:60-97 | the string holds as many quotes as `params_count` |
| OcamlGenExtras.ParamsExamples | src/ocaml_gen_extras.rs:60-97 | `'c`, `('a, 'b)` and `('a, 'b, 'c)`, with counts 1, 2 and 3 |
| OcamlGenExtras.WithParamsDescribed | src/ocaml_gen_extras.rs:128-134 | the description is `(P D)`, and the unique id is the inner type's |
| OcamlGenExtras.WithParamsInserted | src/ocaml_gen_extras.rs:137-153 | fails iff `type nonrec ` does not occur; else prefix through the first occurrence ++ params ++ " " ++ rest |
| OcamlGenExtras.InsertTypeParams | src/ocaml_gen_extras.rs:137-153 | the step-by-step string build yields exactly that result |
| OcamlGenExtras.InsertedRemovable | src/ocaml_gen_extras.rs:143-149 | the output length is input + \|params\| + 1, and deleting the insertion recovers the input |
| OcamlGenExtras.InsertedKeepsAnchor | src/ocaml_gen_extras.rs:143-149 | the first `type nonrec ` of the output is where it was in the input |
| OcamlGenExtras.WithParamsBinding | src/ocaml_gen_extras.rs:159-184 | a new type inserts the params into T's declaration; an alias without a rename fails with the `ocaml_gen` bug message |
| OcamlGenExtras.AliasBindingText | src/ocaml_gen_extras.rs:171-183 | the alias text is `type nonrec P N = P (P D)` |
| OcamlGenExtras.MlFileName | src/ocaml_gen_extras.rs:358-370 | maps `-` to `_` at every index, uppercases the first character and appends `.ml` |
| OcamlGenExtras.MlFileNameCollision | src/ocaml_gen_extras.rs:358-370 | two lowercase-initial crate names give the same file iff they agree up to `-`/`_` |
| OcamlGenExtras.SelectedPlugins | src/ocaml_gen_extras.rs:344-346 | a plugin is generated iff the argument list is empty or holds its crate name, in the order of the given plugin sequence |
| OcamlGenExtras.AllSelectedWithoutArgs | src/ocaml_gen_extras.rs:344-346 | without arguments every plugin is generated |
| OcamlGenExtras.StubsOutcome | src/ocaml_gen_extras.rs:339-380 | at most one file per plugin; a failure only when some plugin panics |
| OcamlGenExtras.StubsOutcomeFails | src/ocaml_gen_extras.rs:347-356 | the run fails iff some selected plugin's generator panics |
| OcamlGenExtras.StubsOutcomeFiles | src/ocaml_gen_extras.rs:339-380 | on success, exactly one file per selected plugin, in order, holding its output |
| OcamlGenExtras.StubsOutcomeError | src/ocaml_gen_extras.rs:347-356 | on failure, the message names the first failing selected plugin |
| OcamlGenExtras.StubsGenMain | src/ocaml_gen_extras.rs:339-380 | the loop over the inventory computes exactly `StubsOutcome` |
| Animals.Sheep.New | test/src/animals.rs:40-42 | a new sheep is not naked and has the given name |
| Animals.Sheep.Noise | test/src/animals.rs:48-54 | `baaaaah?` when naked, `baaaaah!` otherwise |
| Animals.Sheep.Shear | test/src/animals.rs:25-34 | afterwards the sheep is naked and the name is unchanged; the line depends on whether it already was naked |
| Animals.Sheep.Talk | test/src/animals.rs:57-60 | the name, ` pauses briefly... `, then the noise |
| Animals.ShearTwice | test/src/animals.rs:25-34 | shearing a naked sheep changes nothing: it stays naked with the same name |
| Animals.Talk | test/src/animals.rs:10-12 | the default `talk`: the name, ` says `, then the noise |
| Animals.WolfTalks | test/src/animals.rs:70-80 | a wolf keeps its name and always says `rrrrrr!` |
| Animals.SheepTalks | test/src/animals.rs:57-60 | a new sheep's line ends in `baaaaah!`, a sheared one's in `baaaaah?` |
| Animals.SheepStory | test/src/animals.rs:25-54 | a new sheep says `baaaaah!`, and once sheared `baaaaah?` |

## Left out

- Locking and threads are not modelled. This covers `Mutex`/`RwLock` blocking, the deadlock hazard of holding a handle while registering (src/registry.rs:404), the `OnceLock` global registry, and `Once`. The model is sequential. A flavour is a tag, the global registry is a parameter, and the once-gate is a boolean.
- `owning_ref` handles, raw-pointer dereferences and `Any` downcasts are not modelled, and neither is address stability. A handle carries the payload and the guard kind. A downcast is a comparison of run-time type identities.
- The OCaml runtime is not modelled: custom blocks, the GC, boxroots, src/ml_box.rs, src/func.rs and src/callable.rs. The GC's ownership of a block is a set of tickets in the cell's ledger.
- The HighwayHash `unique_id` values are not modelled. They are foreign hashes with compile-time keys. `WithParamsDescribed` keeps the inner id as an opaque number.
- `ocaml_gen::Env` is not modelled: `DynBox::ocaml_binding` (src/ptr.rs:253-301), `ocaml_export!`, and the `add_alias` call in `WithTypeParams::ocaml_binding`. The inner type's declaration text and description are parameters.
- `std::any::type_name` and `TypeId` are compiler intrinsics. A type's name is data carried beside its identity. Type aliases are taken at face value.
- The proc-macro token machinery is reduced. A path has no generic arguments. A parse error is a `Diagnostic`: its message, and whether the parser's cursor raised it with nothing left to read. The messages are `expected identifier`, `` expected `:` ``, `` expected `,` ``, `expected curly braces`, `expected square brackets` and `unexpected token`; the macro's own is `Expected '<name>'`. A missing identifier, brace group or bracket group at the end of the input or of a group gets the prefix `unexpected end of input, `; the other messages never do. These texts follow the `syn` crate, which is not part of this model. `syn` reports the unread tokens of a group and the tokens after it with one message, and so does the model. `syn`'s rejection of keywords as identifiers is not modelled. The `Conversion`/`ConversionKind` parser is never populated and is not part of this model.
- The regex engine, Unicode `\w` and Unicode case mapping are not modelled. `\w` and `to_uppercase`/`to_lowercase` cover ASCII only.
- `stubs_gen_main` does I/O that is not modelled: `println!`, `File::create`/`write_all` and their I/O errors. The `env::args` are a parameter. Each plugin's generator output, or its panic, is a parameter. The call to `initialize_plugins` first is `Plugins.InitializePlugins`.
- A panic payload in the `stubs_gen_main` error is rendered as `Any { .. }`.
- `WithParamsBinding`: a missing `type nonrec ` in a new type's declaration returns the `insert_type_params` error, not the `unwrap` panic text.
- Combinations.Subsets, Generate.TypePlan, Generate.TraitPlan, MacroPaths.StringifyPath and MacroPaths.FqName are specification functions without a contract of their own; their properties are the lemmas in the table (`SubsetsShape` … `SubsetsCover`, `TypePlanHeader` … `TraitPlanComboCalls`, `StringifyPathShape`, `FqNameShape`). A contract on them would be repeated at every use inside the plan proofs.
- Ptr.FromError: `std::error::Error` and `core::error::Error` are one trait, re-exported. Type identities are paths taken at face value, so the id is the path the impl writes, while the display name follows `type_name`, which prints the defining crate.
- Generate.TypePlanRepeatsBareTrait: the count of distinct (In, Out) pairs, 1 + |I|·2^k, is not stated as a number. `PlanExec.TypePlanCoercions` characterises the registered key set instead.
- Ptr.MutationVisible: the concrete values of the source's test, `3` becoming `4` and `"four"` becoming `"four!"`, are not fixed. The lemma holds for any update function.
- Animals.Sheep.IsNaked, Animals.Sheep.Name, Animals.WolfName and Animals.Noise are plain field reads with no contract of their own. The lemmas and methods above state what they return.
- The animals' `talk` prints; here it returns the printed line. `shear` returns its printed line in the same way.
- Test binaries are not part of this model: test/bin/main.rs, test/bin/main2.rs, and the stub glue in test/src/stubs.rs, src/stubs.rs and src/lib.rs.
