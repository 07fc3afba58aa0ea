/**
 * The coercion registry: three tables keyed by type identity, filled by registration calls
 * and read by coercions. `RegistryState` and the functions over it specify every operation;
 * the class `Registry` holds the tables as mutable fields and its methods are proved to
 * produce exactly the specified state.
 */
module CoercionRegistry {
  import opened Wrappers
  import opened Text
  import opened Types

  const UnregisteredName := "<unregistered type>"

  datatype Access = Read | Write

  /**
   * One registered closure: it downcasts an erased cell to `Mutex<inner>` or `RwLock<inner>`,
   * takes the matching lock and borrows the payload as `out`. `innerName` is the display name
   * of `inner` captured when the closure was built, used in its panic message.
   */
  datatype CoerceFn = CoerceFn(access: Access, inner: TypeId, out: TypeId, innerName: string)

  datatype CoercionPair = CoercionPair(read: CoerceFn, write: CoerceFn)

  datatype TypeInfo = TypeInfo(fqName: string, implementations: seq<string>)

  datatype Guard = MutexGuard | RwLockReadGuard | RwLockWriteGuard

  /** A held lock together with the payload borrowed as the target interface `out`. */
  datatype Handle<V> = Handle(out: TypeId, guard: Guard, target: V)

  datatype RegistryState = RegistryState(
    traits: map<(TypeId, TypeId), CoercionPair>,
    types: map<TypeId, string>,
    typeInfo: map<TypeId, TypeInfo>)

  function EmptyState(): RegistryState
  {
    RegistryState(map[], map[], map[])
  }

  /** `Registry::type_name`: the recorded display name, or a placeholder when absent. */
  function NameIn(s: RegistryState, key: TypeId): (name: string)
    ensures key in s.types ==> name == s.types[key]
    ensures key !in s.types ==> name == UnregisteredName
  {
    if key in s.types then s.types[key] else UnregisteredName
  }

  function PairFor(inner: TypeId, out: TypeId, innerName: string): CoercionPair
  {
    CoercionPair(CoerceFn(Read, inner, out, innerName), CoerceFn(Write, inner, out, innerName))
  }

  /** `Registry::register_coercion_fns`: map insert under `(inKey, outKey)`. */
  function InsertCoercion(s: RegistryState, inKey: TypeId, outKey: TypeId, fs: CoercionPair): RegistryState
  {
    s.(traits := s.traits[(inKey, outKey) := fs])
  }

  /** `Registry::register_type::<In, InReal>`: records the name of `InReal` under the key of `In`. */
  function InsertTypeName(s: RegistryState, key: TypeId, realName: string): RegistryState
  {
    s.(types := s.types[key := realName])
  }

  /** `Registry::register_type_info`. */
  function InsertTypeInfo(s: RegistryState, key: TypeId, fqName: string, impls: seq<string>): RegistryState
  {
    s.(typeInfo := s.typeInfo[key := TypeInfo(fqName, impls)])
  }

  /**
   * `Registry::register::<In, Out>`: one closure pair, stored under both storage flavours of
   * `In`; no other entry of any table changes.
   */
  function AddCoercion(s: RegistryState, inner: TypeId, out: TypeId): (r: RegistryState)
    ensures r.types == s.types && r.typeInfo == s.typeInfo
    ensures r.traits.Keys == s.traits.Keys + {(MutexOf(inner), out), (RwLockOf(inner), out)}
    ensures r.traits[(MutexOf(inner), out)] == PairFor(inner, out, NameIn(s, inner))
    ensures r.traits[(RwLockOf(inner), out)] == PairFor(inner, out, NameIn(s, inner))
    ensures forall k :: k in s.traits && k != (MutexOf(inner), out) && k != (RwLockOf(inner), out) ==>
                          r.traits[k] == s.traits[k]
  {
    var fs := PairFor(inner, out, NameIn(s, inner));
    InsertCoercion(InsertCoercion(s, MutexOf(inner), out, fs), RwLockOf(inner), out, fs)
  }

  /** The global `register_type::<In>`: the name of `In` under `In`, `Mutex<In>` and `RwLock<In>`. */
  function AddType(s: RegistryState, t: RustType): (r: RegistryState)
    ensures r.traits == s.traits && r.typeInfo == s.typeInfo
    ensures r.types.Keys == s.types.Keys + {t.id, MutexOf(t.id), RwLockOf(t.id)}
    ensures NameIn(r, t.id) == NameIn(r, MutexOf(t.id)) == NameIn(r, RwLockOf(t.id)) == t.name
    ensures forall k :: k != t.id && k != MutexOf(t.id) && k != RwLockOf(t.id) ==> NameIn(r, k) == NameIn(s, k)
  {
    InsertTypeName(InsertTypeName(InsertTypeName(s, t.id, t.name), MutexOf(t.id), t.name), RwLockOf(t.id), t.name)
  }

  function NoCoercionMessage(inName: string, outName: string): string
  {
    "there is no registered coercion for " + Debug(inName) + " => " + Debug(outName)
  }

  function UnsupportedContainerMessage(access: Access, innerName: string): string
  {
    match access
    case Read => "unsupported container provided for coersion (type: " + Debug(innerName) + ")"
    case Write => "unsupported container provided for mut coersion (type: " + Debug(innerName) + ")"
  }

  /** `Registry::get_coerce_fns`: exact-match lookup of (run-time cell type, requested `Out`). */
  function LookupCoercion(s: RegistryState, cellType: TypeId, out: RustType): (r: Result<CoercionPair, string>)
    ensures r.Ok? <==> (cellType, out.id) in s.traits
    ensures r.Ok? ==> r.value == s.traits[(cellType, out.id)]
    ensures r.Err? ==> r.error == NoCoercionMessage(NameIn(s, cellType), out.name)
  {
    if (cellType, out.id) in s.traits then Ok(s.traits[(cellType, out.id)])
    else Err(NoCoercionMessage(NameIn(s, cellType), out.name))
  }

  /**
   * Running one registered closure on a cell: the `Mutex` downcast is tried first, then the
   * `RwLock` one (read or write lock according to the closure); any other container panics.
   */
  function RunCoerceFn<V>(f: CoerceFn, cellType: TypeId, payload: V): (r: Result<Handle<V>, string>)
    ensures r.Ok? <==> cellType == MutexOf(f.inner) || cellType == RwLockOf(f.inner)
    ensures r.Ok? ==> r.value.out == f.out && r.value.target == payload
    ensures r.Ok? && cellType == MutexOf(f.inner) ==> r.value.guard == MutexGuard
    ensures r.Ok? && cellType != MutexOf(f.inner) ==>
              r.value.guard == (if f.access == Read then RwLockReadGuard else RwLockWriteGuard)
    ensures r.Err? ==> r.error == UnsupportedContainerMessage(f.access, f.innerName)
  {
    if cellType == MutexOf(f.inner) then Ok(Handle(f.out, MutexGuard, payload))
    else if cellType == RwLockOf(f.inner) then
      Ok(Handle(f.out, if f.access == Read then RwLockReadGuard else RwLockWriteGuard, payload))
    else Err(UnsupportedContainerMessage(f.access, f.innerName))
  }

  /** `Registry::coerce` (access `Read`) and `Registry::coerce_mut` (access `Write`). */
  function CoerceWith<V>(s: RegistryState, access: Access, cellType: TypeId, payload: V, out: RustType)
    : (r: Result<Handle<V>, string>)
    ensures r.Ok? ==> (cellType, out.id) in s.traits && r.value.out == out.id && r.value.target == payload
    ensures (cellType, out.id) !in s.traits ==> r == Err(NoCoercionMessage(NameIn(s, cellType), out.name))
  {
    match LookupCoercion(s, cellType, out)
    case Err(e) => Err(e)
    case Ok(fs) =>
      match RunCoerceFn(if access == Read then fs.read else fs.write, cellType, payload)
      case Err(e) => Err(e)
      case Ok(h) => if h.out == out.id then Ok(h) else Err("coercion fn returned wrong type")
  }

  /** `Registry::get_type_info`: a copy of the stored entry, or a panic naming the type. */
  function TypeInfoOf(s: RegistryState, t: RustType): (r: Result<TypeInfo, string>)
    ensures r.Ok? <==> t.id in s.typeInfo
    ensures r.Ok? ==> r.value == s.typeInfo[t.id]
    ensures r.Err? ==> r.error == "registry does not contain a registered type info for " + t.name
  {
    if t.id in s.typeInfo then Ok(s.typeInfo[t.id])
    else Err("registry does not contain a registered type info for " + t.name)
  }

  /** A registration call as a plugin initializer or a generated block issues it. */
  datatype RegOp =
    | RegisterTypeOp(t: RustType)
    | RegisterTypeInfoOp(key: TypeId, fqName: string, impls: seq<string>)
    | RegisterOp(inner: TypeId, out: TypeId)

  function ApplyOp(s: RegistryState, op: RegOp): RegistryState
  {
    match op
    case RegisterTypeOp(t) => AddType(s, t)
    case RegisterTypeInfoOp(key, fq, impls) => InsertTypeInfo(s, key, fq, impls)
    case RegisterOp(inner, out) => AddCoercion(s, inner, out)
  }

  /** The state after issuing `ops` in order. */
  function ApplyOps(s: RegistryState, ops: seq<RegOp>): RegistryState
    decreases |ops|
  {
    if |ops| == 0 then s else ApplyOp(ApplyOps(s, ops[..|ops| - 1]), ops[|ops| - 1])
  }

  /** The state after running every plugin initializer in order. */
  function ApplyPlugins(s: RegistryState, plugins: seq<seq<RegOp>>): RegistryState
    decreases |plugins|
  {
    if |plugins| == 0 then s else ApplyOps(ApplyPlugins(s, plugins[..|plugins| - 1]), plugins[|plugins| - 1])
  }

  /**
   * Every stored pair was built for its key: the key's storage type is one of the two flavours
   * of the closures' `inner`, and both closures produce the key's `Out`.
   */
  ghost predicate WellFormed(s: RegistryState)
  {
    forall k | k in s.traits ::
      var fs := s.traits[k];
      && (k.0 == MutexOf(fs.read.inner) || k.0 == RwLockOf(fs.read.inner))
      && fs.read.access == Read && fs.write.access == Write
      && fs.write.inner == fs.read.inner
      && fs.read.out == k.1 && fs.write.out == k.1
  }

  lemma {:induction false} ApplyOpsAppend(s: RegistryState, a: seq<RegOp>, b: seq<RegOp>)
    ensures ApplyOps(s, a + b) == ApplyOps(ApplyOps(s, a), b)
    decreases |b|
  {
    if |b| == 0 {
      assert a + b == a;
    } else {
      assert (a + b)[..|a + b| - 1] == a + b[..|b| - 1];
      ApplyOpsAppend(s, a, b[..|b| - 1]);
    }
  }

  /** Registrations issued through the public calls keep every entry well formed. */
  lemma {:induction false} ApplyOpsWellFormed(s: RegistryState, ops: seq<RegOp>)
    requires WellFormed(s)
    ensures WellFormed(ApplyOps(s, ops))
    decreases |ops|
  {
    if |ops| > 0 {
      ApplyOpsWellFormed(s, ops[..|ops| - 1]);
      ApplyOpWellFormed(ApplyOps(s, ops[..|ops| - 1]), ops[|ops| - 1]);
    }
  }

  /** Each operation keeps every stored pair built for its key. */
  lemma ApplyOpWellFormed(s: RegistryState, op: RegOp)
    requires WellFormed(s)
    ensures WellFormed(ApplyOp(s, op))
  {
    match op
    case RegisterTypeOp(t) =>
    case RegisterTypeInfoOp(key, fq, impls) =>
    case RegisterOp(inner, out) => AddCoercionWellFormed(s, inner, out);
  }

  lemma AddCoercionWellFormed(s: RegistryState, inner: TypeId, out: TypeId)
    requires WellFormed(s)
    ensures WellFormed(AddCoercion(s, inner, out))
  {
  }

  /**
   * On a well-formed registry a coercion succeeds exactly when the pair (cell type, `Out`) was
   * registered; the handle then borrows the payload under the lock its flavour and access pick.
   * On a miss the diagnostic names the stored type and the requested `Out`.
   */
  lemma CoerceSucceedsIffRegistered<V>(s: RegistryState, access: Access, cellType: TypeId, payload: V, out: RustType)
    requires WellFormed(s)
    ensures CoerceWith(s, access, cellType, payload, out).Ok? <==> (cellType, out.id) in s.traits
    ensures CoerceWith(s, access, cellType, payload, out).Ok? ==>
              var h := CoerceWith(s, access, cellType, payload, out).value;
              && h.target == payload && h.out == out.id
              && h.guard == (if cellType.MutexOf? then MutexGuard
                             else if access == Read then RwLockReadGuard else RwLockWriteGuard)
    ensures (cellType, out.id) !in s.traits ==>
              CoerceWith(s, access, cellType, payload, out)
                == Err(NoCoercionMessage(NameIn(s, cellType), out.name))
  {
    if (cellType, out.id) in s.traits {
      var fs := s.traits[(cellType, out.id)];
      assert fs.read.inner == fs.write.inner;
    }
  }

  /** Registering the same coercion twice is the same as registering it once. */
  lemma AddCoercionIdempotent(s: RegistryState, inner: TypeId, out: TypeId)
    ensures AddCoercion(AddCoercion(s, inner, out), inner, out) == AddCoercion(s, inner, out)
  {
    var once := AddCoercion(s, inner, out);
    var twice := AddCoercion(once, inner, out);
    assert NameIn(once, inner) == NameIn(s, inner);
    assert twice.traits == once.traits;
  }

  lemma AddTypeIdempotent(s: RegistryState, t: RustType)
    ensures AddType(AddType(s, t), t) == AddType(s, t)
  {
    assert AddType(AddType(s, t), t).types == AddType(s, t).types;
  }

  /** Registering a coercion with another key leaves an existing entry's lookup untouched. */
  lemma AddCoercionKeepsOtherLookups<V>(s: RegistryState, inner: TypeId, out: TypeId, cellType: TypeId, req: RustType)
    requires (cellType, req.id) != (MutexOf(inner), out) && (cellType, req.id) != (RwLockOf(inner), out)
    ensures LookupCoercion(AddCoercion(s, inner, out), cellType, req) == LookupCoercion(s, cellType, req)
  {
  }

  /** The mutable registry. Fields are the three maps of the source's `Registry`. */
  class Registry {
    var traits: map<(TypeId, TypeId), CoercionPair>
    var types: map<TypeId, string>
    var typeInfoMap: map<TypeId, TypeInfo>

    function State(): RegistryState
      reads this
    {
      RegistryState(traits, types, typeInfoMap)
    }

    constructor ()
      ensures State() == EmptyState()
    {
      traits, types, typeInfoMap := map[], map[], map[];
    }

    method RegisterCoercionFns(inKey: TypeId, outKey: TypeId, fs: CoercionPair)
      modifies this
      ensures State() == InsertCoercion(old(State()), inKey, outKey, fs)
    {
      traits := traits[(inKey, outKey) := fs];
    }

    /** `Registry::register_type::<In, InReal>` with `key` = `In` and `realName` = the name of `InReal`. */
    method RegisterTypeName(key: TypeId, realName: string)
      modifies this
      ensures State() == InsertTypeName(old(State()), key, realName)
    {
      types := types[key := realName];
    }

    method RegisterTypeInfo(key: TypeId, fqName: string, impls: seq<string>)
      modifies this
      ensures State() == InsertTypeInfo(old(State()), key, fqName, impls)
    {
      typeInfoMap := typeInfoMap[key := TypeInfo(fqName, impls)];
    }

    method Register(inner: TypeId, out: TypeId)
      modifies this
      ensures State() == AddCoercion(old(State()), inner, out)
    {
      var typeInName := TypeName(inner);
      var fs := PairFor(inner, out, typeInName);
      RegisterCoercionFns(MutexOf(inner), out, fs);
      RegisterCoercionFns(RwLockOf(inner), out, fs);
    }

    method TypeName(key: TypeId) returns (name: string)
      ensures key in types ==> name == types[key]
      ensures key !in types ==> name == UnregisteredName
    {
      if key in types {
        name := types[key];
      } else {
        name := UnregisteredName;
      }
    }

    method GetCoerceFns(cellType: TypeId, out: RustType) returns (r: Result<CoercionPair, string>)
      ensures r.Ok? <==> (cellType, out.id) in traits
      ensures r.Ok? ==> r.value == traits[(cellType, out.id)]
      ensures r.Err? ==> r.error == NoCoercionMessage(NameIn(State(), cellType), out.name)
    {
      var typeInName := TypeName(cellType);
      if (cellType, out.id) in traits {
        r := Ok(traits[(cellType, out.id)]);
      } else {
        r := Err(NoCoercionMessage(typeInName, out.name));
      }
    }

    method Coerce<V>(cellType: TypeId, payload: V, out: RustType) returns (r: Result<Handle<V>, string>)
      ensures r == CoerceWith(State(), Read, cellType, payload, out)
    {
      r := CoerceAccess(Read, cellType, payload, out);
    }

    method CoerceMut<V>(cellType: TypeId, payload: V, out: RustType) returns (r: Result<Handle<V>, string>)
      ensures r == CoerceWith(State(), Write, cellType, payload, out)
    {
      r := CoerceAccess(Write, cellType, payload, out);
    }

    /** Shared body of `Coerce` and `CoerceMut`: look up, run the closure, check the handle type. */
    method CoerceAccess<V>(access: Access, cellType: TypeId, payload: V, out: RustType)
      returns (r: Result<Handle<V>, string>)
      ensures r == CoerceWith(State(), access, cellType, payload, out)
    {
      var fns := GetCoerceFns(cellType, out);
      if fns.Err? {
        return Err(fns.error);
      }
      var f := if access == Read then fns.value.read else fns.value.write;
      var h := RunCoerceFn(f, cellType, payload);
      if h.Err? {
        return Err(h.error);
      }
      if h.value.out == out.id {
        r := h;
      } else {
        r := Err("coercion fn returned wrong type");
      }
    }

    method GetTypeInfo(t: RustType) returns (r: Result<TypeInfo, string>)
      ensures r.Ok? <==> t.id in typeInfoMap
      ensures r.Ok? ==> r.value == typeInfoMap[t.id]
      ensures r.Err? ==> r.error == "registry does not contain a registered type info for " + t.name
    {
      if t.id in typeInfoMap {
        r := Ok(typeInfoMap[t.id]);
      } else {
        r := Err("registry does not contain a registered type info for " + t.name);
      }
    }
  }

  // The process-wide functions. The single global instance behind its lock is passed in
  // explicitly as `r`.

  method RegisterType(r: Registry, t: RustType)
    modifies r
    ensures r.State() == AddType(old(r.State()), t)
  {
    r.RegisterTypeName(t.id, t.name);
    r.RegisterTypeName(MutexOf(t.id), t.name);
    r.RegisterTypeName(RwLockOf(t.id), t.name);
  }

  method Register(r: Registry, inner: TypeId, out: TypeId)
    modifies r
    ensures r.State() == AddCoercion(old(r.State()), inner, out)
  {
    r.Register(inner, out);
  }

  method RegisterTypeInfo(r: Registry, key: TypeId, fqName: string, impls: seq<string>)
    modifies r
    ensures r.State() == InsertTypeInfo(old(r.State()), key, fqName, impls)
  {
    r.RegisterTypeInfo(key, fqName, impls);
  }

  method Coerce<V>(r: Registry, cellType: TypeId, payload: V, out: RustType) returns (h: Result<Handle<V>, string>)
    ensures h == CoerceWith(r.State(), Read, cellType, payload, out)
  {
    h := r.Coerce(cellType, payload, out);
  }

  method CoerceMut<V>(r: Registry, cellType: TypeId, payload: V, out: RustType) returns (h: Result<Handle<V>, string>)
    ensures h == CoerceWith(r.State(), Write, cellType, payload, out)
  {
    h := r.CoerceMut(cellType, payload, out);
  }

  method GetTypeInfo(r: Registry, t: RustType) returns (info: Result<TypeInfo, string>)
    ensures info == TypeInfoOf(r.State(), t)
  {
    info := r.GetTypeInfo(t);
  }

  /** Issues `ops` in order against `r`, as a plugin initializer does. */
  method RunOps(r: Registry, ops: seq<RegOp>)
    modifies r
    ensures r.State() == ApplyOps(old(r.State()), ops)
  {
    for i := 0 to |ops|
      invariant r.State() == ApplyOps(old(r.State()), ops[..i])
    {
      assert ops[..i + 1][..i] == ops[..i];
      match ops[i]
      case RegisterTypeOp(t) => RegisterType(r, t);
      case RegisterTypeInfoOp(key, fq, impls) => RegisterTypeInfo(r, key, fq, impls);
      case RegisterOp(inner, out) => Register(r, inner, out);
    }
    assert ops[..|ops|] == ops;
  }

  /** The plugin inventory behind the `initialize_plugins` once-gate. */
  class Plugins {
    const initializers: seq<seq<RegOp>>
    var initialized: bool

    constructor (initializers: seq<seq<RegOp>>)
      ensures this.initializers == initializers && !initialized
    {
      this.initializers := initializers;
      initialized := false;
    }

    /** Runs every plugin initializer the first time it is called, and does nothing afterwards. */
    method InitializePlugins(r: Registry)
      modifies this, r
      ensures initialized
      ensures r.State() == if old(initialized) then old(r.State()) else ApplyPlugins(old(r.State()), initializers)
    {
      if !initialized {
        for i := 0 to |initializers|
          invariant r.State() == ApplyPlugins(old(r.State()), initializers[..i])
        {
          assert initializers[..i + 1][..i] == initializers[..i];
          RunOps(r, initializers[i]);
        }
        assert initializers[..|initializers|] == initializers;
        initialized := true;
      }
    }
  }
}
