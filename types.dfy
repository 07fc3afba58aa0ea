/** Run-time type identities as the registry sees them (`std::any::TypeId`). */
module Types {

  /**
   * The identity of a Rust type. `DynTrait` keeps its auto traits as a set: `dyn A + Send + Sync`
   * and `dyn A + Sync + Send` are one type. `MutexOf` and `RwLockOf` are the two storage flavours
   * of a cell; `BoxOf` and `ArcOf` the indirections the handle registers.
   */
  datatype TypeId =
    | Nominal(path: string)
    | DynTrait(principal: string, autoTraits: set<string>)
    | MutexOf(inner: TypeId)
    | RwLockOf(inner: TypeId)
    | BoxOf(inner: TypeId)
    | ArcOf(inner: TypeId)

  /** A type identity together with its display name (`std::any::type_name`). */
  datatype RustType = RustType(id: TypeId, name: string)

  /** The interior-mutability discipline of a cell: `Mutex` (exclusive) or `RwLock` (shared). */
  datatype Flavour = Exclusive | Shared

  function Container(f: Flavour, inner: TypeId): TypeId
  {
    match f
    case Exclusive => MutexOf(inner)
    case Shared => RwLockOf(inner)
  }

  function ArcType(t: RustType): RustType
  {
    RustType(ArcOf(t.id), "alloc::sync::Arc<" + t.name + ">")
  }

  function BoxType(t: RustType): RustType
  {
    RustType(BoxOf(t.id), "alloc::boxed::Box<" + t.name + ">")
  }
}
