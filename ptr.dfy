/**
 * The `DynBox` handle: a shared, reference-counted cell whose references are held by Rust
 * handles, by raw pointers in transit, and by OCaml custom blocks. The cell keeps a ledger of
 * every outstanding reference (one ticket per reference), so each operation's effect on the
 * strong count is stated together with who holds the reference it adds or removes.
 */
module Ptr {
  import opened Wrappers
  import opened Types
  import opened CoercionRegistry

  /** Who holds the references of a cell, and how often its payload has been destroyed. */
  datatype Ledger = Ledger(strong: nat, rust: set<nat>, raw: set<nat>, foreign: set<nat>, destructorRuns: nat)

  /** The `Arc` allocation holding `Mutex<T>` or `RwLock<T>`; `storage` is its run-time type. */
  class SharedCell<V> {
    const storage: TypeId
    var payload: V
    var strong: nat
    var rustHandles: set<nat>
    var rawPointers: set<nat>
    var foreignOwned: set<nat>
    var nextTicket: nat
    var destructorRuns: nat

    function Snapshot(): Ledger
      reads this
    {
      Ledger(strong, rustHandles, rawPointers, foreignOwned, destructorRuns)
    }

    /**
     * The strong count is the number of outstanding references, no reference is held twice,
     * and the payload has been destroyed once exactly when no reference is left.
     */
    ghost predicate Valid()
      reads this
    {
      && strong == |rustHandles| + |rawPointers| + |foreignOwned|
      && rustHandles !! rawPointers && rustHandles !! foreignOwned && rawPointers !! foreignOwned
      && (forall t | t in rustHandles :: t < nextTicket)
      && (forall t | t in rawPointers :: t < nextTicket)
      && (forall t | t in foreignOwned :: t < nextTicket)
      && destructorRuns == (if strong == 0 then 1 else 0)
    }

    /** `Arc::new`: one reference, held by the new Rust handle (ticket 0). */
    constructor (storage: TypeId, payload: V)
      ensures Valid() && this.storage == storage && this.payload == payload
      ensures Snapshot() == Ledger(1, {0}, {}, {}, 0)
    {
      this.storage := storage;
      this.payload := payload;
      strong := 1;
      rustHandles := {0};
      rawPointers := {};
      foreignOwned := {};
      nextTicket := 1;
      destructorRuns := 0;
    }

    /** `Arc::clone`: a new reference, held by a new Rust handle. */
    method Acquire() returns (t: nat)
      requires Valid() && strong > 0
      modifies this
      ensures Valid() && payload == old(payload)
      ensures t !in old(rustHandles + rawPointers + foreignOwned)
      ensures Snapshot() == old(Snapshot()).(strong := old(strong) + 1, rust := old(rustHandles) + {t})
    {
      t := nextTicket;
      assert t !in rustHandles && t !in rawPointers && t !in foreignOwned;
      nextTicket := nextTicket + 1;
      rustHandles := rustHandles + {t};
      strong := strong + 1;
    }

    /** Dropping a Rust handle; the payload is destroyed when the last reference goes. */
    method Release(t: nat)
      requires Valid() && t in rustHandles
      modifies this
      ensures Valid() && payload == old(payload)
      ensures Snapshot() == old(Snapshot()).(strong := old(strong) - 1, rust := old(rustHandles) - {t},
                                             destructorRuns := old(destructorRuns) + (if old(strong) == 1 then 1 else 0))
    {
      rustHandles := rustHandles - {t};
      strong := strong - 1;
      if strong == 0 {
        destructorRuns := destructorRuns + 1;
      }
    }

    /** `Arc::into_raw`: the handle's reference moves to a raw pointer; the count is unchanged. */
    method Leak(t: nat)
      requires Valid() && t in rustHandles
      modifies this
      ensures Valid() && payload == old(payload)
      ensures Snapshot() == old(Snapshot()).(rust := old(rustHandles) - {t}, raw := old(rawPointers) + {t})
    {
      rustHandles := rustHandles - {t};
      rawPointers := rawPointers + {t};
    }

    /** `Arc::from_raw`: a raw pointer's reference moves back into a Rust handle. */
    method Reclaim(t: nat)
      requires Valid() && t in rawPointers
      modifies this
      ensures Valid() && payload == old(payload)
      ensures Snapshot() == old(Snapshot()).(rust := old(rustHandles) + {t}, raw := old(rawPointers) - {t})
    {
      rawPointers := rawPointers - {t};
      rustHandles := rustHandles + {t};
    }

    /** Storing a raw pointer in an OCaml custom block: the reference is now the GC's. */
    method HandOver(t: nat)
      requires Valid() && t in rawPointers
      modifies this
      ensures Valid() && payload == old(payload)
      ensures Snapshot() == old(Snapshot()).(raw := old(rawPointers) - {t}, foreign := old(foreignOwned) + {t})
    {
      rawPointers := rawPointers - {t};
      foreignOwned := foreignOwned + {t};
    }

    /** Reading the raw pointer back out of a custom block that is being finalized. */
    method TakeBack(t: nat)
      requires Valid() && t in foreignOwned
      modifies this
      ensures Valid() && payload == old(payload)
      ensures Snapshot() == old(Snapshot()).(raw := old(rawPointers) + {t}, foreign := old(foreignOwned) - {t})
    {
      foreignOwned := foreignOwned - {t};
      rawPointers := rawPointers + {t};
    }

    method SetPayload(v: V)
      modifies this
      ensures payload == v && Snapshot() == old(Snapshot()) && nextTicket == old(nextTicket)
    {
      payload := v;
    }
  }

  /** A Rust-side `DynBox<T>`: one reference to `cell`; `logical` is the phantom `T`. */
  datatype DynBox<V> = DynBox(cell: SharedCell<V>, ticket: nat, logical: RustType)

  /**
   * A handle returned by `coerce` or `coerce_mut`: the registry's handle and the `DynArc`
   * clone (reference `ticket` of `cell`) that it owns while it lives.
   */
  datatype HeldHandle<V> = HeldHandle(handle: Handle<V>, cell: SharedCell<V>, ticket: nat)

  /** The pointer produced by `into_raw`. */
  datatype RawPtr<V> = RawPtr(cell: SharedCell<V>, ticket: nat)

  /** An OCaml value: a custom block holding a `RustyObj` raw pointer. */
  datatype MlValue<V> = MlValue(cell: SharedCell<V>, ticket: nat)

  ghost predicate Live<V>(b: DynBox<V>)
    reads b.cell
  {
    b.cell.Valid() && b.ticket in b.cell.rustHandles
  }

  /**
   * The logical type of the boxed error values built by `From<E: Error>`: identified by the
   * path the impl writes, `dyn std::error::Error + Send`; `type_name` prints the trait under
   * its defining crate.
   */
  const ErrorSend := RustType(DynTrait("std::error::Error", {"core::marker::Send"}),
                              "dyn core::error::Error + core::marker::Send")

  /** The placeholder logical type the finalizer reconstructs the handle with. */
  const I32 := RustType(Nominal("i32"), "i32")

  method NewCell<V>(storage: TypeId, value: V, logical: RustType) returns (b: DynBox<V>)
    ensures fresh(b.cell) && Live(b) && b.logical == logical
    ensures b.cell.storage == storage && b.cell.payload == value
    ensures b.cell.Snapshot() == Ledger(1, {b.ticket}, {}, {}, 0)
  {
    var cell := new SharedCell(storage, value);
    b := DynBox(cell, 0, logical);
  }

  /** `DynBox::new_exclusive`: registers `T` and `Arc<T>`, then wraps the value in a `Mutex`. */
  method NewExclusive<V>(r: Registry, t: RustType, value: V) returns (b: DynBox<V>)
    modifies r
    ensures r.State() == AddType(AddType(old(r.State()), t), ArcType(t))
    ensures fresh(b.cell) && Live(b) && b.logical == t
    ensures b.cell.storage == MutexOf(t.id) && b.cell.payload == value
    ensures b.cell.Snapshot() == Ledger(1, {b.ticket}, {}, {}, 0)
  {
    RegisterType(r, t);
    RegisterType(r, ArcType(t));
    b := NewCell(Container(Exclusive, t.id), value, t);
  }

  /** `DynBox::new_shared`: registers `T` and `Arc<T>`, then wraps the value in an `RwLock`. */
  method NewShared<V>(r: Registry, t: RustType, value: V) returns (b: DynBox<V>)
    modifies r
    ensures r.State() == AddType(AddType(old(r.State()), t), ArcType(t))
    ensures fresh(b.cell) && Live(b) && b.logical == t
    ensures b.cell.storage == RwLockOf(t.id) && b.cell.payload == value
    ensures b.cell.Snapshot() == Ledger(1, {b.ticket}, {}, {}, 0)
  {
    RegisterType(r, t);
    RegisterType(r, ArcType(t));
    b := NewCell(Container(Shared, t.id), value, t);
  }

  /** `DynBox::new_exclusive_boxed`: the cell holds `Mutex<Box<T>>`; `Box<T>` and `Arc<Box<T>>` are registered. */
  method NewExclusiveBoxed<V>(r: Registry, t: RustType, value: V) returns (b: DynBox<V>)
    modifies r
    ensures r.State() == AddType(AddType(old(r.State()), BoxType(t)), ArcType(BoxType(t)))
    ensures fresh(b.cell) && Live(b) && b.logical == t
    ensures b.cell.storage == MutexOf(BoxOf(t.id)) && b.cell.payload == value
    ensures b.cell.Snapshot() == Ledger(1, {b.ticket}, {}, {}, 0)
  {
    RegisterType(r, BoxType(t));
    RegisterType(r, ArcType(BoxType(t)));
    b := NewCell(Container(Exclusive, BoxOf(t.id)), value, t);
  }

  /** `DynBox::new_shared_boxed`: the cell holds `RwLock<Box<T>>`. */
  method NewSharedBoxed<V>(r: Registry, t: RustType, value: V) returns (b: DynBox<V>)
    modifies r
    ensures r.State() == AddType(AddType(old(r.State()), BoxType(t)), ArcType(BoxType(t)))
    ensures fresh(b.cell) && Live(b) && b.logical == t
    ensures b.cell.storage == RwLockOf(BoxOf(t.id)) && b.cell.payload == value
    ensures b.cell.Snapshot() == Ledger(1, {b.ticket}, {}, {}, 0)
  {
    RegisterType(r, BoxType(t));
    RegisterType(r, ArcType(BoxType(t)));
    b := NewCell(Container(Shared, BoxOf(t.id)), value, t);
  }

  /** `From<T> for DynBox<T>`: always the exclusive flavour. */
  method FromValueOfT<V>(r: Registry, t: RustType, value: V) returns (b: DynBox<V>)
    modifies r
    ensures r.State() == AddType(AddType(old(r.State()), t), ArcType(t))
    ensures fresh(b.cell) && Live(b) && b.logical == t
    ensures b.cell.storage == MutexOf(t.id) && b.cell.payload == value
    ensures b.cell.Snapshot() == Ledger(1, {b.ticket}, {}, {}, 0)
  {
    b := NewExclusive(r, t, value);
  }

  /** `From<E: Error> for DynBox<dyn Error + Send>`: the error is boxed and stored exclusively. */
  method FromError<V>(r: Registry, err: V) returns (b: DynBox<V>)
    modifies r
    ensures r.State() == AddType(AddType(old(r.State()), BoxType(ErrorSend)), ArcType(BoxType(ErrorSend)))
    ensures fresh(b.cell) && Live(b) && b.logical == ErrorSend
    ensures b.cell.storage == MutexOf(BoxOf(ErrorSend.id)) && b.cell.payload == err
    ensures b.cell.Snapshot() == Ledger(1, {b.ticket}, {}, {}, 0)
  {
    b := NewExclusiveBoxed(r, ErrorSend, err);
  }

  /** `DynBox::clone`: same cell, same logical type, one more Rust-held reference. */
  method Clone<V>(b: DynBox<V>) returns (c: DynBox<V>)
    requires Live(b)
    modifies b.cell
    ensures Live(b) && Live(c) && c.cell == b.cell && c.logical == b.logical
    ensures c.ticket != b.ticket && c.ticket !in old(b.cell.rawPointers + b.cell.foreignOwned)
    ensures b.cell.payload == old(b.cell.payload)
    ensures b.cell.Snapshot() == old(b.cell.Snapshot()).(strong := old(b.cell.strong) + 1,
                                                        rust := old(b.cell.rustHandles) + {c.ticket})
  {
    var t := b.cell.Acquire();
    c := DynBox(b.cell, t, b.logical);
  }

  /** Dropping a `DynBox`. */
  method Drop<V>(b: DynBox<V>)
    requires Live(b)
    modifies b.cell
    ensures b.cell.Valid() && b.cell.payload == old(b.cell.payload)
    ensures b.cell.Snapshot() == old(b.cell.Snapshot()).(strong := old(b.cell.strong) - 1,
                                                        rust := old(b.cell.rustHandles) - {b.ticket},
                                                        destructorRuns := old(b.cell.destructorRuns) + (if old(b.cell.strong) == 1 then 1 else 0))
  {
    b.cell.Release(b.ticket);
  }

  /** `DynBox::into_raw`: consumes the handle, keeps its reference alive in the pointer. */
  method IntoRaw<V>(b: DynBox<V>) returns (p: RawPtr<V>)
    requires Live(b)
    modifies b.cell
    ensures b.cell.Valid() && p.cell == b.cell && p.ticket == b.ticket
    ensures b.cell.payload == old(b.cell.payload)
    ensures b.cell.Snapshot() == old(b.cell.Snapshot()).(rust := old(b.cell.rustHandles) - {b.ticket},
                                                        raw := old(b.cell.rawPointers) + {b.ticket})
  {
    b.cell.Leak(b.ticket);
    p := RawPtr(b.cell, b.ticket);
  }

  /** `DynBox::from_raw`: consumes the pointer and restores exactly one handle, of any logical type. */
  method FromRaw<V>(p: RawPtr<V>, logical: RustType) returns (b: DynBox<V>)
    requires p.cell.Valid() && p.ticket in p.cell.rawPointers
    modifies p.cell
    ensures Live(b) && b.cell == p.cell && b.ticket == p.ticket && b.logical == logical
    ensures p.cell.payload == old(p.cell.payload)
    ensures p.cell.Snapshot() == old(p.cell.Snapshot()).(rust := old(p.cell.rustHandles) + {p.ticket},
                                                        raw := old(p.cell.rawPointers) - {p.ticket})
  {
    p.cell.Reclaim(p.ticket);
    b := DynBox(p.cell, p.ticket, logical);
  }

  /** `ToValue for DynBox`: a fresh clone is leaked into a new OCaml custom block. */
  method ToValue<V>(b: DynBox<V>) returns (v: MlValue<V>)
    requires Live(b)
    modifies b.cell
    ensures Live(b) && v.cell == b.cell && v.ticket !in old(b.cell.foreignOwned)
    ensures b.cell.payload == old(b.cell.payload)
    ensures b.cell.Snapshot() == old(b.cell.Snapshot()).(strong := old(b.cell.strong) + 1,
                                                        foreign := old(b.cell.foreignOwned) + {v.ticket})
  {
    var c := Clone(b);
    var p := IntoRaw(c);
    b.cell.HandOver(p.ticket);
    v := MlValue(p.cell, p.ticket);
  }

  /**
   * `FromValue for DynBox`: the reference behind the custom block is borrowed and cloned; the
   * reconstructed original is forgotten, so the block keeps its own reference.
   */
  method FromValue<V>(v: MlValue<V>, logical: RustType) returns (b: DynBox<V>)
    requires v.cell.Valid() && v.ticket in v.cell.foreignOwned
    modifies v.cell
    ensures Live(b) && b.cell == v.cell && b.logical == logical
    ensures b.ticket !in old(v.cell.rustHandles + v.cell.rawPointers + v.cell.foreignOwned)
    ensures v.cell.payload == old(v.cell.payload)
    ensures v.cell.Snapshot() == old(v.cell.Snapshot()).(strong := old(v.cell.strong) + 1,
                                                        rust := old(v.cell.rustHandles) + {b.ticket})
  {
    var t := v.cell.Acquire();
    b := DynBox(v.cell, t, logical);
  }

  /** `rusty_obj_finalizer`: rebuilds one handle (as `DynBox<i32>`) from the block and drops it. */
  method Finalizer<V>(v: MlValue<V>)
    requires v.cell.Valid() && v.ticket in v.cell.foreignOwned
    modifies v.cell
    ensures v.cell.Valid() && v.cell.payload == old(v.cell.payload)
    ensures v.cell.Snapshot() == old(v.cell.Snapshot()).(strong := old(v.cell.strong) - 1,
                                                        foreign := old(v.cell.foreignOwned) - {v.ticket},
                                                        destructorRuns := old(v.cell.destructorRuns) + (if old(v.cell.strong) == 1 then 1 else 0))
  {
    v.cell.TakeBack(v.ticket);
    var b := FromRaw(RawPtr(v.cell, v.ticket), I32);
    Drop(b);
  }

  /**
   * `DynBox::coerce`: a read coercion of the cell to the handle's logical type. The returned
   * handle owns a clone of the cell's `Arc`; when the coercion panics, unwinding drops that
   * clone again.
   */
  method Coerce<V>(r: Registry, b: DynBox<V>) returns (h: Result<HeldHandle<V>, string>)
    requires Live(b)
    modifies b.cell
    ensures Live(b) && b.cell.payload == old(b.cell.payload)
    ensures var c := CoerceWith(r.State(), Read, b.cell.storage, b.cell.payload, b.logical);
            && (h.Ok? <==> c.Ok?)
            && (h.Err? ==> h.error == c.error && b.cell.Snapshot() == old(b.cell.Snapshot()))
            && (h.Ok? ==> && h.value.handle == c.value && h.value.cell == b.cell
                          && h.value.ticket !in old(b.cell.rustHandles + b.cell.rawPointers + b.cell.foreignOwned)
                          && b.cell.Snapshot() == old(b.cell.Snapshot()).(strong := old(b.cell.strong) + 1,
                                                                         rust := old(b.cell.rustHandles) + {h.value.ticket}))
  {
    var t := b.cell.Acquire();
    var c := CoercionRegistry.Coerce(r, b.cell.storage, b.cell.payload, b.logical);
    if c.Err? {
      b.cell.Release(t);
      h := Err(c.error);
    } else {
      h := Ok(HeldHandle(c.value, b.cell, t));
    }
  }

  /**
   * `DynBox::coerce_mut` followed by a mutation through the handle: `update` is what the caller
   * does with the `&mut T`; it reaches the payload only when the coercion succeeds. The
   * returned handle, still alive, owns a clone of the cell's `Arc`.
   */
  method CoerceMut<V>(r: Registry, b: DynBox<V>, update: V -> V) returns (h: Result<HeldHandle<V>, string>)
    requires Live(b)
    modifies b.cell
    ensures Live(b)
    ensures b.cell.payload == if h.Ok? then update(old(b.cell.payload)) else old(b.cell.payload)
    ensures var c := CoerceWith(r.State(), Write, b.cell.storage, old(b.cell.payload), b.logical);
            && (h.Ok? <==> c.Ok?)
            && (h.Err? ==> h.error == c.error && b.cell.Snapshot() == old(b.cell.Snapshot()))
            && (h.Ok? ==> && h.value.handle == c.value && h.value.cell == b.cell
                          && h.value.ticket !in old(b.cell.rustHandles + b.cell.rawPointers + b.cell.foreignOwned)
                          && b.cell.Snapshot() == old(b.cell.Snapshot()).(strong := old(b.cell.strong) + 1,
                                                                         rust := old(b.cell.rustHandles) + {h.value.ticket}))
  {
    var t := b.cell.Acquire();
    var c := CoercionRegistry.CoerceMut(r, b.cell.storage, b.cell.payload, b.logical);
    if c.Err? {
      b.cell.Release(t);
      h := Err(c.error);
    } else {
      b.cell.SetPayload(update(c.value.target));
      h := Ok(HeldHandle(c.value, b.cell, t));
    }
  }

  /** Dropping a coercion handle releases the lock and the `Arc` clone it owned. */
  method DropHandle<V>(g: HeldHandle<V>)
    requires g.cell.Valid() && g.ticket in g.cell.rustHandles
    modifies g.cell
    ensures g.cell.Valid() && g.cell.payload == old(g.cell.payload)
    ensures g.cell.Snapshot() == old(g.cell.Snapshot()).(strong := old(g.cell.strong) - 1,
                                                        rust := old(g.cell.rustHandles) - {g.ticket},
                                                        destructorRuns := old(g.cell.destructorRuns) + (if old(g.cell.strong) == 1 then 1 else 0))
  {
    g.cell.Release(g.ticket);
  }

  /** Handing a handle to OCaml and finalizing the block returns the ledger to where it was. */
  method ToValueThenFinalize<V>(b: DynBox<V>)
    requires Live(b)
    modifies b.cell
    ensures Live(b) && b.cell.payload == old(b.cell.payload)
    ensures b.cell.Snapshot() == old(b.cell.Snapshot())
  {
    ghost var before := b.cell.Snapshot();
    var v := ToValue(b);
    Finalizer(v);
    assert b.cell.foreignOwned == before.foreign;
  }

  /**
   * `from_raw(into_raw(b))`, then `coerce` and dropping the handle: the coercion sees the
   * original payload, whatever logical type is chosen, and the ledger ends as it started.
   */
  method RoundTripCoerce<V>(r: Registry, b: DynBox<V>, logical: RustType) returns (h: Result<Handle<V>, string>)
    requires Live(b)
    modifies b.cell
    ensures h == CoerceWith(r.State(), Read, b.cell.storage, old(b.cell.payload), logical)
    ensures Live(b) && b.cell.Snapshot() == old(b.cell.Snapshot())
  {
    ghost var before := b.cell.Snapshot();
    var p := IntoRaw(b);
    var back := FromRaw(p, logical);
    assert b.cell.rustHandles == before.rust && b.cell.rawPointers == before.raw;
    var g := Coerce(r, back);
    if g.Ok? {
      DropHandle(g.value);
      h := Ok(g.value.handle);
    } else {
      h := Err(g.error);
    }
  }

  /** A mutation made through `coerce_mut` is what a later `coerce` observes; both handles are dropped. */
  method MutationVisible<V>(r: Registry, b: DynBox<V>, update: V -> V) returns (h: Result<Handle<V>, string>)
    requires Live(b) && (b.cell.storage, b.logical.id) in r.traits && WellFormed(r.State())
    modifies b.cell
    ensures h.Ok? && h.value.target == update(old(b.cell.payload))
    ensures Live(b) && b.cell.Snapshot() == old(b.cell.Snapshot())
  {
    CoerceSucceedsIffRegistered(r.State(), Write, b.cell.storage, b.cell.payload, b.logical);
    var w := CoerceMut(r, b, update);
    DropHandle(w.value);
    CoerceSucceedsIffRegistered(r.State(), Read, b.cell.storage, b.cell.payload, b.logical);
    var g := Coerce(r, b);
    DropHandle(g.value);
    h := Ok(g.value.handle);
  }

  /**
   * A handle shared with OCaml: while the custom block is alive the payload outlives every
   * Rust handle (`shared`, the ledger once all of them are gone), and it is destroyed exactly
   * once, when the finalizer releases the last reference (`final`).
   */
  method DestroyedExactlyOnce<V>(r: Registry, t: RustType, value: V) returns (shared: Ledger, final: Ledger)
    modifies r
    ensures shared.strong == 1 && |shared.foreign| == 1 && shared.rust == {} && shared.destructorRuns == 0
    ensures final == Ledger(0, {}, {}, {}, 1)
  {
    var b := NewExclusive(r, t, value);
    var c := Clone(b);
    var v := ToValue(c);
    Drop(b);
    Drop(c);
    var back := FromValue(v, t);
    Drop(back);
    shared := b.cell.Snapshot();
    Finalizer(v);
    final := b.cell.Snapshot();
  }
}
