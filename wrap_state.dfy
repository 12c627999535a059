/** The bookkeeping state of `FunctionWrapper` as a value: the slots of the
    page, the wrap records (`__wrapStatus`) of live wrappers, the wrapper
    functions made so far and the session's `wrapped` list. It specifies
    what wrapping and unwrapping do to that state, and proves the round
    trip: slots patched by wrapping are given back their original values
    by bulk unwrapping. */
module WrapState {
  import opened Options
  import opened WrapData

  /** A wrapper function made by createWrapFunction: the function it wraps
      and the options it was made with. */
  datatype Closure = Closure(func: Fn, options: WrapperOptions)

  /** The part of the session that wrapping and unwrapping change.
      `statuses` holds the wrap record of each wrapper that still carries
      `__wrapped`/`__wrapStatus` (the two are set and deleted together). */
  datatype State = State(
    slots: map<Slot, Value>,
    statuses: map<Fn, WrapStatus>,
    closures: map<Fn, Closure>,
    nextWrapper: nat,
    wrapped: seq<Fn>)

  /** handleWrapReference's push: a truthy reference is appended to the
      wrapper's references. */
  function AddReference(statuses: map<Fn, WrapStatus>, w: Fn, ref: Option<Reference>): map<Fn, WrapStatus>
    requires ref.Some? ==> w in statuses
  {
    if ref.None? then statuses
    else statuses[w := statuses[w].(references := statuses[w].references + [ref.value])]
  }

  /** handleWrapReference's auto-set: `parent[key] = wrapper` when the
      reference has a parent and a defined key. */
  function Install(slots: map<Slot, Value>, w: Fn, ref: Option<Reference>): map<Slot, Value> {
    if ref.Some? && ref.value.parent.Some? && ref.value.key.Some? then slots[RefSlot(ref.value) := Callable(w)]
    else slots
  }

  /** wrapFunction(func, ref, options): the new state and the result (None
      is `false`). Nothing changes for a forbidden callable; a callable that
      itself carries a wrap record is reused unless multiple wraps are
      allowed; otherwise a new wrapper is made, with a new record and a new
      entry in `wrapped`. Either way the reference is then recorded and
      installed. */
  function Wrap(a: State, forbidden: set<Fn>, func: Fn, ref: Option<Reference>, o: WrapperOptions): (State, Option<Fn>)
  {
    if func in forbidden then (a, None)
    else if func in a.statuses && !o.allowMultipleWrap then
      (a.(statuses := AddReference(a.statuses, func, ref), slots := Install(a.slots, func, ref)), Some(func))
    else
      var w := Wrapper(a.nextWrapper);
      (State(Install(a.slots, w, ref),
             AddReference(a.statuses[w := WrapStatus(func, [])], w, ref),
             a.closures[w := Closure(func, o)],
             a.nextWrapper + 1,
             a.wrapped + [w]),
       Some(w))
  }

  /** The three outcomes of wrapFunction: a forbidden callable changes
      nothing; a callable with its own record is handed back with the
      reference appended and no new entry in `wrapped`; anything else gets
      exactly one new wrapper whose record names it. In every case only the
      slot the reference designates can change. */
  lemma WrapOutcomes(a: State, forbidden: set<Fn>, func: Fn, ref: Option<Reference>, o: WrapperOptions)
    requires forall w :: w in a.statuses ==> w.Wrapper? && w.id < a.nextWrapper
    ensures var (b, r) := Wrap(a, forbidden, func, ref, o);
            && (func in forbidden ==> r.None? && b == a)
            && (func !in forbidden ==> r.Some? && r.value in b.statuses)
            && (func !in forbidden && func in a.statuses && !o.allowMultipleWrap ==>
                  r == Some(func) && b.wrapped == a.wrapped && b.statuses.Keys == a.statuses.Keys
                  && b.statuses[func].references ==
                       a.statuses[func].references + (if ref.Some? then [ref.value] else []))
            && (func !in forbidden && (func !in a.statuses || o.allowMultipleWrap) ==>
                  r.value !in a.statuses && b.wrapped == a.wrapped + [r.value]
                  && b.statuses.Keys == a.statuses.Keys + {r.value}
                  && b.statuses[r.value].original == func)
            && (forall t :: t in a.slots && (ref.None? || ref.value.parent.None? || ref.value.key.None? || t != RefSlot(ref.value)) ==>
                  t in b.slots && b.slots[t] == a.slots[t])
  {
  }

  /** wrapFunction without a reference, on a callable that is neither
      forbidden nor carrying a record: one new wrapper, and no slot changes. */
  lemma WrapUnreferenced(a: State, forbidden: set<Fn>, func: Fn, o: WrapperOptions)
    requires func !in forbidden && func !in a.statuses
    ensures var w := Wrapper(a.nextWrapper);
            Wrap(a, forbidden, func, None, o) ==
              (State(a.slots, a.statuses[w := WrapStatus(func, [])], a.closures[w := Closure(func, o)],
                     a.nextWrapper + 1, a.wrapped + [w]),
               Some(w))
  {
  }

  /** FunctionWrapper.unwrapFunction on `w`: nothing without a wrap record;
      otherwise the references are restored and, unless a reference without
      a parent made the loop throw, the record is removed. */
  function UnwrapOne(a: State, w: Fn): (State, bool) {
    if w !in a.statuses then (a, true)
    else
      var (slots, ok) := Restore(a.slots, a.statuses[w].references, a.statuses[w].original);
      if ok then (a.(slots := slots, statuses := a.statuses - {w}), true)
      else (a.(slots := slots), false)
  }

  /** The loop of unwrapFunctions over `ws`, stopping at the first throw. */
  function UnwrapAll(a: State, ws: seq<Fn>): (State, bool)
    decreases |ws|
  {
    if ws == [] then (a, true)
    else
      var (b, ok) := UnwrapOne(a, ws[0]);
      if !ok then (b, false) else UnwrapAll(b, ws[1..])
  }

  /** One step of the unwrap loop: a successful unwrap of the first entry
      removes exactly its record, and the loop goes on from there. */
  lemma UnwrapAllStep(a: State, ws: seq<Fn>)
    requires ws != []
    ensures var (b, ok) := UnwrapOne(a, ws[0]);
            && (ok ==> b.statuses == a.statuses - {ws[0]} && UnwrapAll(a, ws) == UnwrapAll(b, ws[1..]))
            && (!ok ==> UnwrapAll(a, ws) == (b, false))
  {
  }

  // ---------------------------------------------------------------------
  // The round trip

  /** Reference `r` designates a slot that held `original` in `orig`. */
  predicate Restorable(orig: map<Slot, Value>, r: Reference, original: Fn) {
    r.parent.Some? && r.key.Some? && RefSlot(r) in orig && orig[RefSlot(r)] == Callable(original)
  }

  /** Slot `s` holds a live wrapper that has `s` among its references. */
  predicate Patched(a: State, s: Slot)
    requires s in a.slots
  {
    a.slots[s].Callable? && a.slots[s].fn in a.statuses && RefTo(s) in a.statuses[a.slots[s].fn].references
  }

  /** `a` is `orig` with some slots patched by wrappers whose records can
      restore them: every slot holds its original value or a wrapper that
      will write it back, and every reference of a live wrapper designates
      a slot whose original value is that wrapper's original. */
  ghost predicate Recorded(a: State, orig: map<Slot, Value>) {
    && a.slots.Keys == orig.Keys
    && (forall w :: w in a.statuses ==> w.Wrapper? && w.id < a.nextWrapper)
    && (forall s :: s in orig && orig[s].Callable? ==>
          orig[s].fn !in a.statuses && (orig[s].fn.Wrapper? ==> orig[s].fn.id < a.nextWrapper))
    && (forall s :: s in a.slots ==> a.slots[s] == orig[s] || Patched(a, s))
    && (forall w, r :: w in a.statuses && r in a.statuses[w].references ==>
          Restorable(orig, r, a.statuses[w].original))
  }

  /** Wrapping the callable a slot holds, through that slot's reference and
      without multiple wraps, keeps the state restorable. */
  lemma WrapKeepsRecorded(a: State, forbidden: set<Fn>, s: Slot, o: WrapperOptions, orig: map<Slot, Value>)
    requires Recorded(a, orig) && !o.allowMultipleWrap
    requires s in a.slots && a.slots[s].Callable?
    ensures Recorded(Wrap(a, forbidden, a.slots[s].fn, Some(RefTo(s)), o).0, orig)
  {
    var func := a.slots[s].fn;
    var b := Wrap(a, forbidden, func, Some(RefTo(s)), o).0;
    assert RefSlot(RefTo(s)) == s;
    if func in forbidden {
    } else if func in a.statuses {
      if a.slots[s] == orig[s] {
        assert false;
      }
      assert RefTo(s) in a.statuses[func].references;
      assert Restorable(orig, RefTo(s), a.statuses[func].original);
      forall t | t in b.slots ensures b.slots[t] == orig[t] || Patched(b, t) {
        if b.slots[t] != orig[t] {
          assert Patched(a, t);
        }
      }
    } else {
      var w := Wrapper(a.nextWrapper);
      assert a.slots[s] == orig[s];
      assert b.statuses[w] == WrapStatus(func, [RefTo(s)]);
      forall t | t in b.slots ensures b.slots[t] == orig[t] || Patched(b, t) {
        if t != s && b.slots[t] != orig[t] {
          assert Patched(a, t);
          assert a.slots[t].fn != w;
        }
      }
      forall v, ref | v in b.statuses && ref in b.statuses[v].references
        ensures Restorable(orig, ref, b.statuses[v].original)
      {
        if v == w {
          assert ref == RefTo(s);
        }
      }
    }
  }

  /** Unwrapping one wrapper of a restorable state succeeds, gives its
      slots their original values and keeps the state restorable. */
  lemma UnwrapOneKeepsRecorded(a: State, w: Fn, orig: map<Slot, Value>)
    requires Recorded(a, orig)
    ensures UnwrapOne(a, w).1
    ensures Recorded(UnwrapOne(a, w).0, orig)
    ensures UnwrapOne(a, w).0.statuses == a.statuses - {w}
    ensures UnwrapOne(a, w).0.nextWrapper == a.nextWrapper
  {
    if w in a.statuses {
      var refs := a.statuses[w].references;
      var original := a.statuses[w].original;
      assert AllHaveParents(refs) by {
        forall i | 0 <= i < |refs| ensures refs[i].parent.Some? {
          assert refs[i] in refs;
        }
      }
      RestoreEffect(a.slots, refs, original);
      var slots := Restore(a.slots, refs, original).0;
      assert Designated(refs) <= orig.Keys by {
        forall t | t in Designated(refs) ensures t in orig {
          var i :| 0 <= i < |refs| && t == RefSlot(refs[i]);
          assert refs[i] in refs;
        }
      }
      var b := a.(slots := slots, statuses := a.statuses - {w});
      forall t | t in b.slots ensures b.slots[t] == orig[t] || Patched(b, t) {
        if t in Designated(refs) {
          var i :| 0 <= i < |refs| && t == RefSlot(refs[i]);
          assert refs[i] in refs;
        } else if a.slots[t] != orig[t] {
          assert Patched(a, t);
        }
      }
    }
  }

  /** Unwrapping a list of wrappers of a restorable state succeeds and
      removes exactly their records. */
  lemma {:induction false} UnwrapAllKeepsRecorded(a: State, ws: seq<Fn>, orig: map<Slot, Value>)
    requires Recorded(a, orig)
    ensures UnwrapAll(a, ws).1
    ensures Recorded(UnwrapAll(a, ws).0, orig)
    ensures UnwrapAll(a, ws).0.statuses == a.statuses - (set w | w in ws)
    decreases |ws|
  {
    if ws != [] {
      UnwrapOneKeepsRecorded(a, ws[0], orig);
      var b := UnwrapOne(a, ws[0]).0;
      UnwrapAllKeepsRecorded(b, ws[1..], orig);
      assert (set w | w in ws) == {ws[0]} + (set w | w in ws[1..]);
    }
  }

  /** With no wrapper left, a restorable state holds exactly the original
      slots. */
  lemma NoWrapperLeftMeansRestored(a: State, orig: map<Slot, Value>)
    requires Recorded(a, orig) && a.statuses == map[]
    ensures a.slots == orig
  {
  }

  /** The round trip: unwrapping every entry of a `wrapped` list that
      covers all live wrappers gives every slot its original value back. */
  lemma UnwrapAllRestoresSlots(a: State, orig: map<Slot, Value>)
    requires Recorded(a, orig)
    requires forall w :: w in a.statuses ==> w in a.wrapped
    ensures UnwrapAll(a, a.wrapped).1
    ensures UnwrapAll(a, a.wrapped).0.slots == orig
  {
    UnwrapAllKeepsRecorded(a, a.wrapped, orig);
    var b := UnwrapAll(a, a.wrapped).0;
    assert b.statuses == map[];
    NoWrapperLeftMeansRestored(b, orig);
  }

  /** A reference without a parent makes unwrapping throw, after writing
      the slots of the references before it. */
  lemma UnwrapThrowsOnParentlessReference(a: State, w: Fn)
    requires w in a.statuses
    requires exists i :: 0 <= i < |a.statuses[w].references| && a.statuses[w].references[i].parent.None?
    ensures !UnwrapOne(a, w).1
    ensures UnwrapOne(a, w).0.statuses == a.statuses
  {
    RestoreEffect(a.slots, a.statuses[w].references, a.statuses[w].original);
  }
}
