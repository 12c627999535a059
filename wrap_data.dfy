/** The values `FunctionWrapper` works with: callables and the slots
    holding them, wrap records and back-references, wrapper options, the
    per-call function data and its "possibly bad" filter, and the
    specification of restoring slots on unwrap. */
module WrapData {
  import opened Options

  /** A callable, by identity: a function of the page, or a wrapper
      function made by createWrapFunction (numbered in creation order). */
  datatype Fn = Native(id: nat) | Wrapper(id: nat)

  /** Wrappers made later rank higher; plain functions rank lowest. */
  function Rank(f: Fn): nat {
    if f.Native? then 0 else f.id + 1
  }

  /** What a property slot can hold. */
  datatype Value = Undefined | Null | Data(id: nat) | Callable(fn: Fn)

  /** A property slot `owner[key]` of some object. */
  datatype Slot = Slot(owner: nat, key: string)

  /** FunctionWrapper.Reference: where a wrapper was installed. `parent`
      None is a null or undefined parent; `key` None is an undefined key. */
  datatype Reference = Reference(parent: Option<nat>, key: Option<string>)

  /** The reference attemptWrapObjectFunction passes for `obj[key]`. */
  function RefTo(s: Slot): Reference {
    Reference(Some(s.owner), Some(s.key))
  }

  /** The slot `parent[key]` a reference designates; an undefined key
      names the property "undefined". */
  function RefSlot(r: Reference): Slot
    requires r.parent.Some?
  {
    Slot(r.parent.value, if r.key.Some? then r.key.value else "undefined")
  }

  /** FunctionWrapper.WrapStatus: the wrapped original and the references
      the wrapper was installed through. (`status`, the shared session
      record, is the one FunctionWrapper object itself.) */
  datatype WrapStatus = WrapStatus(original: Fn, references: seq<Reference>)

  // ---------------------------------------------------------------------
  // Options

  datatype EventHandlers = EventHandlers(start: Option<nat>, complete: Option<nat>, check: Option<nat>)

  /** FunctionWrapper's WrapperOptions. */
  datatype WrapperOptions = WrapperOptions(
    events: EventHandlers,
    log: bool,
    logPossiblyBadOnly: bool,
    wrapFunctionArguments: bool,
    wrapReturnFunctions: bool,
    allowMultipleWrap: bool,
    stackTrace: bool)

  /** A `Partial<WrapperOptions>`: None for an absent key. */
  datatype PartialOptions = PartialOptions(
    events: Option<EventHandlers>,
    log: Option<bool>,
    logPossiblyBadOnly: Option<bool>,
    wrapFunctionArguments: Option<bool>,
    wrapReturnFunctions: Option<bool>,
    allowMultipleWrap: Option<bool>,
    stackTrace: Option<bool>)

  const DefaultOptions := WrapperOptions(EventHandlers(None, None, None), false, true, false, false, false, false)

  const NoOptions := PartialOptions(None, None, None, None, None, None, None)

  /** The options startStackTrace deep-wraps with. */
  const StackTraceOptions := PartialOptions(None, None, None, Some(true), Some(true), None, Some(true))

  /** FunctionWrapper.wrapperOptions: the defaults, each overwritten by the
      key the caller supplies. */
  function WrapperOptionsOf(p: PartialOptions): WrapperOptions {
    WrapperOptions(
      p.events.GetOr(DefaultOptions.events),
      p.log.GetOr(DefaultOptions.log),
      p.logPossiblyBadOnly.GetOr(DefaultOptions.logPossiblyBadOnly),
      p.wrapFunctionArguments.GetOr(DefaultOptions.wrapFunctionArguments),
      p.wrapReturnFunctions.GetOr(DefaultOptions.wrapReturnFunctions),
      p.allowMultipleWrap.GetOr(DefaultOptions.allowMultipleWrap),
      p.stackTrace.GetOr(DefaultOptions.stackTrace))
  }

  /** Every key of `o`, as a partial options object. */
  function AllKeys(o: WrapperOptions): PartialOptions {
    PartialOptions(Some(o.events), Some(o.log), Some(o.logPossiblyBadOnly), Some(o.wrapFunctionArguments),
                   Some(o.wrapReturnFunctions), Some(o.allowMultipleWrap), Some(o.stackTrace))
  }

  /** No keys give the defaults, all keys give themselves back, and the
      stack-trace options trace, wrap arguments and returns, and do not
      allow multiple wraps. */
  lemma WrapperOptionsRoundTrip(o: WrapperOptions)
    ensures WrapperOptionsOf(NoOptions) == DefaultOptions
    ensures WrapperOptionsOf(AllKeys(o)) == o
    ensures var t := WrapperOptionsOf(StackTraceOptions);
            t.stackTrace && t.wrapFunctionArguments && t.wrapReturnFunctions && !t.allowMultipleWrap
  {
  }

  // ---------------------------------------------------------------------
  // Call data

  /** FunctionWrapper.functionData. The arguments are kept as a multiset:
      getFunctionData sorts a copy of them, and the model does not fix the
      sort order. */
  datatype FunctionData = FunctionData(func: Fn, arguments: multiset<Value>, ret: Value, returned: bool)

  /** FunctionWrapper.getFunctionData AS WRITTEN. `returnArg` None means
      the third argument was not passed. `returned` is set when exactly
      `getFunctionData.length` arguments were passed, and that length is 2
      because a parameter with a default value is not counted: so it is set
      for the start data and clear for the complete data. */
  function GetFunctionDataAsWritten(func: Fn, args: multiset<Value>, returnArg: Option<Value>): (d: FunctionData)
    ensures d.returned <==> returnArg.None?
  {
    FunctionData(func, args, returnArg.GetOr(Undefined), returnArg.None?)
  }

  /** The function data with `returned` set exactly when a return value
      was passed. */
  function GetFunctionData(func: Fn, args: multiset<Value>, returnArg: Option<Value>): (d: FunctionData)
    ensures d.returned <==> returnArg.Some?
  {
    FunctionData(func, args, returnArg.GetOr(Undefined), returnArg.Some?)
  }

  /** FunctionWrapper.isPossibleBad: no arguments, or a call that returned
      null, or an undefined return. */
  predicate IsPossibleBad(d: FunctionData) {
    |d.arguments| == 0 || (d.returned && d.ret == Null) || d.ret == Undefined
  }

  /** As written, a call given one argument that returned null is not
      flagged from its complete data, which the return check was meant to
      catch; the start data of every call is flagged, since its return is
      undefined. */
  lemma PossibleBadAsWrittenMissesNullReturn(f: Fn, v: Value)
    ensures !IsPossibleBad(GetFunctionDataAsWritten(f, multiset{v}, Some(Null)))
    ensures IsPossibleBad(GetFunctionDataAsWritten(f, multiset{v}, None))
  {
  }

  /** With `returned` set by the presence of a return value, the complete
      data of a call is flagged exactly when it had no arguments or
      returned null or undefined. */
  lemma PossibleBadOfCompleteData(f: Fn, args: multiset<Value>, r: Value)
    ensures IsPossibleBad(GetFunctionData(f, args, Some(r))) <==> |args| == 0 || r == Null || r == Undefined
    ensures IsPossibleBad(GetFunctionData(f, args, None))
  {
  }

  /** A stack trace entry; the caller, name and time of the source's
      record are not modelled. */
  datatype TraceEntry = TraceEntry(func: Fn)

  /** A start or complete event handled for a call to the original `f`. */
  datatype CallEvent = Start(f: Fn) | Complete(f: Fn)

  // ---------------------------------------------------------------------
  // Restoring slots

  /** The reference loop of unwrapFunction: `parent[key] = old` for each
      reference in order. The result's flag is false when a reference has
      no parent, where the assignment throws; the writes before it stay. */
  function Restore(slots: map<Slot, Value>, refs: seq<Reference>, original: Fn): (map<Slot, Value>, bool)
    decreases |refs|
  {
    if refs == [] then (slots, true)
    else if refs[0].parent.None? then (slots, false)
    else Restore(slots[RefSlot(refs[0]) := Callable(original)], refs[1..], original)
  }

  /** The slots the references designate. */
  ghost predicate AllHaveParents(refs: seq<Reference>) {
    forall i :: 0 <= i < |refs| ==> refs[i].parent.Some?
  }

  ghost function Designated(refs: seq<Reference>): set<Slot>
    requires AllHaveParents(refs)
  {
    set i | 0 <= i < |refs| :: RefSlot(refs[i])
  }

  /** Restoring succeeds exactly when every reference has a parent, and
      then every designated slot holds `original` and every other slot is as it
      was. */
  lemma {:induction false} RestoreEffect(slots: map<Slot, Value>, refs: seq<Reference>, original: Fn)
    ensures Restore(slots, refs, original).1 <==> AllHaveParents(refs)
    ensures AllHaveParents(refs) ==>
              var r := Restore(slots, refs, original).0;
              && r.Keys == slots.Keys + Designated(refs)
              && (forall s :: s in r ==> r[s] == if s in Designated(refs) then Callable(original) else slots[s])
    decreases |refs|
  {
    if refs == [] {
    } else if refs[0].parent.None? {
      assert !AllHaveParents(refs);
    } else {
      var next := slots[RefSlot(refs[0]) := Callable(original)];
      RestoreEffect(next, refs[1..], original);
      assert AllHaveParents(refs) <==> AllHaveParents(refs[1..]) by {
        if AllHaveParents(refs[1..]) {
          forall i | 0 <= i < |refs| ensures refs[i].parent.Some? {
            if i > 0 { assert refs[i] == refs[1..][i - 1]; }
          }
        }
      }
      if AllHaveParents(refs) {
        assert Designated(refs) == {RefSlot(refs[0])} + Designated(refs[1..]) by {
          forall s | s in Designated(refs) ensures s in {RefSlot(refs[0])} + Designated(refs[1..]) {
            var i :| 0 <= i < |refs| && s == RefSlot(refs[i]);
            if i > 0 { assert refs[i] == refs[1..][i - 1]; }
          }
          forall s | s in Designated(refs[1..]) ensures s in Designated(refs) {
            var i :| 0 <= i < |refs[1..]| && s == RefSlot(refs[1..][i]);
            assert refs[1..][i] == refs[i + 1];
          }
        }
      }
    }
  }
}
