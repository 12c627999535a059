/** `FunctionWrapper`: the session record, wrapping and unwrapping with
    in-place slot patching, stack-trace sessions, and what a call to a
    wrapper function does to the re-entrancy flag, the events and the trace.
    What the wrapped functions themselves do is given as a call tree: the
    calls each function makes, in order, and whether it then throws. */
module FunctionWrapper {
  import opened Options
  import opened WrapData
  import opened WrapState

  /** What a call names: a callable it holds, or a property `obj[key]` it
      reads at the time of the call. */
  datatype Callee = Direct(f: Fn) | ViaSlot(s: Slot)

  /** A call, with the calls the called plain function makes (`body`) and
      whether it throws once they are done. */
  datatype Call = Call(callee: Callee, body: seq<Call>, throws: bool)

  function Size(c: Call): nat {
    1 + SizeSeq(c.body)
  }

  function SizeSeq(cs: seq<Call>): nat {
    if cs == [] then 0 else Size(cs[0]) + SizeSeq(cs[1..])
  }

  /** Each wrap record belongs to a wrapper made here and names its
      original, and a wrapper wraps only something made before it. */
  ghost predicate RankedIn(statuses: map<Fn, WrapStatus>, closures: map<Fn, Closure>) {
    && (forall w :: w in statuses ==> w in closures && statuses[w].original == closures[w].func)
    && (forall w :: w in closures && closures[w].func.Wrapper? ==>
          closures[w].func in closures && closures[w].func.id < w.id)
  }

  /** Calling `f` in state `a` runs to completion: no wrapper on its way
      has lost its record, every property it calls holds a callable, and
      no function throws. */
  ghost predicate Completes(a: State, f: Fn, c: Call)
    requires RankedIn(a.statuses, a.closures)
    decreases Size(c), 1, Rank(f)
  {
    if f.Native? then !c.throws && CompletesAll(a, c.body)
    else f in a.statuses && Completes(a, a.closures[f].func, c)
  }

  ghost predicate CallCompletes(a: State, c: Call)
    requires RankedIn(a.statuses, a.closures)
    decreases Size(c), 2
  {
    match c.callee
    case Direct(g) => Completes(a, g, c)
    case ViaSlot(s) => s in a.slots && a.slots[s].Callable? && Completes(a, a.slots[s].fn, c)
  }

  ghost predicate CompletesAll(a: State, body: seq<Call>)
    requires RankedIn(a.statuses, a.closures)
    decreases SizeSeq(body), 3
  {
    body != [] ==> CallCompletes(a, body[0]) && CompletesAll(a, body[1..])
  }

  /** The trace entries a completed call of `f` in state `a` appends, in
      call order: each live wrapper made with the stackTrace option adds
      its original when tracing is `on`, before the call goes on. */
  ghost function Traced(a: State, on: bool, f: Fn, c: Call): seq<TraceEntry>
    requires RankedIn(a.statuses, a.closures)
    decreases Size(c), 1, Rank(f)
  {
    if f.Native? then TracedAll(a, on, c.body)
    else if f !in a.statuses then []
    else (if on && a.closures[f].options.stackTrace then [TraceEntry(a.closures[f].func)] else [])
         + Traced(a, on, a.closures[f].func, c)
  }

  ghost function CallTraced(a: State, on: bool, c: Call): seq<TraceEntry>
    requires RankedIn(a.statuses, a.closures)
    decreases Size(c), 2
  {
    match c.callee
    case Direct(g) => Traced(a, on, g, c)
    case ViaSlot(s) => if s in a.slots && a.slots[s].Callable? then Traced(a, on, a.slots[s].fn, c) else []
  }

  ghost function TracedAll(a: State, on: bool, body: seq<Call>): seq<TraceEntry>
    requires RankedIn(a.statuses, a.closures)
    decreases SizeSeq(body), 3
  {
    if body == [] then [] else CallTraced(a, on, body[0]) + TracedAll(a, on, body[1..])
  }

  /** `b` is `a` after the deep wrap of startStackTrace over `visit`: only
      visited slots change, each visited callable outside `exempt` (the
      wrapper's own members and the forbidden callables) holds a live
      wrapper, every new wrapper carries the stack-trace options, and a
      restorable page stays restorable. */
  ghost predicate TraceStarted(a: State, b: State, visit: seq<Slot>, exempt: set<Fn>) {
    && RankedIn(b.statuses, b.closures)
    && b.slots.Keys == a.slots.Keys
    && (forall t :: t in b.slots && t !in visit ==> b.slots[t] == a.slots[t])
    && (forall t :: t in visit && t in b.slots && b.slots[t].Callable? && b.slots[t].fn !in exempt ==>
          b.slots[t].fn in b.statuses)
    && (forall w :: w in b.closures && w !in a.closures ==> b.closures[w].options == WrapperOptionsOf(StackTraceOptions))
    && (forall orig :: Recorded(a, orig) ==> Recorded(b, orig))
  }

  /** The FunctionWrapper object: `status.wrap` (preparationName,
      preparing, executingWrappedFunction, wrapped), `status.stackTrace`
      and `status.disableStackTrace`, together with the page's property
      slots, the `__wrapStatus` records and the wrapper functions made. */
  class FunctionWrapper {
    var preparationName: Option<string>
    var preparing: bool
    var executing: bool
    var wrapped: seq<Fn>
    var stackTrace: seq<TraceEntry>
    var disableStackTrace: bool
    var slots: map<Slot, Value>
    var statuses: map<Fn, WrapStatus>
    var closures: map<Fn, Closure>
    var nextWrapper: nat
    /** The start and complete events handled, in order. */
    var events: seq<CallEvent>
    /** The callables isWrapForbidden refuses: FunctionWrapper itself and
        the logging functions. */
    const forbidden: set<Fn>
    /** The callables isWrapperFunction recognises: the wrapper's members. */
    const ownMembers: set<Fn>

    function Snapshot(): State
      reads this`slots, this`statuses, this`closures, this`nextWrapper, this`wrapped
    {
      State(slots, statuses, closures, nextWrapper, wrapped)
    }

    /** A callable this model can hold: a page function or a wrapper made here. */
    predicate Known(f: Fn)
      reads this`closures
    {
      f.Native? || f in closures
    }

    ghost predicate Ranked()
      reads this`statuses, this`closures
    {
      RankedIn(statuses, closures)
    }

    ghost predicate Valid()
      reads this`preparationName, this`preparing, this`wrapped, this`slots, this`statuses,
            this`closures, this`nextWrapper
    {
      && (preparing <==> preparationName.Some?)
      && (preparationName.Some? ==> preparationName.value != "")
      && Ranked()
      && (forall w :: w in closures ==> w.Wrapper? && w.id < nextWrapper)
      && (forall w :: w in statuses ==> w in wrapped)
      && (forall i :: 0 <= i < |wrapped| ==> wrapped[i] in closures)
      && (forall s :: s in slots && slots[s].Callable? ==> Known(slots[s].fn))
      && (forall f :: f in forbidden ==> f.Native?)
      && (forall f :: f in ownMembers ==> f.Native?)
    }

    /** FunctionWrapper() over a page whose slots hold plain functions. */
    constructor (page: map<Slot, Value>, forbidden: set<Fn>, ownMembers: set<Fn>)
      requires forall s :: s in page && page[s].Callable? ==> page[s].fn.Native?
      requires forall f :: f in forbidden ==> f.Native?
      requires forall f :: f in ownMembers ==> f.Native?
      ensures Valid()
      ensures slots == page && this.forbidden == forbidden && this.ownMembers == ownMembers
      ensures preparationName.None? && !preparing && !executing && !disableStackTrace
      ensures wrapped == [] && stackTrace == [] && events == []
      ensures statuses == map[] && closures == map[] && nextWrapper == 0
    {
      preparationName, preparing, executing := None, false, false;
      wrapped, stackTrace, disableStackTrace := [], [], false;
      slots, statuses, closures, nextWrapper, events := page, map[], map[], 0, [];
      this.forbidden, this.ownMembers := forbidden, ownMembers;
    }

    /** FunctionWrapper.handlePreparation: refuses an empty name and a name
        other than the one being prepared; otherwise starts (sets the name
        and `preparing`) or ends (clears both) the preparation. */
    method HandlePreparation(name: string, inPreparation: bool) returns (ok: bool)
      requires Valid()
      modifies this`preparationName, this`preparing
      ensures Valid()
      ensures ok == (name != "" && (old(preparationName).None? || old(preparationName).value == name))
      ensures !ok ==> preparationName == old(preparationName) && preparing == old(preparing)
      ensures ok && inPreparation ==> preparationName == Some(name) && preparing
      ensures ok && !inPreparation ==> preparationName.None? && !preparing
    {
      if name == "" {
        return false;
      }
      if preparationName.Some? && preparationName.value != name {
        return false;
      }
      if inPreparation {
        preparationName, preparing := Some(name), true;
      } else {
        preparationName, preparing := None, false;
      }
      ok := true;
    }

    /** FunctionWrapper.setupWrapStatus: a wrapper without a record gets
        one naming `func` and is pushed onto `wrapped`. */
    method SetupWrapStatus(w: Fn, func: Fn)
      modifies this`statuses, this`wrapped
      ensures w !in old(statuses) ==>
                statuses == old(statuses)[w := WrapStatus(func, [])] && wrapped == old(wrapped) + [w]
      ensures w in old(statuses) ==> statuses == old(statuses) && wrapped == old(wrapped)
    {
      if w !in statuses {
        statuses := statuses[w := WrapStatus(func, [])];
        wrapped := wrapped + [w];
      }
    }

    /** FunctionWrapper.handleWrapReference. */
    method HandleWrapReference(w: Fn, reference: Option<Reference>)
      requires Valid() && w in closures
      requires reference.Some? ==> w in statuses
      modifies this`statuses, this`slots
      ensures Valid()
      ensures statuses == AddReference(old(statuses), w, reference)
      ensures slots == Install(old(slots), w, reference)
    {
      if reference.Some? {
        var r := reference.value;
        statuses := statuses[w := statuses[w].(references := statuses[w].references + [r])];
        if r.parent.Some? && r.key.Some? {
          slots := slots[RefSlot(r) := Callable(w)];
        }
      }
    }

    /** FunctionWrapper.createWrapFunction: a new wrapper function around
        `func`, with its record. */
    method CreateWrapFunction(func: Fn, options: WrapperOptions) returns (w: Fn)
      requires Valid() && Known(func)
      modifies this`closures, this`nextWrapper, this`statuses, this`wrapped
      ensures Valid()
      ensures w == Wrapper(old(nextWrapper)) && w !in old(closures)
      ensures closures == old(closures)[w := Closure(func, options)] && nextWrapper == old(nextWrapper) + 1
      ensures statuses == old(statuses)[w := WrapStatus(func, [])] && wrapped == old(wrapped) + [w]
    {
      w := Wrapper(nextWrapper);
      assert w !in closures && w !in statuses;
      closures := closures[w := Closure(func, options)];
      nextWrapper := nextWrapper + 1;
      SetupWrapStatus(w, func);
    }

    /** FunctionWrapper.wrapFunction. */
    method WrapFunction(func: Fn, reference: Option<Reference>, options: PartialOptions) returns (r: Option<Fn>)
      requires Valid() && Known(func)
      modifies this`slots, this`statuses, this`closures, this`nextWrapper, this`wrapped
      ensures Valid()
      ensures (Snapshot(), r) == Wrap(old(Snapshot()), forbidden, func, reference, WrapperOptionsOf(options))
    {
      var o := WrapperOptionsOf(options);
      if func in forbidden {
        return None;
      }
      var w: Fn;
      if func in statuses && !o.allowMultipleWrap {
        w := func;
        ReuseWrapper(w, reference);
      } else {
        w := NewWrapper(func, reference, o);
      }
      r := Some(w);
    }

    /** wrapFunction on a wrapper that carries its own record: the
        reference is recorded and installed, nothing else changes. */
    method ReuseWrapper(w: Fn, reference: Option<Reference>)
      requires Valid() && w in statuses
      modifies this`slots, this`statuses
      ensures Valid()
      ensures Snapshot() == old(Snapshot()).(statuses := AddReference(old(statuses), w, reference),
                                             slots := Install(old(slots), w, reference))
    {
      HandleWrapReference(w, reference);
    }

    /** wrapFunction making a new wrapper around `func`: its record and
        `wrapped` entry are added, then the reference is recorded and
        installed. */
    method NewWrapper(func: Fn, reference: Option<Reference>, o: WrapperOptions) returns (w: Fn)
      requires Valid() && Known(func)
      modifies this`slots, this`statuses, this`closures, this`nextWrapper, this`wrapped
      ensures Valid()
      ensures w == Wrapper(old(nextWrapper))
      ensures Snapshot() == State(Install(old(slots), w, reference),
                                  AddReference(old(statuses)[w := WrapStatus(func, [])], w, reference),
                                  old(closures)[w := Closure(func, o)], old(nextWrapper) + 1, old(wrapped) + [w])
    {
      w := CreateWrapFunction(func, o);
      HandleWrapReference(w, reference);
    }

    /** FunctionWrapper.attemptWrapFunction: wraps a callable that is not
        one of the wrapper's own members, and returns the wrapper, or the
        data itself when nothing was wrapped. */
    method AttemptWrapFunction(data: Value, reference: Option<Reference>, options: PartialOptions) returns (r: Value)
      requires Valid() && (data.Callable? ==> Known(data.fn))
      modifies this`slots, this`statuses, this`closures, this`nextWrapper, this`wrapped
      ensures Valid()
      ensures !data.Callable? || data.fn in ownMembers ==> r == data && Snapshot() == old(Snapshot())
      ensures data.Callable? && data.fn !in ownMembers ==>
                var (b, res) := Wrap(old(Snapshot()), forbidden, data.fn, reference, WrapperOptionsOf(options));
                Snapshot() == b && r == if res.Some? then Callable(res.value) else data
    {
      r := data;
      if data.Callable? && data.fn !in ownMembers {
        var res := WrapFunction(data.fn, reference, options);
        if res.Some? {
          r := Callable(res.value);
        }
      }
    }

    /** A slot's value wrapped by attemptWrapObjectFunction ends up as a
        wrapper with a record, unless it is not a callable, is one of the
        wrapper's members or is forbidden. */
    predicate Instrumented(s: Slot)
      reads this`slots, this`statuses
    {
      s in slots && slots[s].Callable? && slots[s].fn !in ownMembers && slots[s].fn !in forbidden ==>
        slots[s].fn in statuses
    }

    /** FunctionWrapper.attemptWrapObjectFunction on `obj[key]`, with the
        reference `{parent: obj, key: key}`. */
    method AttemptWrapObjectFunction(s: Slot, options: PartialOptions) returns (r: Value)
      requires Valid()
      modifies this`slots, this`statuses, this`closures, this`nextWrapper, this`wrapped
      ensures Valid()
      ensures slots.Keys == old(slots).Keys
      ensures forall t :: t in slots && t != s ==> slots[t] == old(slots)[t]
      ensures old(statuses).Keys <= statuses.Keys
      ensures forall w :: w in old(closures) ==> w in closures && closures[w] == old(closures)[w]
      ensures forall w :: w in closures && w !in old(closures) ==> closures[w].options == WrapperOptionsOf(options)
      ensures Instrumented(s)
      ensures !WrapperOptionsOf(options).allowMultipleWrap ==>
                forall orig :: Recorded(old(Snapshot()), orig) ==> Recorded(Snapshot(), orig)
      ensures var data := if s in old(slots) then old(slots)[s] else Undefined;
              && (!data.Callable? || data.fn in ownMembers ==> r == data && Snapshot() == old(Snapshot()))
              && (data.Callable? && data.fn !in ownMembers ==>
                    var (b, res) := Wrap(old(Snapshot()), forbidden, data.fn, Some(RefTo(s)), WrapperOptionsOf(options));
                    Snapshot() == b && r == if res.Some? then Callable(res.value) else data)
    {
      ghost var a := Snapshot();
      var data := if s in slots then slots[s] else Undefined;
      r := AttemptWrapFunction(data, Some(RefTo(s)), options);
      assert RefSlot(RefTo(s)) == s;
      if !WrapperOptionsOf(options).allowMultipleWrap {
        forall orig | Recorded(a, orig) ensures Recorded(Snapshot(), orig) {
          if data.Callable? && data.fn !in ownMembers {
            WrapKeepsRecorded(a, forbidden, s, WrapperOptionsOf(options), orig);
          }
        }
      }
    }

    /** FunctionWrapper.deepWrapObjectFunctions over the slots the object
        traversal visits, in order. */
    method DeepWrapObjectFunctions(visit: seq<Slot>, options: PartialOptions)
      requires Valid()
      modifies this`slots, this`statuses, this`closures, this`nextWrapper, this`wrapped
      ensures Valid()
      ensures slots.Keys == old(slots).Keys
      ensures forall t :: t in slots && t !in visit ==> slots[t] == old(slots)[t]
      ensures old(statuses).Keys <= statuses.Keys
      ensures forall w :: w in old(closures) ==> w in closures && closures[w] == old(closures)[w]
      ensures forall w :: w in closures && w !in old(closures) ==> closures[w].options == WrapperOptionsOf(options)
      ensures forall t :: t in visit ==> Instrumented(t)
      ensures !WrapperOptionsOf(options).allowMultipleWrap ==>
                forall orig :: Recorded(old(Snapshot()), orig) ==> Recorded(Snapshot(), orig)
    {
      ghost var a := Snapshot();
      for i := 0 to |visit|
        invariant Valid()
        invariant slots.Keys == old(slots).Keys
        invariant forall t :: t in slots && t !in visit[..i] ==> slots[t] == old(slots)[t]
        invariant old(statuses).Keys <= statuses.Keys
        invariant forall w :: w in old(closures) ==> w in closures && closures[w] == old(closures)[w]
        invariant forall w :: w in closures && w !in old(closures) ==> closures[w].options == WrapperOptionsOf(options)
        invariant forall j :: 0 <= j < i ==> Instrumented(visit[j])
        invariant !WrapperOptionsOf(options).allowMultipleWrap ==>
                    forall orig :: Recorded(a, orig) ==> Recorded(Snapshot(), orig)
      {
        ghost var before := Snapshot();
        var r := AttemptWrapObjectFunction(visit[i], options);
        assert visit[..i + 1] == visit[..i] + [visit[i]];
        forall j | 0 <= j < i ensures Instrumented(visit[j]) {
          if visit[j] != visit[i] && visit[j] in slots {
            assert slots[visit[j]] == before.slots[visit[j]];
          }
        }
      }
      assert visit[..|visit|] == visit;
    }

    /** FunctionWrapper.unwrapFunction. */
    method UnwrapFunction(w: Fn) returns (ok: bool)
      requires Valid()
      modifies this`slots, this`statuses
      ensures Valid()
      ensures (Snapshot(), ok) == UnwrapOne(old(Snapshot()), w)
    {
      if w in statuses {
        var st := statuses[w];
        for i := 0 to |st.references|
          invariant Valid()
          invariant Restore(slots, st.references[i..], st.original) == Restore(old(slots), st.references, st.original)
          invariant statuses == old(statuses)
        {
          var r := st.references[i];
          assert st.references[i..][0] == r && st.references[i..][1..] == st.references[i + 1..];
          if r.parent.None? {
            return false;
          }
          slots := slots[RefSlot(r) := Callable(st.original)];
        }
        statuses := statuses - {w};
      }
      ok := true;
    }

    /** FunctionWrapper.unwrapFunctions: unwraps every entry of `wrapped`
        and then empties it; a throwing unwrap leaves `wrapped` as it was. */
    method UnwrapFunctions() returns (ok: bool)
      requires Valid()
      modifies this`slots, this`statuses, this`wrapped
      ensures Valid()
      ensures var (b, done) := UnwrapAll(old(Snapshot()), old(wrapped));
              ok == done && slots == b.slots && statuses == b.statuses
      ensures ok ==> wrapped == [] && statuses == map[]
      ensures !ok ==> wrapped == old(wrapped)
    {
      var i := 0;
      while i < |wrapped|
        invariant 0 <= i <= |wrapped| && wrapped == old(wrapped)
        invariant Valid()
        invariant UnwrapAll(Snapshot(), wrapped[i..]) == UnwrapAll(old(Snapshot()), old(wrapped))
        invariant forall w :: w in statuses ==> w in wrapped[i..]
      {
        assert wrapped[i..][0] == wrapped[i] && wrapped[i..][1..] == wrapped[i + 1..];
        ghost var before := Snapshot();
        UnwrapAllStep(before, wrapped[i..]);
        ok := UnwrapFunction(wrapped[i]);
        if !ok {
          return;
        }
        i := i + 1;
      }
      assert statuses == map[];
      wrapped := [];
      ok := true;
    }

    /** FunctionWrapper.startStackTrace over the slots the traversal of the
        root object visits: starts the 'stacktrace' preparation, clears the
        trace, deep-wraps with tracing and argument and return wrapping, and
        ends the preparation. The results of handlePreparation are ignored. */
    method StartStackTrace(visit: seq<Slot>)
      requires Valid()
      modifies this`preparationName, this`preparing, this`stackTrace,
               this`slots, this`statuses, this`closures, this`nextWrapper, this`wrapped
      ensures Valid()
      ensures stackTrace == []
      ensures old(preparationName).None? || old(preparationName) == Some("stacktrace") ==>
                preparationName.None? && !preparing
      ensures old(preparationName).Some? && old(preparationName) != Some("stacktrace") ==>
                preparationName == old(preparationName) && preparing == old(preparing)
      ensures slots.Keys == old(slots).Keys
      ensures forall t :: t in slots && t !in visit ==> slots[t] == old(slots)[t]
      ensures forall t :: t in visit ==> Instrumented(t)
      ensures forall w :: w in closures && w !in old(closures) ==> closures[w].options == WrapperOptionsOf(StackTraceOptions)
      ensures forall orig :: Recorded(old(Snapshot()), orig) ==> Recorded(Snapshot(), orig)
      ensures TraceStarted(old(Snapshot()), Snapshot(), visit, ownMembers + forbidden)
    {
      var started := HandlePreparation("stacktrace", true);
      stackTrace := [];
      DeepWrapObjectFunctions(visit, StackTraceOptions);
      var ended := HandlePreparation("stacktrace", false);
    }

    /** FunctionWrapper.stopStackTrace: unwraps everything and returns the
        trace buffer; None when an unwrap threw. */
    method StopStackTrace() returns (trace: Option<seq<TraceEntry>>)
      requires Valid()
      modifies this`slots, this`statuses, this`wrapped
      ensures Valid()
      ensures var (b, done) := UnwrapAll(old(Snapshot()), old(wrapped));
              trace.Some? == done && slots == b.slots && statuses == b.statuses
      ensures trace.Some? ==> trace.value == stackTrace && wrapped == [] && statuses == map[]
    {
      var ok := UnwrapFunctions();
      trace := if ok then Some(stackTrace) else None;
    }

    // -------------------------------------------------------------------
    // Calls

    /** Calling `f`: a plain function makes the calls of its body and then
        throws or returns; a wrapper runs as InvokeWrapper says. */
    method InvokeFn(f: Fn, c: Call) returns (threw: bool)
      requires Valid()
      modifies this`executing, this`events, this`stackTrace
      decreases Size(c), 1, Rank(f), 1
      ensures threw == !Completes(Snapshot(), f, c)
      ensures !threw ==> stackTrace == old(stackTrace) + Traced(Snapshot(), !preparing && !disableStackTrace, f, c)
      ensures old(executing) ==> executing && events == old(events)
      ensures !threw ==> executing == old(executing)
      ensures old(stackTrace) <= stackTrace
      ensures preparing || disableStackTrace ==> stackTrace == old(stackTrace)
      ensures f.Native? && c.body == [] ==>
                threw == c.throws && executing == old(executing) && events == old(events) && stackTrace == old(stackTrace)
    {
      if f.Native? {
        threw := RunBody(c.body);
        if !threw && c.throws {
          threw := true;
        }
      } else {
        threw := InvokeWrapper(f, c);
      }
    }

    /** Calling the wrapper function `f`, the body createWrapFunction
        gives it: it reads the shared flag through its record (and throws
        when the record was deleted), appends a trace entry when tracing is
        on and no preparation runs, and, unless the flag was already set,
        sets it and handles the start event; then it calls the wrapped
        function and, unless the flag was already set, handles the complete
        event and clears the flag. Nothing resets the flag when the wrapped
        function throws. */
    method InvokeWrapper(f: Fn, c: Call) returns (threw: bool)
      requires Valid() && f.Wrapper?
      modifies this`executing, this`events, this`stackTrace
      decreases Size(c), 1, Rank(f), 0
      ensures threw == !Completes(Snapshot(), f, c)
      ensures !threw ==> stackTrace == old(stackTrace) + Traced(Snapshot(), !preparing && !disableStackTrace, f, c)
      ensures old(executing) ==> executing && events == old(events)
      ensures !threw ==> executing == old(executing)
      ensures old(stackTrace) <= stackTrace
      ensures preparing || disableStackTrace ==> stackTrace == old(stackTrace)
      ensures f !in statuses ==>
                threw && executing == old(executing) && events == old(events) && stackTrace == old(stackTrace)
      ensures f in statuses && !old(executing) && !threw ==>
                events == old(events) + [Start(closures[f].func), Complete(closures[f].func)]
      ensures f in statuses && !old(executing) && threw ==>
                executing && events == old(events) + [Start(closures[f].func)]
      ensures f in statuses && closures[f].options.stackTrace && !preparing && !disableStackTrace ==>
                |stackTrace| > |old(stackTrace)| && stackTrace[|old(stackTrace)|] == TraceEntry(closures[f].func)
      ensures f in statuses && closures[f].func.Native? && c.body == [] ==>
                stackTrace == old(stackTrace) + (if closures[f].options.stackTrace && !preparing && !disableStackTrace
                                                 then [TraceEntry(closures[f].func)] else [])
    {
      if f !in statuses {
        return true;
      }
      var cl := closures[f];
      ghost var a, on := Snapshot(), !preparing && !disableStackTrace;
      assert Completes(a, f, c) == Completes(a, cl.func, c);
      assert Traced(a, on, f, c) == (if on && cl.options.stackTrace then [TraceEntry(cl.func)] else []) + Traced(a, on, cl.func, c);
      Trace(cl);
      threw := CallWrapped(cl.func, c);
    }

    /** The rest of a wrapper function's body, after its trace step: the
        start step, the call of the wrapped function `func` and, when that
        completes, the completion step. */
    method CallWrapped(func: Fn, c: Call) returns (threw: bool)
      requires Valid()
      modifies this`executing, this`events, this`stackTrace
      decreases Size(c), 1, Rank(func), 2
      ensures threw == !Completes(Snapshot(), func, c)
      ensures !threw ==> stackTrace == old(stackTrace) + Traced(Snapshot(), !preparing && !disableStackTrace, func, c)
      ensures old(executing) ==> executing && events == old(events)
      ensures !threw ==> executing == old(executing)
      ensures old(stackTrace) <= stackTrace
      ensures preparing || disableStackTrace ==> stackTrace == old(stackTrace)
      ensures !old(executing) && !threw ==> events == old(events) + [Start(func), Complete(func)]
      ensures !old(executing) && threw ==> executing && events == old(events) + [Start(func)]
      ensures func.Native? && c.body == [] ==> stackTrace == old(stackTrace)
    {
      var ignoreWrap := Enter(func);
      threw := InvokeFn(func, c);
      if !threw {
        Leave(func, ignoreWrap);
      }
    }

    /** The trace step of a wrapper function's body. */
    method Trace(cl: Closure)
      modifies this`stackTrace
      ensures cl.options.stackTrace && !disableStackTrace && !preparing ==>
                stackTrace == old(stackTrace) + [TraceEntry(cl.func)]
      ensures !(cl.options.stackTrace && !disableStackTrace && !preparing) ==> stackTrace == old(stackTrace)
    {
      if cl.options.stackTrace && !disableStackTrace && !preparing {
        stackTrace := stackTrace + [TraceEntry(cl.func)];
      }
    }

    /** The start step of a wrapper function's body: `ignoreWrap` is the
        flag as read; when it was clear, the flag is set and the start
        event handled. */
    method Enter(func: Fn) returns (ignoreWrap: bool)
      modifies this`executing, this`events
      ensures ignoreWrap == old(executing) && executing
      ensures events == if ignoreWrap then old(events) else old(events) + [Start(func)]
    {
      ignoreWrap := executing;
      if !ignoreWrap {
        executing := true;
        events := events + [Start(func)];
      }
    }

    /** The completion step of a wrapper function's body. */
    method Leave(func: Fn, ignoreWrap: bool)
      modifies this`executing, this`events
      ensures !ignoreWrap ==> !executing && events == old(events) + [Complete(func)]
      ensures ignoreWrap ==> executing == old(executing) && events == old(events)
    {
      if !ignoreWrap {
        events := events + [Complete(func)];
        executing := false;
      }
    }

    /** A call as its caller makes it: through the callable it names, or
        through the property it reads, which throws unless it holds a
        callable. */
    method InvokeCall(c: Call) returns (threw: bool)
      requires Valid()
      modifies this`executing, this`events, this`stackTrace
      decreases Size(c), 2
      ensures threw == !CallCompletes(Snapshot(), c)
      ensures !threw ==> stackTrace == old(stackTrace) + CallTraced(Snapshot(), !preparing && !disableStackTrace, c)
      ensures old(executing) ==> executing && events == old(events)
      ensures !threw ==> executing == old(executing)
      ensures old(stackTrace) <= stackTrace
      ensures preparing || disableStackTrace ==> stackTrace == old(stackTrace)
    {
      match c.callee
      case Direct(g) =>
        threw := InvokeFn(g, c);
      case ViaSlot(s) =>
        if s in slots && slots[s].Callable? {
          threw := InvokeFn(slots[s].fn, c);
        } else {
          threw := true;
        }
    }

    /** The calls a plain function makes, in order, until one throws. */
    method RunBody(body: seq<Call>) returns (threw: bool)
      requires Valid()
      modifies this`executing, this`events, this`stackTrace
      decreases SizeSeq(body), 3
      ensures threw == !CompletesAll(Snapshot(), body)
      ensures !threw ==> stackTrace == old(stackTrace) + TracedAll(Snapshot(), !preparing && !disableStackTrace, body)
      ensures old(executing) ==> executing && events == old(events)
      ensures !threw ==> executing == old(executing)
      ensures old(stackTrace) <= stackTrace
      ensures preparing || disableStackTrace ==> stackTrace == old(stackTrace)
      ensures body == [] ==> !threw && stackTrace == old(stackTrace) && events == old(events)
    {
      if body == [] {
        return false;
      }
      threw := InvokeCall(body[0]);
      if threw {
        return;
      }
      threw := RunBody(body[1..]);
    }

    /** FunctionWrapper.stackTraceFunction: starts a trace session, which
        leaves the page in state `session` and tracing `on` or off; calls
        `func` there (it calls the completion handler when done); stops the
        session and drops the first entry of the trace buffer `full` in
        place, which is what is handed back. `func` itself is called
        directly, not through a wrapper, so the entry dropped is the first
        traced call `func` makes. None when `func` threw (`threw`) or an
        unwrap threw. */
    method StackTraceFunction(visit: seq<Slot>, func: Fn, c: Call)
      returns (trace: Option<seq<TraceEntry>>, threw: bool, ghost full: seq<TraceEntry>,
               ghost session: State, ghost on: bool)
      requires Valid()
      modifies this`preparationName, this`preparing, this`stackTrace, this`executing, this`events,
               this`slots, this`statuses, this`closures, this`nextWrapper, this`wrapped
      ensures Valid()
      ensures TraceStarted(old(Snapshot()), session, visit, ownMembers + forbidden)
      ensures on == (!disableStackTrace && (old(preparationName).None? || old(preparationName) == Some("stacktrace")))
      ensures threw == !Completes(session, func, c)
      ensures !threw ==> full == Traced(session, on, func, c)
      ensures threw ==> trace.None?
      ensures !threw && (exists orig :: Recorded(old(Snapshot()), orig)) ==> trace.Some?
      ensures trace.Some? ==> trace.value == (if |full| > 0 then full[1..] else [])
      ensures trace.Some? ==> stackTrace == trace.value && wrapped == [] && statuses == map[]
      ensures forall orig :: Recorded(old(Snapshot()), orig) && trace.Some? ==> slots == orig
    {
      ghost var a := Snapshot();
      threw, session, on := StartAndCall(visit, func, c);
      full := stackTrace;
      if threw {
        return None, threw, full, session, on;
      }
      forall orig | Recorded(a, orig) ensures UnwrapAll(Snapshot(), wrapped).1 && UnwrapAll(Snapshot(), wrapped).0.slots == orig {
        UnwrapAllRestoresSlots(Snapshot(), orig);
      }
      trace := OnComplete();
    }

    /** The first half of stackTraceFunction: the session is started, which
        leaves the page in state `session` with tracing `on` or off, and
        `func` is called there. */
    method StartAndCall(visit: seq<Slot>, func: Fn, c: Call) returns (threw: bool, ghost session: State, ghost on: bool)
      requires Valid()
      modifies this`preparationName, this`preparing, this`stackTrace, this`executing, this`events,
               this`slots, this`statuses, this`closures, this`nextWrapper, this`wrapped
      ensures Valid() && Snapshot() == session
      ensures TraceStarted(old(Snapshot()), session, visit, ownMembers + forbidden)
      ensures on == (!disableStackTrace && (old(preparationName).None? || old(preparationName) == Some("stacktrace")))
      ensures threw == !Completes(session, func, c)
      ensures !threw ==> stackTrace == Traced(session, on, func, c)
    {
      StartStackTrace(visit);
      session, on := Snapshot(), !preparing && !disableStackTrace;
      threw := InvokeFn(func, c);
    }

    /** The completion handler stackTraceFunction hands to `func`: stops the
        session and shifts the first entry off the trace buffer in place,
        handing back the rest. None when an unwrap threw. */
    method OnComplete() returns (trace: Option<seq<TraceEntry>>)
      requires Valid()
      modifies this`slots, this`statuses, this`wrapped, this`stackTrace
      ensures Valid()
      ensures var (b, done) := UnwrapAll(old(Snapshot()), old(wrapped));
              trace.Some? == done && slots == b.slots && statuses == b.statuses
      ensures trace.Some? ==> trace.value == (if |old(stackTrace)| > 0 then old(stackTrace)[1..] else [])
      ensures trace.Some? ==> stackTrace == trace.value && wrapped == [] && statuses == map[]
    {
      var stopped := StopStackTrace();
      if stopped.None? {
        return None;
      }
      var rest := if |stopped.value| > 0 then stopped.value[1..] else [];
      stackTrace := rest;
      trace := Some(rest);
    }
  }

  // ---------------------------------------------------------------------
  // Sessions

  /** A page whose slots hold only plain functions, as the wrapper finds it. */
  predicate PlainPage(page: map<Slot, Value>) {
    forall s :: s in page && page[s].Callable? ==> page[s].fn.Native?
  }

  /** A stack-trace session over any page, with any calls made while it
      runs, ends with every property holding its original value again, and
      the trace buffer handed back. */
  method TraceSessionRestoresPage(page: map<Slot, Value>, visit: seq<Slot>, forbidden: set<Fn>,
                                  ownMembers: set<Fn>, calls: seq<Call>)
    returns (trace: Option<seq<TraceEntry>>, restored: map<Slot, Value>)
    requires PlainPage(page)
    requires forall f :: f in forbidden ==> f.Native?
    requires forall f :: f in ownMembers ==> f.Native?
    ensures trace.Some? && restored == page
  {
    var fw := new FunctionWrapper(page, forbidden, ownMembers);
    assert Recorded(fw.Snapshot(), page);
    fw.StartStackTrace(visit);
    var threw := fw.RunBody(calls);
    UnwrapAllRestoresSlots(fw.Snapshot(), page);
    trace := fw.StopStackTrace();
    restored := fw.slots;
  }

  /** startStackTrace over a page of one property holding a plain
      function: the property now holds a tracing wrapper of it. */
  method StartedSession(f: Fn, s: Slot) returns (fw: FunctionWrapper, w: Fn)
    requires f.Native?
    ensures fresh(fw) && fw.Valid()
    ensures Recorded(fw.Snapshot(), map[s := Callable(f)])
    ensures fw.slots[s] == Callable(w) && w.Wrapper? && w in fw.statuses
    ensures fw.closures[w].func == f && fw.closures[w].options.stackTrace
    ensures !fw.preparing && !fw.disableStackTrace && fw.stackTrace == []
  {
    var page := map[s := Callable(f)];
    fw := new FunctionWrapper(page, {}, {});
    assert Recorded(fw.Snapshot(), page);
    fw.StartStackTrace([s]);
    assert fw.Instrumented(s);
    w := fw.slots[s].fn;
    assert Patched(fw.Snapshot(), s);
    assert Restorable(page, RefTo(s), fw.statuses[w].original);
    assert RefSlot(RefTo(s)) == s;
    WrapperOptionsRoundTrip(DefaultOptions);
  }

  /** A traced session over one property holding a plain function:
      calling the property while the session runs records one entry, and
      stopping hands back that entry and puts the function back. */
  method TracedCallIsRecorded(f: Fn, s: Slot) returns (trace: Option<seq<TraceEntry>>, restored: map<Slot, Value>)
    requires f.Native?
    ensures trace == Some([TraceEntry(f)])
    ensures restored == map[s := Callable(f)]
  {
    var fw, w := StartedSession(f, s);
    var threw := fw.InvokeWrapper(w, Call(ViaSlot(s), [], false));
    assert fw.stackTrace == [TraceEntry(f)];
    UnwrapAllRestoresSlots(fw.Snapshot(), map[s := Callable(f)]);
    trace := fw.StopStackTrace();
    restored := fw.slots;
  }

  /** After the deep wrap of a trace session that started with no wrappers,
      a visited property that held a plain function holds a live tracing
      wrapper of it. */
  lemma VisitedSlotTraced(a: State, b: State, visit: seq<Slot>, orig: map<Slot, Value>, s: Slot, f: Fn)
    requires TraceStarted(a, b, visit, {}) && Recorded(b, orig) && a.closures == map[]
    requires s in visit && s in orig && orig[s] == Callable(f) && f.Native?
    ensures b.slots[s].Callable? && b.slots[s].fn.Wrapper? && b.slots[s].fn in b.statuses
    ensures b.closures[b.slots[s].fn] == Closure(f, WrapperOptionsOf(StackTraceOptions))
  {
    assert s in b.slots && f !in b.statuses;
    assert Patched(b, s);
    var w := b.slots[s].fn;
    assert Restorable(orig, RefTo(s), b.statuses[w].original);
    assert RefSlot(RefTo(s)) == s;
  }

  /** A call, making no calls of its own, through a property holding a live
      wrapper of a plain function made with tracing on completes and traces
      that function once. */
  lemma OneTracedCall(b: State, s: Slot, f: Fn)
    requires RankedIn(b.statuses, b.closures) && f.Native?
    requires s in b.slots && b.slots[s].Callable? && b.slots[s].fn.Wrapper? && b.slots[s].fn in b.statuses
    requires b.closures[b.slots[s].fn] == Closure(f, WrapperOptionsOf(StackTraceOptions))
    ensures CallCompletes(b, Call(ViaSlot(s), [], false))
    ensures CallTraced(b, true, Call(ViaSlot(s), [], false)) == [TraceEntry(f)]
  {
    var c, w := Call(ViaSlot(s), [], false), b.slots[s].fn;
    WrapperOptionsRoundTrip(DefaultOptions);
    assert CompletesAll(b, c.body) && TracedAll(b, true, c.body) == [];
    assert Completes(b, f, c) && Traced(b, true, f, c) == [];
    assert b.closures[w].options.stackTrace && b.closures[w].func == f;
    assert Completes(b, w, c);
    assert Traced(b, true, w, c) == [TraceEntry(f)] + Traced(b, true, f, c);
  }

  /** The trace a plain function leaves when it calls two properties in
      turn, each holding a live wrapper of a plain function made with
      tracing on. */
  lemma TwoTracedCalls(b: State, g: Fn, s1: Slot, s2: Slot, f1: Fn, f2: Fn)
    requires RankedIn(b.statuses, b.closures) && g.Native?
    requires s1 in b.slots && b.slots[s1].Callable? && b.slots[s1].fn.Wrapper? && b.slots[s1].fn in b.statuses
    requires s2 in b.slots && b.slots[s2].Callable? && b.slots[s2].fn.Wrapper? && b.slots[s2].fn in b.statuses
    requires b.closures[b.slots[s1].fn] == Closure(f1, WrapperOptionsOf(StackTraceOptions)) && f1.Native?
    requires b.closures[b.slots[s2].fn] == Closure(f2, WrapperOptionsOf(StackTraceOptions)) && f2.Native?
    ensures var c := Call(Direct(g), [Call(ViaSlot(s1), [], false), Call(ViaSlot(s2), [], false)], false);
            Completes(b, g, c) && Traced(b, true, g, c) == [TraceEntry(f1), TraceEntry(f2)]
  {
    var c1, c2 := Call(ViaSlot(s1), [], false), Call(ViaSlot(s2), [], false);
    WrapperOptionsRoundTrip(DefaultOptions);
    OneTracedCall(b, s1, f1);
    OneTracedCall(b, s2, f2);
    assert [c1, c2][1..] == [c2] && [c2][1..] == [];
    assert CompletesAll(b, []) && TracedAll(b, true, []) == [];
    assert CompletesAll(b, [c2]) && TracedAll(b, true, [c2]) == [TraceEntry(f2)];
    assert CompletesAll(b, [c1, c2]) && TracedAll(b, true, [c1, c2]) == [TraceEntry(f1), TraceEntry(f2)];
  }

  /** stackTraceFunction calls `func` directly, not through a wrapper, so
      the entry its "omit func" shift drops is the first traced call that
      `func` makes: a plain `func` calling two traced properties in turn
      gets back only the second, and the page is restored. */
  method StackTraceDropsFirstCall(f1: Fn, f2: Fn, g: Fn, s1: Slot, s2: Slot)
    returns (trace: Option<seq<TraceEntry>>, restored: map<Slot, Value>)
    requires f1.Native? && f2.Native? && g.Native? && s1 != s2
    ensures trace == Some([TraceEntry(f2)])
    ensures restored == map[s1 := Callable(f1), s2 := Callable(f2)]
  {
    var page := map[s1 := Callable(f1), s2 := Callable(f2)];
    var fw := new FunctionWrapper(page, {}, {});
    ghost var a := fw.Snapshot();
    assert Recorded(a, page);
    var c := Call(Direct(g), [Call(ViaSlot(s1), [], false), Call(ViaSlot(s2), [], false)], false);
    var threw;
    ghost var full, session, on;
    trace, threw, full, session, on := fw.StackTraceFunction([s1, s2], g, c);
    assert Recorded(session, page);
    VisitedSlotTraced(a, session, [s1, s2], page, s1, f1);
    VisitedSlotTraced(a, session, [s1, s2], page, s2, f2);
    TwoTracedCalls(session, g, s1, s2, f1, f2);
    restored := fw.slots;
  }

  /** wrapFunction recognises a wrapper by its own record, not by the
      function it wraps: wrapping the same original twice makes two
      wrappers, while wrapping a wrapper hands it back. */
  method WrappingAnOriginalTwice(f: Fn) returns (first: Option<Fn>, second: Option<Fn>, again: Option<Fn>)
    requires f.Native?
    ensures first.Some? && second.Some? && first != second
    ensures again == first
  {
    var fw := new FunctionWrapper(map[], {}, {});
    first := fw.WrapFunction(f, None, NoOptions);
    second := fw.WrapFunction(f, None, NoOptions);
    again := fw.WrapFunction(first.value, None, NoOptions);
  }

  /** A fresh session holding two wrappers, of `f` and of `g`. */
  method TwoWrappers(f: Fn, g: Fn) returns (fw: FunctionWrapper)
    requires f.Native? && g.Native?
    ensures fresh(fw) && fw.Valid()
    ensures fw.events == [] && !fw.executing
    ensures Wrapper(0) in fw.statuses && fw.closures[Wrapper(0)].func == f
    ensures Wrapper(1) in fw.statuses && fw.closures[Wrapper(1)].func == g
  {
    fw := new FunctionWrapper(map[], {}, {});
    var o := WrapperOptionsOf(NoOptions);
    WrapUnreferenced(fw.Snapshot(), {}, f, o);
    var wf := fw.WrapFunction(f, None, NoOptions);
    WrapUnreferenced(fw.Snapshot(), {}, g, o);
    var wg := fw.WrapFunction(g, None, NoOptions);
  }

  /** A wrapper called from inside another wrapped call handles no event
      of its own: one flag serves every wrapper. */
  method NestedWrappedCallIsSilent(f: Fn, g: Fn) returns (events: seq<CallEvent>, executing: bool)
    requires f.Native? && g.Native?
    ensures events == [Start(f), Complete(f)] && !executing
  {
    var fw := TwoWrappers(f, g);
    var inner := Call(Direct(Wrapper(1)), [], false);
    var outer := Call(Direct(Wrapper(0)), [inner], false);
    assert Completes(fw.Snapshot(), Wrapper(1), inner);
    assert [inner][0] == inner && [inner][1..] == [];
    assert CallCompletes(fw.Snapshot(), inner) && CompletesAll(fw.Snapshot(), []);
    assert Completes(fw.Snapshot(), Wrapper(0), outer);
    var threw := fw.InvokeWrapper(Wrapper(0), outer);
    events, executing := fw.events, fw.executing;
  }

  /** A wrapped function that throws leaves the flag set, so every later
      wrapped call is silent: there is no `finally` that clears it. */
  method ThrowLeavesFlagSet(f: Fn) returns (events: seq<CallEvent>, executing: bool)
    requires f.Native?
    ensures events == [Start(f)] && executing
  {
    var fw := new FunctionWrapper(map[], {}, {});
    var wf := fw.WrapFunction(f, None, NoOptions);
    var threw := fw.InvokeWrapper(wf.value, Call(Direct(wf.value), [], true));
    threw := fw.InvokeWrapper(wf.value, Call(Direct(wf.value), [], false));
    events, executing := fw.events, fw.executing;
  }
}
