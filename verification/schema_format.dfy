/** The top-level schema formatter. In the source it is a generator driven by
    `next()`: the first step yields the transformed value, the second returns
    the formatted one, and a present value is handed, once, to the formatter of
    its schema kind. Here the generator is an explicit state machine. */
module SchemaFormat {
  import opened Wrappers
  import opened Errors
  import opened Items

  datatype PrimitiveKind = StringKind | NumberKind | BooleanKind

  /** A primitive attribute schema: its kind and whether a value is required. */
  datatype Attribute = Attribute(kind: PrimitiveKind, required: bool)

  /** Formatting options: the `transform` toggle (on by default) and the
      logical path of the value, used in error payloads. */
  datatype FormatOptions = FormatOptions(transform: bool, valuePath: seq<string>)

  const DefaultOptions := FormatOptions(true, [])

  predicate HasKind(v: Value, k: PrimitiveKind) {
    match k
    case StringKind => v.VStr?
    case NumberKind => v.VNum?
    case BooleanKind => v.VBool?
  }

  /** What one run of a kind-specific formatter generator does: yield a
      transformed value then return a formatted one, yield and then throw on
      the second `next()`, return at once, or throw at once. */
  datatype DelegateRun =
    | YieldThenReturn(transformed: Value, formatted: Value)
    | YieldThenRaise(transformed: Value, error: ToolboxError)
    | ReturnNow(formatted: Value)
    | Raise(error: ToolboxError)

  /** The kind-specific formatter the schema formatter delegates to. */
  type Delegate = (Attribute, Value, FormatOptions) -> DelegateRun

  /** One invocation of the delegate, with the arguments it received. */
  datatype Call = Call(attr: Attribute, value: Value, options: FormatOptions)

  /** Generator states: not started, suspended after yielding the transformed
      value with what the second `next()` will produce (a formatted value or
      the error the delegate raises then), or finished. */
  datatype State =
    | Ready(attr: Attribute, raw: Option<Value>, options: FormatOptions)
    | Transformed(pending: Result<Option<Value>, ToolboxError>)
    | Done

  /** What one `next()` produces. `Return` is `done: true`. */
  datatype Event = Yield(value: Option<Value>) | Return(value: Option<Value>) | Throw(error: ToolboxError)

  datatype Step = Step(event: Event, next: State, calls: seq<Call>)

  /** A run to completion: every event produced and every delegate call made. */
  datatype Run = Run(events: seq<Event>, calls: seq<Call>)

  function Rank(s: State): nat {
    match s
    case Ready(_, _, _) => 2
    case Transformed(_) => 1
    case Done => 0
  }

  /** The events a delegate run contributes to the schema formatter, which
      forwards it with `return yield*`. */
  function DelegateEvents(run: DelegateRun): seq<Event> {
    match run
    case YieldThenReturn(t, f) => [Yield(Some(t)), Return(Some(f))]
    case YieldThenRaise(t, e) => [Yield(Some(t)), Throw(e)]
    case ReturnNow(f) => [Return(Some(f))]
    case Raise(e) => [Throw(e)]
  }

  /** One call to `next()`. */
  function Next(s: State, d: Delegate): (st: Step)
    ensures st.event.Yield? <==> st.next.Transformed?
    ensures !st.event.Yield? ==> st.next == Done
    ensures st.event.Yield? ==> Rank(st.next) < Rank(s)
    ensures st.event.Throw? ==> s.Ready? || s.Transformed?
    ensures s.Ready? && s.raw.None? ==> (st.event.Throw? <==> s.attr.required)
    ensures s.Transformed? ==> (st.event.Throw? <==> s.pending.Failure?)
    ensures s.Transformed? && s.pending.Failure? ==> st.event == Throw(s.pending.error)
    ensures st.calls != [] <==> s.Ready? && s.raw.Some?
    ensures s.Ready? && s.raw.Some? ==> st.calls == [Call(s.attr, s.raw.value, s.options)]
  {
    match s
    case Ready(a, None, o) =>
      if a.required then Step(Throw(MissingAttribute(o.valuePath)), Done, [])
      else if o.transform then Step(Yield(None), Transformed(Success(None)), [])
      else Step(Return(None), Done, [])
    case Ready(a, Some(v), o) =>
      var call := [Call(a, v, o)];
      (match d(a, v, o)
       case YieldThenReturn(t, f) => Step(Yield(Some(t)), Transformed(Success(Some(f))), call)
       case YieldThenRaise(t, e) => Step(Yield(Some(t)), Transformed(Failure(e)), call)
       case ReturnNow(f) => Step(Return(Some(f)), Done, call)
       case Raise(e) => Step(Throw(e), Done, call))
    case Transformed(Success(v)) => Step(Return(v), Done, [])
    case Transformed(Failure(e)) => Step(Throw(e), Done, [])
    case Done => Step(Return(None), Done, [])
  }

  /** Calls `next()` until the generator returns or throws. */
  function Drive(s: State, d: Delegate): (r: Run)
    decreases Rank(s)
    ensures 1 <= |r.events| <= 2
    ensures forall i :: 0 <= i < |r.events| - 1 ==> r.events[i].Yield?
    ensures !r.events[|r.events| - 1].Yield?
    ensures s.Done? ==> r.calls == [] && r.events == [Return(None)]
    ensures s.Transformed? ==>
      && r.calls == []
      && r.events == [if s.pending.Success? then Return(s.pending.value) else Throw(s.pending.error)]
    ensures s.Ready? && s.raw.None? && s.attr.required ==>
      r.events == [Throw(MissingAttribute(s.options.valuePath))] && r.calls == []
    ensures s.Ready? && s.raw.None? && !s.attr.required ==>
      r.calls == [] && r.events == (if s.options.transform then [Yield(None), Return(None)] else [Return(None)])
    ensures s.Ready? && s.raw.Some? ==>
      r.calls == [Call(s.attr, s.raw.value, s.options)] &&
      r.events == DelegateEvents(d(s.attr, s.raw.value, s.options))
  {
    var st := Next(s, d);
    if st.event.Yield? then
      var rest := Drive(st.next, d);
      Run([st.event] + rest.events, st.calls + rest.calls)
    else
      Run([st.event], st.calls)
  }

  function DelegateResult(run: DelegateRun): Result<Option<Value>, ToolboxError> {
    match run
    case YieldThenReturn(_, f) => Success(Some(f))
    case YieldThenRaise(_, e) => Failure(e)
    case ReturnNow(f) => Success(Some(f))
    case Raise(e) => Failure(e)
  }

  /** Drives the formatter to completion and keeps the formatted value. */
  function FormatValue(a: Attribute, raw: Option<Value>, o: FormatOptions, d: Delegate): (r: Result<Option<Value>, ToolboxError>)
    ensures raw.None? ==> r == (if a.required then Failure(MissingAttribute(o.valuePath)) else Success(None))
    ensures raw.Some? ==> r == DelegateResult(d(a, raw.value, o))
  {
    var run := Drive(Ready(a, raw, o), d);
    match run.events[|run.events| - 1]
    case Return(v) => Success(v)
    case Throw(e) => Failure(e)
  }

  /** The formatter of a primitive without a value transformer: checks the
      value's kind, then yields and returns the value unchanged, or returns it
      at once when `transform` is off. */
  function PlainPrimitive(a: Attribute, v: Value, o: FormatOptions): (run: DelegateRun)
    ensures run.Raise? <==> !HasKind(v, a.kind)
    ensures !run.YieldThenRaise?
    ensures run.Raise? ==> run.error == InvalidAttribute(o.valuePath)
    ensures !run.Raise? ==> (run.YieldThenReturn? <==> o.transform)
    ensures run.YieldThenReturn? ==> run.transformed == v && run.formatted == v
    ensures run.ReturnNow? ==> run.formatted == v
  {
    if !HasKind(v, a.kind) then Raise(InvalidAttribute(o.valuePath))
    else if o.transform then YieldThenReturn(v, v)
    else ReturnNow(v)
  }

  /** Formatting a present primitive with the plain formatter succeeds exactly
      when the value has the declared kind, and then gives the value back. */
  lemma PlainFormatValue(a: Attribute, v: Value, o: FormatOptions)
    ensures FormatValue(a, Some(v), o, PlainPrimitive).Success? <==> HasKind(v, a.kind)
    ensures HasKind(v, a.kind) ==> FormatValue(a, Some(v), o, PlainPrimitive) == Success(Some(v))
    ensures !HasKind(v, a.kind) ==> FormatValue(a, Some(v), o, PlainPrimitive) == Failure(InvalidAttribute(o.valuePath))
  {
  }

  /** A plain string under default transform: the transformed and the
      formatted value both equal the input, and the run takes two steps. */
  lemma PlainStringTwoSteps(required: bool, s: string, o: FormatOptions)
    requires o.transform
    ensures Drive(Ready(Attribute(StringKind, required), Some(VStr(s)), o), PlainPrimitive)
      == Run([Yield(Some(VStr(s))), Return(Some(VStr(s)))], [Call(Attribute(StringKind, required), VStr(s), o)])
  {
  }

  /** With `transform` off the first step already finishes with the value,
      and the delegate is still called once. */
  lemma PlainStringNoTransform(required: bool, s: string, o: FormatOptions)
    requires !o.transform
    ensures Drive(Ready(Attribute(StringKind, required), Some(VStr(s)), o), PlainPrimitive)
      == Run([Return(Some(VStr(s)))], [Call(Attribute(StringKind, required), VStr(s), o)])
  {
  }

  /** Under the default options (`transform` on): a missing required value
      throws at once, a missing optional one yields and returns `undefined`,
      and a present string is yielded, then returned, after one delegate
      call, whatever `valuePath` is passed along. */
  lemma DefaultOptionsRuns(k: PrimitiveKind, required: bool, s: string, path: seq<string>, d: Delegate)
    ensures Drive(Ready(Attribute(k, true), None, DefaultOptions), d) == Run([Throw(MissingAttribute([]))], [])
    ensures Drive(Ready(Attribute(k, false), None, DefaultOptions), d) == Run([Yield(None), Return(None)], [])
    ensures var o := DefaultOptions.(valuePath := path);
      Drive(Ready(Attribute(StringKind, required), Some(VStr(s)), o), PlainPrimitive)
        == Run([Yield(Some(VStr(s))), Return(Some(VStr(s)))], [Call(Attribute(StringKind, required), VStr(s), o)])
  {
    PlainStringTwoSteps(required, s, DefaultOptions.(valuePath := path));
  }
}
