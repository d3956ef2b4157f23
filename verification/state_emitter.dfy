/**
 * The state emitter: an event emitter whose event names are a fixed,
 * ordered list of states, addressable either by the state itself (a string
 * or a symbol) or by its position in the list.
 *
 * Every operation that can throw returns a `Result`; a thrown error is a
 * `Failure`, and since the operations are pure the emitter the caller holds
 * is exactly as it was before the call.
 */
module Emitter {
  import opened Wrappers
  import opened Values
  import opened ListenerTable

  /** What the constructor may be given: an array of values, or any non-array value. */
  datatype Input = Array(elems: seq<Value>) | NotArray(v: Value)

  datatype Error =
    /** The constructor's input is not an array, or is an empty one. */
    | NotStateArray(input: Input)
    /** The constructor's array holds these values, which are neither strings nor symbols. */
    | InvalidStates(invalid: seq<Value>)
    /** A state reference that resolves to no state. */
    | UnknownState(ref: Value)

  datatype StateEmitter = StateEmitter(states: seq<StateName>, table: Table) {
    /** What construction establishes and every operation keeps: at least one
        state, and listeners only ever registered under a state. It is a stated
        invariant only: no operation needs it as a precondition. */
    ghost predicate Valid() {
      && |states| > 0
      && forall k :: k in table ==> k in states
    }
  }

  /** The result of an emission: whether any listener ran, the invocations made, and the emitter afterwards. */
  datatype Emission = Emission(emitted: bool, calls: seq<Call>, after: StateEmitter)

  // ---------------------------------------------------------------------------
  // Construction
  // ---------------------------------------------------------------------------

  /** The elements of `xs` that are neither strings nor symbols, in order. */
  function Invalid(xs: seq<Value>): (r: seq<Value>)
    ensures |r| <= |xs|
    ensures forall v :: v in r <==> v in xs && !IsStateName(v)
  {
    if |xs| == 0 then []
    else if IsStateName(xs[0]) then Invalid(xs[1..])
    else [xs[0]] + Invalid(xs[1..])
  }

  /** Builds an emitter over `input`, rejecting a non-array, an empty array, or
      an array with any element that is neither a string nor a symbol. */
  function Create(input: Input): (r: Result<StateEmitter, Error>)
    ensures r.Success? <==>
      input.Array? && |input.elems| > 0 && forall i :: 0 <= i < |input.elems| ==> IsStateName(input.elems[i])
    ensures r.Success? ==> r.value.states == input.elems && r.value.table == map[] && r.value.Valid()
    ensures !input.Array? || |input.elems| == 0 ==> r == Failure(NotStateArray(input))
    ensures input.Array? && |input.elems| > 0 && r.Failure? ==>
      r.error.InvalidStates? && |r.error.invalid| > 0 &&
      forall v :: v in r.error.invalid <==> v in input.elems && !IsStateName(v)
  {
    if !input.Array? || |input.elems| == 0 then Failure(NotStateArray(input))
    else
      var invalid := Invalid(input.elems);
      if |invalid| > 0 then
        assert invalid[0] in input.elems && !IsStateName(invalid[0]);
        Failure(InvalidStates(invalid))
      else
        assert forall i :: 0 <= i < |input.elems| ==> input.elems[i] !in invalid;
        Success(StateEmitter(input.elems, map[]))
  }

  // ---------------------------------------------------------------------------
  // Lookups
  // ---------------------------------------------------------------------------

  /** The first position of `name` in `states`, or none when it is absent. */
  function Index(states: seq<StateName>, name: Value): (r: Option<nat>)
    ensures r.None? <==> name !in states
    ensures r.Some? ==> r.value < |states| && states[r.value] == name
    ensures r.Some? ==> forall j :: 0 <= j < r.value ==> states[j] != name
  {
    if |states| == 0 then None
    else if states[0] == name then Some(0)
    else match Index(states[1..], name)
      case None => None
      case Some(j) => Some(j + 1)
  }

  /** The state at position `i`, or none when `i` is out of range. */
  function State(states: seq<StateName>, i: int): (r: Option<StateName>)
    ensures r.Some? <==> 0 <= i < |states|
    ensures r.Some? ==> r.value == states[i]
  {
    if 0 <= i < |states| then Some(states[i]) else None
  }

  // ---------------------------------------------------------------------------
  // Resolution
  // ---------------------------------------------------------------------------

  /** Reference definition: `ref` designates a state, either by position or as itself. */
  predicate Resolves(states: seq<StateName>, ref: Value) {
    match ref
    case Num(i) => 0 <= i < |states|
    case Str(_) => ref in states
    case Sym(_) => ref in states
    case _ => false
  }

  /** Reference definition: the state that `ref` designates. */
  function Canonical(states: seq<StateName>, ref: Value): (k: StateName)
    requires Resolves(states, ref)
    ensures k in states
  {
    if ref.Num? then states[ref.n] else ref
  }

  /** Turns a state reference into the state itself: a number is looked up by
      position first; the outcome must be a string or symbol that is a state. */
  function Normalize(states: seq<StateName>, ref: Value): (r: Result<StateName, Error>)
    ensures r.Success? <==> Resolves(states, ref)
    ensures r.Success? ==> r.value == Canonical(states, ref)
    ensures r.Failure? ==> r.error == UnknownState(ref)
  {
    var normal := if ref.Num? then (match State(states, ref.n) case Some(s) => s case None => Undefined) else ref;
    if !(IsStateName(normal) && Index(states, normal).Some?) then Failure(UnknownState(ref))
    else Success(normal)
  }

  // ---------------------------------------------------------------------------
  // Forwarding wrappers
  // ---------------------------------------------------------------------------

  /** Registers `l` after the existing listeners of the state `ref` designates. */
  function AddListener(e: StateEmitter, ref: Value, l: ListenerId): (r: Result<StateEmitter, Error>)
    ensures r.Success? <==> Resolves(e.states, ref)
    ensures r.Failure? ==> r.error == UnknownState(ref)
    ensures r.Success? ==>
      var k := Canonical(e.states, ref);
      && r.value.states == e.states
      && Entries(r.value.table, k) == Entries(e.table, k) + [Entry(l, false)]
      && UnchangedExcept(e.table, r.value.table, k)
    ensures r.Success? && e.Valid() ==> r.value.Valid()
  {
    var k :- Normalize(e.states, ref);
    Success(e.(table := Append(e.table, k, Entry(l, false))))
  }

  /** `on` is the same operation as `addListener`. */
  function On(e: StateEmitter, ref: Value, l: ListenerId): (r: Result<StateEmitter, Error>)
    ensures r == AddListener(e, ref, l)
  {
    var k :- Normalize(e.states, ref);
    Success(e.(table := Append(e.table, k, Entry(l, false))))
  }

  /** Registers `l` after the existing listeners, to be dropped after one emission. */
  function Once(e: StateEmitter, ref: Value, l: ListenerId): (r: Result<StateEmitter, Error>)
    ensures r.Success? <==> Resolves(e.states, ref)
    ensures r.Failure? ==> r.error == UnknownState(ref)
    ensures r.Success? ==>
      var k := Canonical(e.states, ref);
      && r.value.states == e.states
      && Entries(r.value.table, k) == Entries(e.table, k) + [Entry(l, true)]
      && UnchangedExcept(e.table, r.value.table, k)
    ensures r.Success? && e.Valid() ==> r.value.Valid()
  {
    var k :- Normalize(e.states, ref);
    Success(e.(table := Append(e.table, k, Entry(l, true))))
  }

  /** Registers `l` before the existing listeners of the state `ref` designates. */
  function PrependListener(e: StateEmitter, ref: Value, l: ListenerId): (r: Result<StateEmitter, Error>)
    ensures r.Success? <==> Resolves(e.states, ref)
    ensures r.Failure? ==> r.error == UnknownState(ref)
    ensures r.Success? ==>
      var k := Canonical(e.states, ref);
      && r.value.states == e.states
      && Entries(r.value.table, k) == [Entry(l, false)] + Entries(e.table, k)
      && UnchangedExcept(e.table, r.value.table, k)
    ensures r.Success? && e.Valid() ==> r.value.Valid()
  {
    var k :- Normalize(e.states, ref);
    Success(e.(table := Prepend(e.table, k, Entry(l, false))))
  }

  /** Registers `l` before the existing listeners, to be dropped after one emission. */
  function PrependOnceListener(e: StateEmitter, ref: Value, l: ListenerId): (r: Result<StateEmitter, Error>)
    ensures r.Success? <==> Resolves(e.states, ref)
    ensures r.Failure? ==> r.error == UnknownState(ref)
    ensures r.Success? ==>
      var k := Canonical(e.states, ref);
      && r.value.states == e.states
      && Entries(r.value.table, k) == [Entry(l, true)] + Entries(e.table, k)
      && UnchangedExcept(e.table, r.value.table, k)
    ensures r.Success? && e.Valid() ==> r.value.Valid()
  {
    var k :- Normalize(e.states, ref);
    Success(e.(table := Prepend(e.table, k, Entry(l, true))))
  }

  /** Unregisters the most recent registration of `l` for the state `ref` designates. */
  function RemoveListener(e: StateEmitter, ref: Value, l: ListenerId): (r: Result<StateEmitter, Error>)
    ensures r.Success? <==> Resolves(e.states, ref)
    ensures r.Failure? ==> r.error == UnknownState(ref)
    ensures r.Success? ==>
      var k := Canonical(e.states, ref);
      && r.value.states == e.states
      && (LastIndex(Entries(e.table, k), l).None? ==> Entries(r.value.table, k) == Entries(e.table, k))
      && (LastIndex(Entries(e.table, k), l).Some? ==>
            var j := LastIndex(Entries(e.table, k), l).value;
            Entries(r.value.table, k) == Entries(e.table, k)[..j] + Entries(e.table, k)[j + 1..])
      && UnchangedExcept(e.table, r.value.table, k)
    ensures r.Success? && e.Valid() ==> r.value.Valid()
  {
    var k :- Normalize(e.states, ref);
    Success(e.(table := Remove(e.table, k, l)))
  }

  /** `off` is the same operation as `removeListener`. */
  function Off(e: StateEmitter, ref: Value, l: ListenerId): (r: Result<StateEmitter, Error>)
    ensures r == RemoveListener(e, ref, l)
  {
    var k :- Normalize(e.states, ref);
    Success(e.(table := Remove(e.table, k, l)))
  }

  /** With `ref` undefined (the argument omitted), unregisters every listener of
      every state without resolving anything; otherwise unregisters every
      listener of the state `ref` designates. */
  function RemoveAllListeners(e: StateEmitter, ref: Value): (r: Result<StateEmitter, Error>)
    ensures ref.Undefined? ==> r.Success? && r.value.states == e.states && forall k :: Entries(r.value.table, k) == []
    ensures !ref.Undefined? ==> (r.Success? <==> Resolves(e.states, ref))
    ensures r.Failure? ==> r.error == UnknownState(ref)
    ensures !ref.Undefined? && r.Success? ==>
      var k := Canonical(e.states, ref);
      && r.value.states == e.states
      && Entries(r.value.table, k) == []
      && UnchangedExcept(e.table, r.value.table, k)
    ensures r.Success? && e.Valid() ==> r.value.Valid()
  {
    if ref.Undefined? then Success(e.(table := map[]))
    else
      var k :- Normalize(e.states, ref);
      Success(e.(table := Clear(e.table, k)))
  }

  /** Emits the state `ref` designates with `args`: every listener registered for it
      runs, in order, with `args` unchanged; once-registrations are then gone. */
  function Emit(e: StateEmitter, ref: Value, args: seq<Value>): (r: Result<Emission, Error>)
    ensures r.Success? <==> Resolves(e.states, ref)
    ensures r.Failure? ==> r.error == UnknownState(ref)
    ensures r.Success? ==>
      var k := Canonical(e.states, ref);
      var before := Entries(e.table, k);
      && r.value.emitted == (|before| > 0)
      && |r.value.calls| == |before|
      && (forall i :: 0 <= i < |before| ==> r.value.calls[i] == Call(before[i].listener, args))
      && r.value.after.states == e.states
      && Entries(r.value.after.table, k) == Persistent(before)
      && UnchangedExcept(e.table, r.value.after.table, k)
    ensures r.Success? && e.Valid() ==> r.value.after.Valid()
  {
    var k :- Normalize(e.states, ref);
    var (calls, table) := Fire(e.table, k, args);
    Success(Emission(|calls| > 0, calls, e.(table := table)))
  }

  /** The listeners registered for the state `ref` designates, in invocation order. */
  function GetListeners(e: StateEmitter, ref: Value): (r: Result<seq<ListenerId>, Error>)
    ensures r.Success? <==> Resolves(e.states, ref)
    ensures r.Failure? ==> r.error == UnknownState(ref)
    ensures r.Success? ==>
      var before := Entries(e.table, Canonical(e.states, ref));
      |r.value| == |before| && forall i :: 0 <= i < |before| ==> r.value[i] == before[i].listener
  {
    var k :- Normalize(e.states, ref);
    Success(Listeners(e.table, k))
  }
}
