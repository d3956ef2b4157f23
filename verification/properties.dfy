/**
 * Properties of the state emitter that relate several operations: the
 * index/state round trip, agreement of an index with the state it
 * designates, idempotence of resolution, and the construction error list.
 */
module Properties {
  import opened Wrappers
  import opened Values
  import opened ListenerTable
  import opened Emitter

  /** No state occurs twice. */
  ghost predicate Distinct(states: seq<StateName>) {
    forall i, j :: 0 <= i < j < |states| ==> states[i] != states[j]
  }

  // ---------------------------------------------------------------------------
  // Construction
  // ---------------------------------------------------------------------------

  /** The error list is the elementwise filter: it distributes over concatenation. */
  lemma {:induction false} InvalidAppend(xs: seq<Value>, ys: seq<Value>)
    ensures Invalid(xs + ys) == Invalid(xs) + Invalid(ys)
  {
    if |xs| == 0 {
      assert xs + ys == ys;
    } else {
      assert (xs + ys)[1..] == xs[1..] + ys;
      InvalidAppend(xs[1..], ys);
    }
  }

  /** Past a prefix of strings and symbols, the error list starts at the first bad element. */
  lemma {:induction false} InvalidAfterValidPrefix(good: seq<Value>, bad: Value, rest: seq<Value>)
    requires forall i :: 0 <= i < |good| ==> IsStateName(good[i])
    requires !IsStateName(bad)
    ensures Invalid(good + [bad] + rest) == [bad] + Invalid(rest)
  {
    var single := [bad];
    assert single[1..] == [];
    assert Invalid(single) == single;
    InvalidAllStates(good);
    InvalidAppend(good, single);
    assert Invalid(good + single) == single;
    InvalidAppend(good + single, rest);
  }

  /** One bad element anywhere rejects the array, and it and every later bad element are reported. */
  lemma {:induction false} CreateReportsEveryInvalid(good: seq<Value>, bad: Value, rest: seq<Value>)
    requires forall i :: 0 <= i < |good| ==> IsStateName(good[i])
    requires !IsStateName(bad)
    ensures Create(Input.Array(good + [bad] + rest)) ==
      Failure(InvalidStates([bad] + Invalid(rest)))
  {
    var xs := good + [bad] + rest;
    InvalidAfterValidPrefix(good, bad, rest);
    assert |xs| > 0 && |Invalid(xs)| > 0;
  }

  /** An array holding only strings and symbols contributes nothing to the error list. */
  lemma {:induction false} InvalidAllStates(xs: seq<Value>)
    requires forall i :: 0 <= i < |xs| ==> IsStateName(xs[i])
    ensures Invalid(xs) == []
  {
    if |xs| > 0 {
      InvalidAllStates(xs[1..]);
    }
  }

  // ---------------------------------------------------------------------------
  // Lookups
  // ---------------------------------------------------------------------------

  /** Position to state to position: the identity on a list without duplicates. */
  lemma IndexOfState(states: seq<StateName>, i: int)
    requires Distinct(states)
    requires 0 <= i < |states|
    ensures State(states, i).Some?
    ensures Index(states, State(states, i).value) == Some(i)
  {
  }

  /** State to position to state: the identity for every state, duplicates or not. */
  lemma StateOfIndex(states: seq<StateName>, name: Value)
    requires name in states
    ensures Index(states, name).Some?
    ensures State(states, Index(states, name).value) == Some(name)
  {
  }

  /** With a duplicate, the later position maps to its state but that state maps back to the first. */
  lemma DuplicateResolvesToFirst(states: seq<StateName>, i: int, j: int)
    requires 0 <= i < j < |states|
    requires states[i] == states[j]
    requires forall k :: 0 <= k < i ==> states[k] != states[i]
    ensures Index(states, states[j]) == Some(i)
    ensures Normalize(states, Num(j)) == Normalize(states, Num(i))
  {
  }

  // ---------------------------------------------------------------------------
  // Resolution
  // ---------------------------------------------------------------------------

  /** A valid position and the state at that position resolve to that state. */
  lemma NormalizeIndexAndName(states: seq<StateName>, i: int)
    requires 0 <= i < |states|
    ensures Normalize(states, Num(i)) == Success(states[i])
    ensures Normalize(states, states[i]) == Success(states[i])
  {
  }

  /** The three ways resolution fails, all with the same error naming the reference. */
  lemma NormalizeUnknown(states: seq<StateName>, ref: Value)
    requires
      || (ref.Num? && !(0 <= ref.n < |states|))
      || ((ref.Str? || ref.Sym?) && ref !in states)
      || (!ref.Num? && !ref.Str? && !ref.Sym?)
    ensures Normalize(states, ref) == Failure(UnknownState(ref))
  {
  }

  /** Resolution is idempotent: a resolved state resolves to itself. */
  lemma NormalizeIdempotent(states: seq<StateName>, ref: Value)
    requires Normalize(states, ref).Success?
    ensures Normalize(states, Normalize(states, ref).value) == Normalize(states, ref)
  {
  }

  // ---------------------------------------------------------------------------
  // Forwarding wrappers
  // ---------------------------------------------------------------------------

  /** Every wrapper depends on the reference only through the state it resolves to. */
  lemma SameStateSameEffect(e: StateEmitter, a: Value, b: Value, l: ListenerId, args: seq<Value>)
    requires Resolves(e.states, a) && Resolves(e.states, b)
    requires Canonical(e.states, a) == Canonical(e.states, b)
    ensures AddListener(e, a, l) == AddListener(e, b, l)
    ensures On(e, a, l) == On(e, b, l)
    ensures Once(e, a, l) == Once(e, b, l)
    ensures PrependListener(e, a, l) == PrependListener(e, b, l)
    ensures PrependOnceListener(e, a, l) == PrependOnceListener(e, b, l)
    ensures RemoveListener(e, a, l) == RemoveListener(e, b, l)
    ensures Off(e, a, l) == Off(e, b, l)
    ensures RemoveAllListeners(e, a) == RemoveAllListeners(e, b)
    ensures Emit(e, a, args) == Emit(e, b, args)
    ensures GetListeners(e, a) == GetListeners(e, b)
  {
  }

  /** A position and the state at it address the same listener list. */
  lemma IndexAndNameShareListeners(e: StateEmitter, i: int, l: ListenerId, args: seq<Value>)
    requires 0 <= i < |e.states|
    ensures AddListener(e, Num(i), l) == AddListener(e, e.states[i], l)
    ensures On(e, Num(i), l) == On(e, e.states[i], l)
    ensures Once(e, Num(i), l) == Once(e, e.states[i], l)
    ensures PrependListener(e, Num(i), l) == PrependListener(e, e.states[i], l)
    ensures PrependOnceListener(e, Num(i), l) == PrependOnceListener(e, e.states[i], l)
    ensures RemoveListener(e, Num(i), l) == RemoveListener(e, e.states[i], l)
    ensures Off(e, Num(i), l) == Off(e, e.states[i], l)
    ensures RemoveAllListeners(e, Num(i)) == RemoveAllListeners(e, e.states[i])
    ensures Emit(e, Num(i), args) == Emit(e, e.states[i], args)
    ensures GetListeners(e, Num(i)) == GetListeners(e, e.states[i])
  {
    SameStateSameEffect(e, Num(i), e.states[i], l, args);
  }

  // The next two restate one clause each of IndexAndNameShareListeners; they stay
  // separate so that the scenarios can use them without the other eight wrappers.

  /** Listing by position equals listing by the state at that position. */
  lemma ListenersByIndexOrName(e: StateEmitter, i: int)
    requires 0 <= i < |e.states|
    ensures GetListeners(e, Num(i)) == GetListeners(e, e.states[i])
  {
  }

  /** Emitting by position equals emitting the state at that position. */
  lemma EmitByIndexOrName(e: StateEmitter, i: int, args: seq<Value>)
    requires 0 <= i < |e.states|
    ensures Emit(e, Num(i), args) == Emit(e, e.states[i], args)
  {
  }

  /** An emission invokes the listeners of the resolved state with the arguments, in order. */
  lemma EmitCalls(e: StateEmitter, ref: Value, args: seq<Value>)
    requires Resolves(e.states, ref)
    ensures
      var r := Emit(e, ref, args);
      && r.Success?
      && r.value.calls == Calls(Entries(e.table, Canonical(e.states, ref)), args)
      && r.value.emitted == (Entries(e.table, Canonical(e.states, ref)) != [])
  {
  }

  /** An emission over registrations none of which is a once-registration leaves the emitter's lists as they were. */
  lemma EmitKeepsPersistent(e: StateEmitter, ref: Value, args: seq<Value>)
    requires Resolves(e.states, ref)
    requires
      var s := Entries(e.table, Canonical(e.states, ref));
      forall i :: 0 <= i < |s| ==> !s[i].once
    ensures
      var r := Emit(e, ref, args);
      && r.Success?
      && r.value.after.states == e.states
      && forall k :: Entries(r.value.after.table, k) == Entries(e.table, k)
  {
    PersistentAllPersistent(Entries(e.table, Canonical(e.states, ref)));
  }

  /** Registering by position and then by state lands both listeners in one list, in order. */
  lemma SubscribeByIndexThenByName(e: StateEmitter, i: int, l1: ListenerId, l2: ListenerId)
    requires 0 <= i < |e.states|
    requires Entries(e.table, e.states[i]) == []
    ensures AddListener(e, Num(i), l1).Success?
    ensures AddListener(AddListener(e, Num(i), l1).value, e.states[i], l2).Success?
    ensures
      var e2 := AddListener(AddListener(e, Num(i), l1).value, e.states[i], l2).value;
      GetListeners(e2, Num(i)) == GetListeners(e2, e.states[i]) == Success([l1, l2])
  {
    var e1 := AddListener(e, Num(i), l1).value;
    var e2 := AddListener(e1, e.states[i], l2).value;
    assert Entries(e2.table, e.states[i]) == [Entry(l1, false), Entry(l2, false)];
    var r := GetListeners(e2, e.states[i]);
    assert r.Success? && |r.value| == 2 && r.value[0] == l1 && r.value[1] == l2;
    assert r.value == [l1, l2];
    IndexAndNameShareListeners(e2, i, l1, []);
  }

  /** A failing reference changes nothing: every wrapper fails with the same error. */
  lemma UnknownStateTouchesNothing(e: StateEmitter, ref: Value, l: ListenerId, args: seq<Value>)
    requires !Resolves(e.states, ref)
    requires !ref.Undefined?
    ensures AddListener(e, ref, l) == Failure(UnknownState(ref))
    ensures On(e, ref, l) == Failure(UnknownState(ref))
    ensures Once(e, ref, l) == Failure(UnknownState(ref))
    ensures PrependListener(e, ref, l) == Failure(UnknownState(ref))
    ensures PrependOnceListener(e, ref, l) == Failure(UnknownState(ref))
    ensures RemoveListener(e, ref, l) == Failure(UnknownState(ref))
    ensures Off(e, ref, l) == Failure(UnknownState(ref))
    ensures RemoveAllListeners(e, ref) == Failure(UnknownState(ref))
    ensures Emit(e, ref, args) == Failure(UnknownState(ref))
    ensures GetListeners(e, ref) == Failure(UnknownState(ref))
  {
  }

  /** A once-registration runs at the next emission and is gone after it. */
  lemma OnceRunsOnce(e: StateEmitter, ref: Value, l: ListenerId, args: seq<Value>)
    requires Resolves(e.states, ref)
    requires forall i :: 0 <= i < |Entries(e.table, Canonical(e.states, ref))| ==>
      Entries(e.table, Canonical(e.states, ref))[i].listener != l
    ensures
      var e1 := Once(e, ref, l).value;
      var em := Emit(e1, ref, args).value;
      && l in GetListeners(e1, ref).value
      && Call(l, args) in em.calls
      && l !in GetListeners(em.after, ref).value
  {
    var k := Canonical(e.states, ref);
    var e1 := Once(e, ref, l).value;
    var before := Entries(e1.table, k);
    OnceListed(e, ref, l);
    EmitCalls(e1, ref, args);
    assert Calls(before, args)[|before| - 1] == Call(l, args);
    OnceGone(e1, ref, l, args);
  }

  /** Right after a once-registration the listener is listed, last. */
  lemma OnceListed(e: StateEmitter, ref: Value, l: ListenerId)
    requires Resolves(e.states, ref)
    ensures
      var e1 := Once(e, ref, l).value;
      var listed := GetListeners(e1, ref).value;
      && Entries(e1.table, Canonical(e.states, ref)) == Entries(e.table, Canonical(e.states, ref)) + [Entry(l, true)]
      && |listed| > 0 && listed[|listed| - 1] == l
  {
  }

  /** A listener whose every registration is a once-registration is not listed after an emission. */
  lemma OnceGone(e: StateEmitter, ref: Value, l: ListenerId, args: seq<Value>)
    requires Resolves(e.states, ref)
    requires
      var s := Entries(e.table, Canonical(e.states, ref));
      forall i :: 0 <= i < |s| && s[i].listener == l ==> s[i].once
    ensures l !in GetListeners(Emit(e, ref, args).value.after, ref).value
  {
    var k := Canonical(e.states, ref);
    var em := Emit(e, ref, args).value;
    OnlyOnceRegistrations(Entries(e.table, k), l);
    var remaining := GetListeners(em.after, ref).value;
    assert forall i :: 0 <= i < |remaining| ==> remaining[i] == Persistent(Entries(e.table, k))[i].listener;
  }

  /** A listener registered only with `once` has no registration left after an emission. */
  lemma OnlyOnceRegistrations(s: seq<Entry>, l: ListenerId)
    requires forall i :: 0 <= i < |s| && s[i].listener == l ==> s[i].once
    ensures forall i :: 0 <= i < |Persistent(s)| ==> Persistent(s)[i].listener != l
  {
    var r := Persistent(s);
    forall i | 0 <= i < |r|
      ensures r[i].listener != l
    {
      assert r[i] in s && !r[i].once;
    }
  }

  /** A prepended listener runs first at the next emission. */
  lemma PrependRunsFirst(e: StateEmitter, ref: Value, l: ListenerId, args: seq<Value>)
    requires Resolves(e.states, ref)
    ensures Emit(PrependListener(e, ref, l).value, ref, args).value.calls[0] == Call(l, args)
    ensures Emit(PrependOnceListener(e, ref, l).value, ref, args).value.calls[0] == Call(l, args)
  {
  }

  /** Emitting again drops nothing more: the survivors of an emission are all persistent. */
  lemma {:induction false} PersistentIdempotent(s: seq<Entry>)
    ensures Persistent(Persistent(s)) == Persistent(s)
  {
    if |s| > 0 {
      PersistentIdempotent(s[1..]);
      if !s[0].once {
        assert ([s[0]] + Persistent(s[1..]))[1..] == Persistent(s[1..]);
      }
    }
  }

  /** Dropping once-registrations is an order-preserving filter: it distributes over concatenation. */
  lemma {:induction false} PersistentAppend(s: seq<Entry>, t: seq<Entry>)
    ensures Persistent(s + t) == Persistent(s) + Persistent(t)
  {
    if |s| == 0 {
      assert s + t == t;
    } else {
      assert (s + t)[1..] == s[1..] + t;
      PersistentAppend(s[1..], t);
    }
  }

  /** Two emissions in a row: the second invokes exactly the survivors of the first and drops nothing. */
  lemma SecondEmissionKeepsAll(e: StateEmitter, ref: Value, args1: seq<Value>, args2: seq<Value>)
    requires Resolves(e.states, ref)
    ensures
      var k := Canonical(e.states, ref);
      var em1 := Emit(e, ref, args1).value;
      var em2 := Emit(em1.after, ref, args2).value;
      && em2.calls == Calls(Persistent(Entries(e.table, k)), args2)
      && Entries(em2.after.table, k) == Entries(em1.after.table, k)
  {
    PersistentIdempotent(Entries(e.table, Canonical(e.states, ref)));
    EmitCalls(Emit(e, ref, args1).value.after, ref, args2);
  }

  /** An emission over registrations none of which is a once-registration leaves them all in place. */
  lemma {:induction false} PersistentAllPersistent(s: seq<Entry>)
    requires forall i :: 0 <= i < |s| ==> !s[i].once
    ensures Persistent(s) == s
  {
    if |s| > 0 {
      PersistentAllPersistent(s[1..]);
      assert [s[0]] + s[1..] == s;
    }
  }

  /** Adding a listener and then removing it, through any two references to one state, restores every list. */
  lemma AddThenRemoveRestores(e: StateEmitter, a: Value, b: Value, l: ListenerId)
    requires Resolves(e.states, a) && Resolves(e.states, b)
    requires Canonical(e.states, a) == Canonical(e.states, b)
    ensures
      var r := RemoveListener(AddListener(e, a, l).value, b, l);
      && r.Success?
      && r.value.states == e.states
      && forall k :: Entries(r.value.table, k) == Entries(e.table, k)
  {
    var key := Canonical(e.states, a);
    var s := Entries(e.table, key);
    var added := s + [Entry(l, false)];
    assert LastIndex(added, l) == Some(|s|);
    assert added[..|s|] + added[|s| + 1..] == s;
  }

  /** Clearing a state empties the list at every position holding it and leaves every other position's list as it was. */
  lemma RemoveAllClearsOnlyItsState(e: StateEmitter, ref: Value, j: int)
    requires Resolves(e.states, ref) && !ref.Undefined?
    requires 0 <= j < |e.states|
    ensures
      var e1 := RemoveAllListeners(e, ref).value;
      && (e.states[j] == Canonical(e.states, ref) ==> GetListeners(e1, Num(j)) == Success([]))
      && (e.states[j] != Canonical(e.states, ref) ==> GetListeners(e1, Num(j)) == GetListeners(e, Num(j)))
  {
  }

  /** Clearing one state and then all: nothing is left anywhere. */
  lemma RemoveAllThenAll(e: StateEmitter, ref: Value)
    requires Resolves(e.states, ref)
    ensures
      var e1 := RemoveAllListeners(e, ref).value;
      var e2 := RemoveAllListeners(e1, Undefined).value;
      forall i :: 0 <= i < |e.states| ==> GetListeners(e2, Num(i)) == Success([])
  {
  }
}
