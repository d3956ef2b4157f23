/**
 * Concrete runs of the state emitter over three distinct states `val`
 * (strings, symbols, or a mix): `one` is built over the first two, `two`
 * over the last two, and the listeners are ids 1 to 9.
 */
module Scenarios {
  import opened Wrappers
  import opened Values
  import opened ListenerTable
  import opened Emitter
  import opened Properties

  ghost predicate ThreeDistinct(val: seq<StateName>) {
    |val| == 3 && val[0] != val[1] && val[1] != val[2] && val[0] != val[2]
  }

  /** Construction accepts strings, symbols and a mix; rejects non-arrays, the empty array and numbers.
      `null`, `true`, `false`, `{}` and array-like objects are all `Other` values here. */
  lemma ConstructionCases()
    ensures Create(Input.Array([Str("foo"), Str("bar")])).Success?
    ensures Create(Input.Array([Sym(0), Sym(1)])).Success?
    ensures Create(Input.Array([Str("foo"), Sym(1)])).Success?
    ensures Create(Input.NotArray(Undefined)) == Failure(NotStateArray(Input.NotArray(Undefined)))
    ensures Create(Input.NotArray(Num(1))) == Failure(NotStateArray(Input.NotArray(Num(1))))
    ensures Create(Input.NotArray(Str("foo"))) == Failure(NotStateArray(Input.NotArray(Str("foo"))))
    ensures forall id: nat :: Create(Input.NotArray(Other(id))) == Failure(NotStateArray(Input.NotArray(Other(id))))
    ensures Create(Input.Array([])) == Failure(NotStateArray(Input.Array([])))
    ensures Create(Input.Array([Num(1), Num(2)])) == Failure(InvalidStates([Num(1), Num(2)]))
    ensures Create(Input.Array([Str("one"), Num(2)])) == Failure(InvalidStates([Num(2)]))
    ensures Create(Input.Array([Num(1), Str("two")])) == Failure(InvalidStates([Num(1)]))
  {
    assert [Num(1), Num(2)][1..] == [Num(2)];
    assert [Num(1), Str("two")][1..] == [Str("two")];
    assert [Str("one"), Num(2)][1..] == [Num(2)];
    assert Invalid([Num(2)]) == [Num(2)];
    assert [Str("two")][1..] == [];
    assert Invalid([Str("two")]) == [];
    assert [Num(1)] + [] == [Num(1)];
    assert Invalid([Num(1), Num(2)]) == [Num(1)] + Invalid([Num(2)]);
    assert [Num(1)] + [Num(2)] == [Num(1), Num(2)];
    assert Invalid([Str("one"), Num(2)]) == Invalid([Num(2)]);
    assert Invalid([Num(1), Str("two")]) == [Num(1)] + Invalid([Str("two")]);
  }

  /** Lookups and resolution over `one` and `two`. */
  lemma PreparedLookups(val: seq<StateName>)
    requires ThreeDistinct(val)
    ensures
      var one := val[..2];
      && Index(one, val[0]) == Some(0) && Index(one, val[1]) == Some(1) && Index(one, val[2]) == None
      && State(one, 0) == Some(val[0]) && State(one, 1) == Some(val[1]) && State(one, 2) == None
      && Normalize(one, Num(0)) == Normalize(one, val[0]) == Success(val[0])
      && Normalize(one, Num(1)) == Normalize(one, val[1]) == Success(val[1])
      && Normalize(one, Num(2)) == Failure(UnknownState(Num(2)))
      && Normalize(one, val[2]) == Failure(UnknownState(val[2]))
    ensures
      var two := val[1..];
      && Index(two, val[0]) == None && Index(two, val[1]) == Some(0) && Index(two, val[2]) == Some(1)
      && State(two, 0) == Some(val[1]) && State(two, 1) == Some(val[2]) && State(two, 2) == None
      && Normalize(two, Num(0)) == Normalize(two, val[1]) == Success(val[1])
      && Normalize(two, Num(1)) == Normalize(two, val[2]) == Success(val[2])
      && Normalize(two, Num(2)) == Failure(UnknownState(Num(2)))
      && Normalize(two, val[0]) == Failure(UnknownState(val[0]))
  {
    var one := val[..2];
    var two := val[1..];
    assert val[2] !in one;
    assert val[0] !in two;
  }

  /** Constructing over a non-empty list of states gives that list and no listeners. */
  lemma CreateOverStates(states: seq<StateName>)
    requires |states| > 0
    ensures Create(Input.Array(states)) == Success(StateEmitter(states, map[]))
  {
    InvalidAllStates(states);
  }

  /** `addListener` by position and then by state on the fresh `one`. */
  lemma OneAddPair(val: seq<StateName>)
    requires ThreeDistinct(val)
    ensures
      var one := StateEmitter(val[..2], map[]);
      var a := AddListener(AddListener(one, Num(0), 1).value, val[0], 2).value;
      && GetListeners(one, Num(0)) == GetListeners(one, val[0]) == Success([])
      && GetListeners(a, Num(0)) == GetListeners(a, val[0]) == Success([1, 2])
      && a.states == val[..2]
      && Entries(a.table, val[0]) == [Entry(1, false), Entry(2, false)]
      && Entries(a.table, val[1]) == []
  {
    var one := StateEmitter(val[..2], map[]);
    var k := val[0];
    var a1 := AddListener(one, Num(0), 1).value;
    assert Entries(a1.table, k) == [Entry(1, false)];
    var a := AddListener(a1, val[0], 2).value;
    assert Entries(a.table, k) == [Entry(1, false), Entry(2, false)];
    assert GetListeners(a, val[0]).value == [1, 2];
    ListenersByIndexOrName(one, 0);
    ListenersByIndexOrName(a, 0);
  }

  /** `on` by position and then by state after the two `addListener` calls. */
  lemma OneOnPair(val: seq<StateName>, a: StateEmitter)
    requires ThreeDistinct(val)
    requires a.states == val[..2]
    requires Entries(a.table, val[0]) == [Entry(1, false), Entry(2, false)]
    requires Entries(a.table, val[1]) == []
    ensures
      var b := On(On(a, Num(0), 3).value, val[0], 4).value;
      && b.states == val[..2]
      && Entries(b.table, val[0]) == [Entry(1, false), Entry(2, false), Entry(3, false), Entry(4, false)]
      && Entries(b.table, val[1]) == []
  {
    var k := val[0];
    var a3 := On(a, Num(0), 3).value;
    assert Entries(a3.table, k) == [Entry(1, false), Entry(2, false), Entry(3, false)];
    assert Entries(a3.table, val[1]) == [];
  }

  /** The constructor builds `one`; listeners added by position and by state share one list,
      in order of registration. */
  lemma OneAddRun(val: seq<StateName>)
    requires ThreeDistinct(val)
    ensures Create(Input.Array(val[..2])) == Success(StateEmitter(val[..2], map[]))
    ensures
      var one := StateEmitter(val[..2], map[]);
      var a := AddListener(AddListener(one, Num(0), 1).value, val[0], 2).value;
      var b := On(On(a, Num(0), 3).value, val[0], 4).value;
      && GetListeners(one, Num(0)) == GetListeners(one, val[0]) == Success([])
      && GetListeners(a, Num(0)) == GetListeners(a, val[0]) == Success([1, 2])
      && b.states == val[..2]
      && Entries(b.table, val[0]) == [Entry(1, false), Entry(2, false), Entry(3, false), Entry(4, false)]
      && Entries(b.table, val[1]) == []
  {
    CreateOverStates(val[..2]);
    OneAddPair(val);
    var one := StateEmitter(val[..2], map[]);
    var a := AddListener(AddListener(one, Num(0), 1).value, val[0], 2).value;
    OneOnPair(val, a);
  }

  /** Listing by position or by state shows the four listeners in registration order. */
  lemma OneListRun(val: seq<StateName>, b: StateEmitter)
    requires ThreeDistinct(val)
    requires b.states == val[..2]
    requires Entries(b.table, val[0]) == [Entry(1, false), Entry(2, false), Entry(3, false), Entry(4, false)]
    ensures GetListeners(b, Num(0)) == GetListeners(b, val[0]) == Success([1, 2, 3, 4])
  {
    var listed := GetListeners(b, val[0]).value;
    assert |listed| == 4 && listed[0] == 1 && listed[1] == 2 && listed[2] == 3 && listed[3] == 4;
    assert listed == [1, 2, 3, 4];
    ListenersByIndexOrName(b, 0);
  }

  /** The four registrations of `one`, emitted without arguments, give four calls in order. */
  lemma FourCalls()
    ensures Calls([Entry(1, false), Entry(2, false), Entry(3, false), Entry(4, false)], []) ==
      [Call(1, []), Call(2, []), Call(3, []), Call(4, [])]
  {
    var s := [Entry(1, false), Entry(2, false), Entry(3, false), Entry(4, false)];
    assert s[1..][1..][1..][1..] == [];
  }

  /** Emitting the first state by position runs the shared list in order and leaves it in place. */
  lemma OneEmitRun(b: StateEmitter)
    requires |b.states| == 2
    requires Entries(b.table, b.states[0]) == [Entry(1, false), Entry(2, false), Entry(3, false), Entry(4, false)]
    ensures
      var r := Emit(b, Num(0), []);
      && r.Success? && r.value.emitted
      && r.value.calls == [Call(1, []), Call(2, []), Call(3, []), Call(4, [])]
      && r.value.after.states == b.states
      && Entries(r.value.after.table, b.states[0]) == Entries(b.table, b.states[0])
  {
    var k := b.states[0];
    assert Canonical(b.states, Num(0)) == k;
    var s := Entries(b.table, k);
    assert forall i :: 0 <= i < |s| ==> !s[i].once;
    EmitCalls(b, Num(0), []);
    FourCalls();
    EmitKeepsPersistent(b, Num(0), []);
  }

  /** Emitting by position and then again by name runs the same four listeners both times. */
  lemma OneEmitTwiceRun(b: StateEmitter)
    requires |b.states| == 2
    requires Entries(b.table, b.states[0]) == [Entry(1, false), Entry(2, false), Entry(3, false), Entry(4, false)]
    ensures
      var em1 := Emit(b, Num(0), []).value;
      var r := Emit(em1.after, b.states[0], []);
      && em1.calls == [Call(1, []), Call(2, []), Call(3, []), Call(4, [])]
      && r.Success? && r.value.emitted
      && r.value.calls == [Call(1, []), Call(2, []), Call(3, []), Call(4, [])]
  {
    OneEmitRun(b);
    var after := Emit(b, Num(0), []).value.after;
    OneEmitRun(after);
    EmitByIndexOrName(after, 0, []);
  }

  /** Emitting the state without listeners, by position or by state, reports that none ran. */
  lemma OneQuietRun(val: seq<StateName>, b: StateEmitter)
    requires ThreeDistinct(val)
    requires b.states == val[..2]
    requires Entries(b.table, val[1]) == []
    ensures !Emit(b, Num(1), []).value.emitted
    ensures !Emit(b, val[1], []).value.emitted
  {
    EmitByIndexOrName(b, 1, []);
  }

  /** Removing by position and by state, most recent first, empties the shared list. */
  lemma OneRemovalRun(val: seq<StateName>, b: StateEmitter)
    requires ThreeDistinct(val)
    requires b.states == val[..2]
    requires Entries(b.table, val[0]) == [Entry(1, false), Entry(2, false), Entry(3, false), Entry(4, false)]
    ensures
      var c := RemoveListener(b, val[0], 4).value;
      var d := RemoveListener(c, Num(0), 3).value;
      var f := Off(d, val[0], 2).value;
      var g := Off(f, Num(0), 1).value;
      && GetListeners(c, Num(0)) == Success([1, 2, 3])
      && GetListeners(d, val[0]) == Success([1, 2])
      && GetListeners(f, Num(0)) == Success([1])
      && GetListeners(g, val[0]) == Success([])
  {
    var k := val[0];
    assert LastIndex(Entries(b.table, k), 4) == Some(3);
    var c := RemoveListener(b, val[0], 4).value;
    assert Entries(c.table, k) == [Entry(1, false), Entry(2, false), Entry(3, false)];
    assert LastIndex(Entries(c.table, k), 3) == Some(2);
    var d := RemoveListener(c, Num(0), 3).value;
    assert Entries(d.table, k) == [Entry(1, false), Entry(2, false)];
    assert LastIndex(Entries(d.table, k), 2) == Some(1);
    var f := Off(d, val[0], 2).value;
    assert Entries(f.table, k) == [Entry(1, false)];
    assert LastIndex(Entries(f.table, k), 1) == Some(0);
    var g := Off(f, Num(0), 1).value;
    assert Entries(g.table, k) == [];
    assert GetListeners(c, Num(0)).value == [1, 2, 3];
    assert GetListeners(d, val[0]).value == [1, 2];
    assert GetListeners(f, Num(0)).value == [1];
  }

  /** Once-registrations by position and by state share one list. */
  lemma TwoOnceRun(val: seq<StateName>)
    requires ThreeDistinct(val)
    ensures Create(Input.Array(val[1..])) == Success(StateEmitter(val[1..], map[]))
    ensures
      var two := StateEmitter(val[1..], map[]);
      var a := Once(Once(two, Num(0), 5).value, val[1], 6).value;
      && GetListeners(a, Num(0)) == GetListeners(a, val[1]) == Success([5, 6])
      && GetListeners(a, Num(1)) == GetListeners(a, val[2]) == Success([])
      && a.states == val[1..]
      && Entries(a.table, val[1]) == [Entry(5, true), Entry(6, true)]
  {
    CreateOverStates(val[1..]);
    var k := val[1];
    var two := StateEmitter(val[1..], map[]);
    var a5 := Once(two, Num(0), 5).value;
    assert Entries(a5.table, k) == [Entry(5, true)];
    var a := Once(a5, val[1], 6).value;
    assert Entries(a.table, k) == [Entry(5, true), Entry(6, true)];
    assert Entries(a.table, val[2]) == [];
    assert GetListeners(a, val[1]).value == [5, 6];
    ListenersByIndexOrName(a, 0);
    ListenersByIndexOrName(a, 1);
  }

  /** Prepended registrations by position and by state go in front of the shared list, most recent first. */
  lemma TwoPrependRun(val: seq<StateName>, a: StateEmitter)
    requires ThreeDistinct(val)
    requires a.states == val[1..]
    requires Entries(a.table, val[1]) == [Entry(5, true), Entry(6, true)]
    ensures
      var b := PrependOnceListener(PrependListener(a, Num(0), 7).value, val[1], 8).value;
      && b.states == val[1..]
      && Entries(b.table, val[1]) == [Entry(8, true), Entry(7, false), Entry(5, true), Entry(6, true)]
  {
    var a7 := PrependListener(a, Num(0), 7).value;
    assert Entries(a7.table, val[1]) == [Entry(7, false), Entry(5, true), Entry(6, true)];
  }

  /** Two emissions: the first runs every listener with its arguments, the second only the persistent one. */
  lemma TwoEmitRun(val: seq<StateName>, b: StateEmitter, args1: seq<Value>, args2: seq<Value>)
    requires ThreeDistinct(val)
    requires b.states == val[1..]
    requires Entries(b.table, val[1]) == [Entry(8, true), Entry(7, false), Entry(5, true), Entry(6, true)]
    ensures
      var em1 := Emit(b, val[1], args1).value;
      var em2 := Emit(em1.after, val[1], args2).value;
      && GetListeners(b, Num(0)) == GetListeners(b, val[1]) == Success([8, 7, 5, 6])
      && em1.calls == [Call(8, args1), Call(7, args1), Call(5, args1), Call(6, args1)]
      && em2.calls == [Call(7, args2)]
      && GetListeners(em2.after, Num(0)) == Success([7])
  {
    var k := val[1];
    var entries := Entries(b.table, k);
    assert GetListeners(b, val[1]).value == [8, 7, 5, 6];
    ListenersByIndexOrName(b, 0);
    var em1 := Emit(b, val[1], args1).value;
    assert em1.calls == [Call(8, args1), Call(7, args1), Call(5, args1), Call(6, args1)];
    assert Persistent(entries) == [Entry(7, false)] by {
      var s1 := [Entry(7, false), Entry(5, true), Entry(6, true)];
      var s2 := [Entry(5, true), Entry(6, true)];
      var s3 := [Entry(6, true)];
      assert entries[1..] == s1 && s1[1..] == s2 && s2[1..] == s3 && s3[1..] == [];
      assert Persistent(s3) == [];
      assert Persistent(s2) == [];
      assert Persistent(s1) == [Entry(7, false)];
    }
    assert Entries(em1.after.table, k) == [Entry(7, false)];
    var em2 := Emit(em1.after, val[1], args2).value;
    assert em2.calls == [Call(7, args2)];
    assert Persistent([Entry(7, false)]) == [Entry(7, false)];
    assert GetListeners(em2.after, val[1]).value == [7];
    ListenersByIndexOrName(em2.after, 0);
  }

  /** A once-registration by position on the second state, then clearing that state leaves
      the other; clearing without a state leaves nothing. */
  lemma TwoClearRun(val: seq<StateName>)
    requires ThreeDistinct(val)
    ensures
      var b := StateEmitter(val[1..], map[val[1] := [Entry(7, false)]]);
      var c := Once(b, Num(1), 9).value;
      var d := RemoveAllListeners(c, val[2]).value;
      var f := RemoveAllListeners(d, Undefined).value;
      && Entries(c.table, val[2]) == [Entry(9, true)]
      && GetListeners(c, Num(0)) == GetListeners(c, val[1]) == Success([7])
      && GetListeners(c, Num(1)) == GetListeners(c, val[2]) == Success([9])
      && GetListeners(d, Num(0)) == GetListeners(d, val[1]) == Success([7])
      && GetListeners(d, Num(1)) == GetListeners(d, val[2]) == Success([])
      && GetListeners(f, Num(0)) == GetListeners(f, val[1]) == Success([])
      && GetListeners(f, Num(1)) == GetListeners(f, val[2]) == Success([])
  {
    var b := StateEmitter(val[1..], map[val[1] := [Entry(7, false)]]);
    var c := Once(b, Num(1), 9).value;
    assert Canonical(b.states, Num(1)) == val[2];
    assert Entries(c.table, val[2]) == [Entry(9, true)];
    assert Entries(c.table, val[1]) == [Entry(7, false)];
    assert GetListeners(c, val[1]).value == [7];
    assert GetListeners(c, val[2]).value == [9];
    ListenersByIndexOrName(c, 0);
    ListenersByIndexOrName(c, 1);
    var d := RemoveAllListeners(c, val[2]).value;
    assert Entries(d.table, val[1]) == [Entry(7, false)];
    assert GetListeners(d, val[1]).value == [7];
    ListenersByIndexOrName(d, 0);
    ListenersByIndexOrName(d, 1);
    var f := RemoveAllListeners(d, Undefined).value;
    ListenersByIndexOrName(f, 0);
    ListenersByIndexOrName(f, 1);
  }
}
