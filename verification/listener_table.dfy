/**
 * The delegated event emitter, reduced to what the state emitter relies on:
 * a table from a key to the ordered list of registered listeners.
 *
 * A listener is an opaque id; `once` marks a registration that the emitter
 * drops after its first emission. A key that was never registered has the
 * empty list.
 */
module ListenerTable {
  import opened Values
  import opened Wrappers

  type ListenerId = nat

  datatype Entry = Entry(listener: ListenerId, once: bool)

  /** One invocation of a listener, with the arguments the emission passed on. */
  datatype Call = Call(listener: ListenerId, args: seq<Value>)

  type Table = map<StateName, seq<Entry>>

  /** The registrations for `k`, in invocation order. */
  function Entries(t: Table, k: StateName): seq<Entry> {
    if k in t then t[k] else []
  }

  /** The listener ids registered for `k`, once-registrations unwrapped. */
  function Listeners(t: Table, k: StateName): (r: seq<ListenerId>)
    ensures |r| == |Entries(t, k)|
    ensures forall i :: 0 <= i < |r| ==> r[i] == Entries(t, k)[i].listener
  {
    ListenerIds(Entries(t, k))
  }

  function ListenerIds(s: seq<Entry>): (r: seq<ListenerId>)
    ensures |r| == |s|
    ensures forall i :: 0 <= i < |r| ==> r[i] == s[i].listener
  {
    if |s| == 0 then [] else [s[0].listener] + ListenerIds(s[1..])
  }

  /** Every key other than `k` has the same registrations in `t` and `t'`. */
  ghost predicate UnchangedExcept(t: Table, t': Table, k: StateName) {
    forall k' :: k' != k ==> Entries(t', k') == Entries(t, k')
  }

  /** Registers `x` after the existing registrations of `k`. */
  function Append(t: Table, k: StateName, x: Entry): (r: Table)
    ensures Entries(r, k) == Entries(t, k) + [x]
    ensures UnchangedExcept(t, r, k)
  {
    t[k := Entries(t, k) + [x]]
  }

  /** Registers `x` before the existing registrations of `k`. */
  function Prepend(t: Table, k: StateName, x: Entry): (r: Table)
    ensures Entries(r, k) == [x] + Entries(t, k)
    ensures UnchangedExcept(t, r, k)
  {
    t[k := [x] + Entries(t, k)]
  }

  /** The position of the most recent registration of `l` in `s`, if any. */
  function LastIndex(s: seq<Entry>, l: ListenerId): (r: Option<nat>)
    ensures r.None? <==> forall i :: 0 <= i < |s| ==> s[i].listener != l
    ensures r.Some? ==> r.value < |s| && s[r.value].listener == l
    ensures r.Some? ==> forall i :: r.value < i < |s| ==> s[i].listener != l
  {
    if |s| == 0 then None
    else if s[|s| - 1].listener == l then Some(|s| - 1)
    else LastIndex(s[..|s| - 1], l)
  }

  /** Unregisters the most recent registration of `l` for `k`; no effect if there is none. */
  function Remove(t: Table, k: StateName, l: ListenerId): (r: Table)
    ensures LastIndex(Entries(t, k), l).None? ==> Entries(r, k) == Entries(t, k)
    ensures LastIndex(Entries(t, k), l).Some? ==>
      var j := LastIndex(Entries(t, k), l).value;
      |Entries(r, k)| == |Entries(t, k)| - 1 &&
      Entries(r, k)[..j] == Entries(t, k)[..j] &&
      Entries(r, k)[j..] == Entries(t, k)[j + 1..]
    ensures UnchangedExcept(t, r, k)
  {
    var s := Entries(t, k);
    match LastIndex(s, l)
    case None => t
    case Some(j) => t[k := s[..j] + s[j + 1..]]
  }

  /** Unregisters everything for `k`. */
  function Clear(t: Table, k: StateName): (r: Table)
    ensures Entries(r, k) == []
    ensures UnchangedExcept(t, r, k)
    ensures r.Keys <= t.Keys
  {
    t - {k}
  }

  /** The registrations of `s` that survive an emission: the ones not made with `once`. */
  function Persistent(s: seq<Entry>): (r: seq<Entry>)
    ensures |r| <= |s|
    ensures forall i :: 0 <= i < |r| ==> !r[i].once && r[i] in s
    ensures forall x :: x in s && !x.once ==> x in r
  {
    if |s| == 0 then []
    else if s[0].once then Persistent(s[1..])
    else [s[0]] + Persistent(s[1..])
  }

  /** The invocations an emission with `args` makes over the registrations `s`, in order. */
  function Calls(s: seq<Entry>, args: seq<Value>): (r: seq<Call>)
    ensures |r| == |s|
    ensures forall i :: 0 <= i < |r| ==> r[i] == Call(s[i].listener, args)
  {
    if |s| == 0 then [] else [Call(s[0].listener, args)] + Calls(s[1..], args)
  }

  /** Emits `k`: invokes every registration for `k` and drops the once-registrations. */
  function Fire(t: Table, k: StateName, args: seq<Value>): (r: (seq<Call>, Table))
    ensures |r.0| == |Entries(t, k)|
    ensures forall i :: 0 <= i < |r.0| ==> r.0[i] == Call(Entries(t, k)[i].listener, args)
    ensures Entries(r.1, k) == Persistent(Entries(t, k))
    ensures UnchangedExcept(t, r.1, k)
  {
    (Calls(Entries(t, k), args), t[k := Persistent(Entries(t, k))])
  }
}
