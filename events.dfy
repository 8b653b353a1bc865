/** The event manager (src/catalyst/core/events.ts): a list of listeners,
    each for one event name, appended on registration and removed by
    identity. Listener callbacks are not part of this model: an exception
    from one is caught and dispatch goes on, so only which listeners run
    is modelled. */
module Events {
  import opened Base

  /** A registered listener. It is an object: two registrations are two
      listeners even with the same event and flag. */
  class Listener {
    const event: string
    const once: bool

    constructor(event: string, once: bool)
      ensures this.event == event && this.once == once
    {
      this.event := event;
      this.once := once;
    }
  }

  // ---------------------------------------------------------------------------
  // The listener list as a value

  /** `indexOf`: the first position of the listener, by identity. */
  function FirstIndex(ls: seq<Listener>, l: Listener): (r: Option<nat>)
    ensures r.None? <==> l !in ls
    ensures r.Some? ==> r.value < |ls| && ls[r.value] == l && l !in ls[..r.value]
  {
    if ls == [] then None
    else if ls[0] == l then Some(0)
    else match FirstIndex(ls[1..], l)
      case None => None
      case Some(i) =>
        assert ls[..i + 1] == [ls[0]] + ls[1..][..i];
        Some(i + 1)
  }

  /** The list without the first occurrence of the listener; the same list
      when it is absent. */
  function Without(ls: seq<Listener>, l: Listener): (r: seq<Listener>)
    ensures l !in ls ==> r == ls
    ensures l in ls ==> |r| == |ls| - 1 && multiset(r) + multiset{l} == multiset(ls)
  {
    match FirstIndex(ls, l)
    case None => ls
    case Some(i) =>
      assert ls == ls[..i] + [ls[i]] + ls[i + 1..];
      ls[..i] + ls[i + 1..]
  }

  /** The number of listeners for the event. */
  function Count(ls: seq<Listener>, event: string): (r: nat)
    ensures r <= |ls|
    ensures r == 0 <==> forall k :: 0 <= k < |ls| ==> ls[k].event != event
  {
    if ls == [] then 0
    else
      var init := ls[..|ls| - 1];
      var n := Count(init, event);
      assert forall k :: 0 <= k < |init| ==> init[k] == ls[k];
      n + if ls[|ls| - 1].event == event then 1 else 0
  }

  /** The listeners left after every listener for the event has run once:
      all but the `once` listeners for that event, in order. */
  function Keep(ls: seq<Listener>, event: string): (r: seq<Listener>)
    ensures |r| <= |ls|
    ensures forall k :: 0 <= k < |r| ==> r[k] in ls && !(r[k].event == event && r[k].once)
    ensures forall k :: 0 <= k < |ls| && !(ls[k].event == event && ls[k].once) ==> ls[k] in r
  {
    if ls == [] then []
    else
      var init := ls[..|ls| - 1];
      var l := ls[|ls| - 1];
      assert ls == init + [l];
      if l.event == event && l.once then Keep(init, event) else Keep(init, event) + [l]
  }

  /** The `forEach` of `dispatchEvent` as written, from index `k`: it reads
      the element now at `k` of a list from which the `once` listeners it
      runs are removed, so each removal moves the next listener to an index
      already visited. The count of listeners run and the final list. */
  function ForEachRun(ls: seq<Listener>, event: string, k: nat): (r: (nat, seq<Listener>))
    ensures r.0 <= |ls| - k || k >= |ls|
    decreases |ls| - k
  {
    if k >= |ls| then (0, ls)
    else
      var l := ls[k];
      if l.event != event then ForEachRun(ls, event, k + 1)
      else
        var rest := ForEachRun(if l.once then Without(ls, l) else ls, event, k + 1);
        (rest.0 + 1, rest.1)
  }

  /** When no `once` listener is for the event nothing is removed, and the
      `forEach` runs every listener for the event. */
  lemma {:induction false} ForEachWithoutOnce(ls: seq<Listener>, event: string, k: nat)
    requires k <= |ls|
    requires forall j :: 0 <= j < |ls| && ls[j].event == event ==> !ls[j].once
    ensures ForEachRun(ls, event, k) == (Count(ls[k..], event), ls)
    decreases |ls| - k
  {
    if k < |ls| {
      ForEachWithoutOnce(ls, event, k + 1);
      CountCons(ls[k..], event);
      assert ls[k..][1..] == ls[k + 1..];
    }
  }

  lemma CountCons(ls: seq<Listener>, event: string)
    requires ls != []
    ensures Count(ls, event) == Count(ls[1..], event) + if ls[0].event == event then 1 else 0
    decreases |ls|
  {
    if |ls| > 1 {
      var init := ls[..|ls| - 1];
      CountCons(init, event);
      assert init[1..] == ls[1..][..|ls[1..]| - 1];
    }
  }

  /** A `once` listener followed by a second listener for the same event:
      the `forEach` as written runs only the first, where both are meant to
      run, and the second is kept. */
  lemma SkipAfterOnce(a: Listener, b: Listener, event: string)
    requires a != b && a.event == event && b.event == event && a.once && !b.once
    ensures ForEachRun([a, b], event, 0) == (1, [b])
    ensures Count([a, b], event) == 2 && Keep([a, b], event) == [b]
  {
    assert FirstIndex([a, b], a) == Some(0);
    assert Without([a, b], a) == [b];
    assert [a, b][..1] == [a];
  }

  // ---------------------------------------------------------------------------
  // The manager

  class EventManager {
    var listeners: seq<Listener>

    constructor()
      ensures listeners == []
    {
      listeners := [];
    }

    /** `addEventListener`: a new listener at the end of the list, also when
        `prepend` asks for the front. */
    method AddEventListener(event: string, once: bool, prepend: bool) returns (l: Listener)
      modifies this
      ensures fresh(l) && l.event == event && l.once == once
      ensures listeners == old(listeners) + [l]
    {
      l := new Listener(event, once);
      listeners := listeners + [l];
    }

    /** `removeEventListener`: false when the listener is not in the list;
        otherwise its first occurrence goes. */
    method RemoveEventListener(l: Listener) returns (r: bool)
      modifies this
      ensures r <==> l in old(listeners)
      ensures listeners == Without(old(listeners), l)
    {
      var idx := IndexOf(listeners, l);
      if idx.None? {
        return false;
      }
      listeners := listeners[..idx.value] + listeners[idx.value + 1..];
      return true;
    }

    /** `dispatchEvent` as written: the `forEach` over the list it removes
        `once` listeners from. `forEach` stops at the length the list had
        when it started and skips indices past the current end. */
    method DispatchEventAsWritten(event: string) returns (n: nat)
      modifies this
      ensures (n, listeners) == ForEachRun(old(listeners), event, 0)
    {
      n := 0;
      var length := |listeners|;
      var k := 0;
      while k < length
        invariant |listeners| <= length && k <= length
        invariant ForEachRun(old(listeners), event, 0)
               == (n + ForEachRun(listeners, event, k).0, ForEachRun(listeners, event, k).1)
      {
        if k < |listeners| {
          var listener := listeners[k];
          if listener.event == event {
            n := n + 1;
            if listener.once {
              var _ := RemoveEventListener(listener);
            }
          }
        }
        k := k + 1;
      }
    }

    /** `dispatchEvent` as intended: every listener registered for the event
        when dispatch starts runs once, the count is their number, and the
        `once` ones among them are gone afterwards. */
    method DispatchEvent(event: string) returns (n: nat)
      modifies this
      ensures n == Count(old(listeners), event)
      ensures listeners == Keep(old(listeners), event)
    {
      n := 0;
      var kept := [];
      var k := 0;
      while k < |listeners|
        invariant 0 <= k <= |listeners|
        invariant n == Count(listeners[..k], event)
        invariant kept == Keep(listeners[..k], event)
      {
        assert listeners[..k + 1][..k] == listeners[..k];
        var listener := listeners[k];
        if listener.event == event {
          n := n + 1;
        }
        if !(listener.event == event && listener.once) {
          kept := kept + [listener];
        }
        k := k + 1;
      }
      assert listeners[..k] == listeners;
      listeners := kept;
    }

    method On(event: string) returns (l: Listener)
      modifies this
      ensures fresh(l) && l.event == event && !l.once
      ensures listeners == old(listeners) + [l]
    {
      l := AddEventListener(event, false, false);
    }

    method Once(event: string) returns (l: Listener)
      modifies this
      ensures fresh(l) && l.event == event && l.once
      ensures listeners == old(listeners) + [l]
    {
      l := AddEventListener(event, true, false);
    }

    method Prepend(event: string) returns (l: Listener)
      modifies this
      ensures fresh(l) && l.event == event && !l.once
      ensures listeners == old(listeners) + [l]
    {
      l := AddEventListener(event, false, true);
    }

    method PrependOnce(event: string) returns (l: Listener)
      modifies this
      ensures fresh(l) && l.event == event && l.once
      ensures listeners == old(listeners) + [l]
    {
      l := AddEventListener(event, true, true);
    }

    method Off(l: Listener) returns (r: bool)
      modifies this
      ensures r <==> l in old(listeners)
      ensures listeners == Without(old(listeners), l)
    {
      r := RemoveEventListener(l);
    }

    method Emit(event: string) returns (n: nat)
      modifies this
      ensures n == Count(old(listeners), event)
      ensures listeners == Keep(old(listeners), event)
    {
      n := DispatchEvent(event);
    }
  }

  /** The search of `indexOf`. */
  method IndexOf(ls: seq<Listener>, l: Listener) returns (r: Option<nat>)
    ensures r == FirstIndex(ls, l)
  {
    var i := 0;
    while i < |ls|
      invariant 0 <= i <= |ls|
      invariant l !in ls[..i]
    {
      if ls[i] == l {
        FirstIndexAt(ls, l, i);
        return Some(i);
      }
      assert ls[..i + 1] == ls[..i] + [ls[i]];
      i := i + 1;
    }
    assert ls[..i] == ls;
    return None;
  }

  /** The first index is the one before which the listener does not occur. */
  lemma FirstIndexAt(ls: seq<Listener>, l: Listener, i: nat)
    requires i < |ls| && ls[i] == l && l !in ls[..i]
    ensures FirstIndex(ls, l) == Some(i)
  {
    var r := FirstIndex(ls, l);
    assert forall j :: 0 <= j < i ==> ls[..i][j] == ls[j];
    assert forall j :: 0 <= j < r.value ==> ls[..r.value][j] == ls[j];
  }
}
