/**
 * Events and the in-process event bus (`Event`, `EventType` and `EventHandler`
 * of client/client.py). Callbacks are opaque identities; whether a callback
 * raises on an event is the fixed relation `raises`, and the bus logs every
 * invocation it makes.
 */
module Events {
  import opened Wrappers
  import opened Failures

  datatype EventType =
    | JobCreated | StatusChanged | RetryAttempted | ErrorOccurred | JobCompleted
    | JobFailed | Timeout | CircuitBreakerOpened | CircuitBreakerClosed | BatchOperation

  /** An event names one job, or an ordered list of jobs for batch events. */
  datatype JobRef = One(id: string) | Many(ids: seq<string>)

  /** The part of an event's payload the model keeps, per kind of event. */
  datatype Detail =
    | NoDetail
    | Transition(previous: Option<string>, current: string, attempt: nat)
    | Retry(retryCount: nat, nextInterval: real)
    | Final(finalStatus: string)
    | Elapsed(elapsedTime: real)
    | Progress(elapsedTime: real, completedJobs: nat, remainingJobs: nat)
    | Error(error: Failure)
    | CreateSummary(successCount: nat, errorCount: nat, errors: seq<Failure>)
    | StatusSummary(statuses: map<string, string>, errorCount: nat, failedIds: seq<(string, Failure)>)

  datatype Event = Event(kind: EventType, job: JobRef, detail: Detail)

  datatype Callback = Callback(id: nat)

  /** One call of a listener: which one, on which event, and whether it raised. */
  datatype Invocation = Invocation(callback: Callback, event: Event, raised: bool)

  type Listeners = map<EventType, seq<Callback>>

  function ListenersOf(ls: Listeners, t: EventType): seq<Callback>
  {
    if t in ls then ls[t] else []
  }

  /** The invocations `dispatch` makes for one event: every listener, in order, raising or not. */
  function Notify(cbs: seq<Callback>, e: Event, raises: (Callback, Event) -> bool): (r: seq<Invocation>)
    ensures |r| == |cbs|
    ensures forall k :: 0 <= k < |cbs| ==> r[k].callback == cbs[k] && r[k].event == e && r[k].raised == raises(cbs[k], e)
  {
    seq(|cbs|, k requires 0 <= k < |cbs| => Invocation(cbs[k], e, raises(cbs[k], e)))
  }

  /** The invocations made by dispatching `es` in order with listeners `ls`. */
  function NotifyAll(ls: Listeners, es: seq<Event>, raises: (Callback, Event) -> bool): seq<Invocation>
  {
    if es == [] then []
    else NotifyAll(ls, es[..|es| - 1], raises) + Notify(ListenersOf(ls, es[|es| - 1].kind), es[|es| - 1], raises)
  }

  lemma {:induction false} NotifyAllAppend(ls: Listeners, a: seq<Event>, b: seq<Event>, raises: (Callback, Event) -> bool)
    ensures NotifyAll(ls, a + b, raises) == NotifyAll(ls, a, raises) + NotifyAll(ls, b, raises)
  {
    if b == [] {
      assert a + b == a;
    } else {
      var b' := b[..|b| - 1];
      assert (a + b)[..|a + b| - 1] == a + b';
      assert (a + b)[|a + b| - 1] == b[|b| - 1];
      NotifyAllAppend(ls, a, b', raises);
    }
  }

  /** Concatenation is associative; stated once so that heavy contexts need not rediscover it. */
  lemma AppendAssoc<T>(a: seq<T>, b: seq<T>, c: seq<T>)
    ensures (a + b) + c == a + (b + c)
  {
  }

  /** A non-empty sequence is its front followed by its last element. */
  lemma SplitLast<T>(s: seq<T>)
    requires |s| > 0
    ensures s[..|s| - 1] + [s[|s| - 1]] == s
  {
  }

  /** Appending a non-empty sequence makes its last element the last one. */
  lemma LastOfAppend<T>(a: seq<T>, b: seq<T>)
    requires b != []
    ensures a + b != [] && (a + b)[|a + b| - 1] == b[|b| - 1]
  {
  }

  /** The number of events of kind `t`. */
  function Count(es: seq<Event>, t: EventType): (n: nat)
    ensures n <= |es|
  {
    if es == [] then 0 else (if es[0].kind == t then 1 else 0) + Count(es[1..], t)
  }

  lemma {:induction false} CountAppend(a: seq<Event>, b: seq<Event>, t: EventType)
    ensures Count(a + b, t) == Count(a, t) + Count(b, t)
  {
    if a == [] {
      assert a + b == b;
    } else {
      assert (a + b)[1..] == a[1..] + b;
      CountAppend(a[1..], b, t);
    }
  }

  /** No event of kind `t`. */
  predicate Without(es: seq<Event>, t: EventType)
  {
    forall k :: 0 <= k < |es| ==> es[k].kind != t
  }

  /** A single event counts once for its own kind and not at all for the others. */
  lemma CountOne(e: Event, t: EventType)
    ensures Count([e], t) == (if e.kind == t then 1 else 0)
  {
    assert [e][1..] == [];
  }

  lemma {:induction false} CountAbsent(es: seq<Event>, t: EventType)
    requires Without(es, t)
    ensures Count(es, t) == 0
  {
    if es != [] {
      CountAbsent(es[1..], t);
    }
  }

  /** Slicing after the head of `s` is slicing `s` one position further on. */
  lemma TailSlices<T>(s: seq<T>, j: nat)
    requires j + 1 < |s|
    ensures s[..j + 1] == [s[0]] + s[1..][..j] && s[j + 2..] == s[1..][j + 1..]
  {
  }

  /** The position of the first occurrence of `x`, as `list.index(x)`. */
  function IndexOf<T(==)>(s: seq<T>, x: T): (i: nat)
    requires x in s
    ensures i < |s| && s[i] == x && x !in s[..i]
  {
    if s[0] == x then 0
    else
      var j := IndexOf(s[1..], x);
      TailSlices(s, j);
      j + 1
  }

  /** `list.remove(x)` when `x` is present; the list unchanged otherwise. */
  function RemoveFirst<T(==)>(s: seq<T>, x: T): seq<T>
  {
    if x in s then
      var i := IndexOf(s, x);
      s[..i] + s[i + 1..]
    else s
  }

  /** The event bus: one listener list per event type and an append-only history. */
  class EventHandler {
    var listeners: Listeners
    var history: seq<Event>
    var calls: seq<Invocation>
    const raises: (Callback, Event) -> bool

    ghost predicate Valid()
      reads this
    {
      forall t: EventType :: t in listeners
    }

    /** The bus has appended `es` to the history `h0` and notified the listeners of each, after `c0`. */
    ghost predicate Published(h0: seq<Event>, c0: seq<Invocation>, es: seq<Event>)
      reads this
    {
      history == h0 + es && calls == c0 + NotifyAll(listeners, es, raises)
    }

    constructor (raises: (Callback, Event) -> bool)
      ensures Valid() && this.raises == raises
      ensures forall t: EventType :: listeners[t] == []
      ensures history == [] && calls == []
    {
      var none := map[
        JobCreated := [], StatusChanged := [], RetryAttempted := [], ErrorOccurred := [],
        JobCompleted := [], JobFailed := [], Timeout := [], CircuitBreakerOpened := [],
        CircuitBreakerClosed := [], BatchOperation := []];
      forall t: EventType ensures t in none && none[t] == [] {
        match t
        case JobCreated =>
        case StatusChanged =>
        case RetryAttempted =>
        case ErrorOccurred =>
        case JobCompleted =>
        case JobFailed =>
        case Timeout =>
        case CircuitBreakerOpened =>
        case CircuitBreakerClosed =>
        case BatchOperation =>
      }
      listeners := none;
      history := [];
      calls := [];
      this.raises := raises;
    }

    /** `subscribe`: append the callback to that type's list only. */
    method Subscribe(t: EventType, cb: Callback)
      requires Valid()
      modifies this
      ensures Valid() && listeners == old(listeners)[t := old(listeners)[t] + [cb]]
      ensures history == old(history) && calls == old(calls)
    {
      listeners := listeners[t := listeners[t] + [cb]];
    }

    /** `unsubscribe`: remove the first occurrence of the callback, if it is there. */
    method Unsubscribe(t: EventType, cb: Callback)
      requires Valid()
      modifies this
      ensures Valid() && listeners == old(listeners)[t := RemoveFirst(old(listeners)[t], cb)]
      ensures cb !in old(listeners)[t] ==> listeners == old(listeners)
      ensures history == old(history) && calls == old(calls)
    {
      if cb in listeners[t] {
        listeners := listeners[t := RemoveFirst(listeners[t], cb)];
      }
    }

    /**
     * `dispatch`: record the event, then call every listener of its type in
     * order; a listener that raises is reported and the loop goes on.
     */
    method Dispatch(e: Event)
      requires Valid()
      modifies this
      ensures Valid() && listeners == old(listeners)
      ensures history == old(history) + [e]
      ensures calls == old(calls) + Notify(listeners[e.kind], e, raises)
    {
      history := history + [e];
      var cbs := listeners[e.kind];
      var i := 0;
      while i < |cbs|
        invariant 0 <= i <= |cbs|
        invariant listeners == old(listeners) && history == old(history) + [e]
        invariant calls == old(calls) + Notify(cbs[..i], e, raises)
      {
        var failed := raises(cbs[i], e);
        calls := calls + [Invocation(cbs[i], e, failed)];
        // a raising callback is only reported; the remaining listeners are still called
        assert Notify(cbs[..i + 1], e, raises) == Notify(cbs[..i], e, raises) + [Invocation(cbs[i], e, failed)];
        i := i + 1;
      }
      assert cbs[..i] == cbs;
    }

    /** What was published after `es` extends what had been published before it. */
    lemma PublishedAppend(h0: seq<Event>, c0: seq<Invocation>, es: seq<Event>, fs: seq<Event>)
      requires Published(h0 + es, c0 + NotifyAll(listeners, es, raises), fs)
      ensures Published(h0, c0, es + fs)
    {
      NotifyAllAppend(listeners, es, fs, raises);
      AppendAssoc(h0, es, fs);
      AppendAssoc(c0, NotifyAll(listeners, es, raises), NotifyAll(listeners, fs, raises));
    }

    /** Dispatching one more event extends what has been published. */
    lemma PublishedSnoc(h0: seq<Event>, c0: seq<Invocation>, es: seq<Event>, e: Event)
      requires Valid()
      ensures var es' := es + [e];
        NotifyAll(listeners, es', raises) == NotifyAll(listeners, es, raises) + Notify(listeners[e.kind], e, raises)
    {
      var es' := es + [e];
      assert es'[..|es'| - 1] == es;
    }
  }
}
