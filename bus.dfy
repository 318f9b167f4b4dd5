/**
 * The process-wide publish/subscribe hub (sources/utils/event_bus.py).
 *
 * Callbacks are opaque handler identities. What a callback does when it is
 * invoked is given by a `Reaction`: whether it returned normally or raised,
 * and which subscribe/unsubscribe calls it made on the bus while running.
 */
module Bus {

  /** Identity of a registered callback. */
  type HandlerId = nat

  type EventName = string

  /** A callback either returns normally or raises. */
  datatype Outcome = Ok | Err

  /** A call a callback makes on the bus while it is being dispatched. */
  datatype BusOp =
    | SubscribeOp(event: EventName, handler: HandlerId)
    | UnsubscribeOp(event: EventName, handler: HandlerId)

  /** What happens when a callback is invoked. */
  datatype Reaction = Reaction(outcome: Outcome, ops: seq<BusOp>)

  /** The `_listeners` dictionary: event name to handler list. */
  type Registry = map<EventName, seq<HandlerId>>

  /** `_listeners.get(event, [])`: the handlers of `e`, without creating an entry. */
  function Listeners(m: Registry, e: EventName): seq<HandlerId> {
    if e in m then m[e] else []
  }

  /** Position of the first occurrence of `h` in `s`. */
  function FirstIndex(s: seq<HandlerId>, h: HandlerId): (k: nat)
    requires h in s
    ensures k < |s| && s[k] == h && h !in s[..k]
  {
    if s[0] == h then 0
    else
      var k' := FirstIndex(s[1..], h);
      assert s[..k' + 1] == [s[0]] + s[1..][..k'];
      k' + 1
  }

  /** `list.remove(h)`, with the `ValueError` of an absent handler swallowed. */
  function RemoveFirst(s: seq<HandlerId>, h: HandlerId): (r: seq<HandlerId>)
    ensures h !in s ==> r == s
    ensures h in s ==> r == s[..FirstIndex(s, h)] + s[FirstIndex(s, h) + 1..]
  {
    if s == [] then []
    else if s[0] == h then s[1..]
    else
      var rest := RemoveFirst(s[1..], h);
      RemoveFirstStep(s, h, rest);
      [s[0]] + rest
  }

  /** The step of `RemoveFirst` past a head that is not `h`. */
  lemma RemoveFirstStep(s: seq<HandlerId>, h: HandlerId, rest: seq<HandlerId>)
    requires s != [] && s[0] != h
    requires h !in s[1..] ==> rest == s[1..]
    requires h in s[1..] ==> rest == s[1..][..FirstIndex(s[1..], h)] + s[1..][FirstIndex(s[1..], h) + 1..]
    ensures h !in s ==> [s[0]] + rest == s
    ensures h in s ==> [s[0]] + rest == s[..FirstIndex(s, h)] + s[FirstIndex(s, h) + 1..]
  {
    if h in s {
      var k := FirstIndex(s[1..], h);
      assert FirstIndex(s, h) == k + 1;
      assert s[..k + 1] == [s[0]] + s[1..][..k];
      assert s[k + 2..] == s[1..][k + 1..];
    } else {
      assert s == [s[0]] + s[1..];
    }
  }

  /** The registry after `subscribe(e, h)`: the default dict creates the entry if needed. */
  function Subscribed(m: Registry, e: EventName, h: HandlerId): Registry {
    m[e := Listeners(m, e) + [h]]
  }

  /** The registry after `unsubscribe(e, h)`: only an existing entry is touched. */
  function Unsubscribed(m: Registry, e: EventName, h: HandlerId): Registry {
    if e in m then m[e := RemoveFirst(m[e], h)] else m
  }

  function Apply(m: Registry, op: BusOp): Registry {
    match op
    case SubscribeOp(e, h) => Subscribed(m, e, h)
    case UnsubscribeOp(e, h) => Unsubscribed(m, e, h)
  }

  /** The registry after the calls `ops`, in order. */
  function ApplyAll(m: Registry, ops: seq<BusOp>): Registry {
    if ops == [] then m else Apply(ApplyAll(m, ops[..|ops| - 1]), ops[|ops| - 1])
  }

  /** All bus calls made by the callbacks `hs`, in invocation order. */
  function Effects(react: HandlerId -> Reaction, hs: seq<HandlerId>): seq<BusOp> {
    if hs == [] then [] else Effects(react, hs[..|hs| - 1]) + react(hs[|hs| - 1]).ops
  }

  /** The callbacks among `hs` that raise, in invocation order. */
  function Failures(react: HandlerId -> Reaction, hs: seq<HandlerId>): seq<HandlerId> {
    if hs == [] then []
    else Failures(react, hs[..|hs| - 1]) + (if react(hs[|hs| - 1]).outcome == Err then [hs[|hs| - 1]] else [])
  }

  /** Subscribing appends to the end of that event's list and touches no other event. */
  lemma SubscribeAppends(m: Registry, e: EventName, h: HandlerId, other: EventName)
    ensures Listeners(Subscribed(m, e, h), e) == Listeners(m, e) + [h]
    ensures other != e ==> Listeners(Subscribed(m, e, h), other) == Listeners(m, other)
  {
  }

  /** Unsubscribing an absent handler, or from an absent event, changes nothing. */
  lemma UnsubscribeAbsent(m: Registry, e: EventName, h: HandlerId)
    requires h !in Listeners(m, e)
    ensures Unsubscribed(m, e, h) == m
  {
  }

  /** Removing a handler that was appended last and occurs nowhere else gives back the list. */
  lemma RemoveAppended(s: seq<HandlerId>, h: HandlerId)
    requires h !in s
    ensures RemoveFirst(s + [h], h) == s
  {
    var k := FirstIndex(s + [h], h);
    assert forall i :: 0 <= i < |s| ==> (s + [h])[i] != h;
    assert (s + [h])[..k] == s;
  }

  /**
   * Subscribing a handler that is not yet registered for `e` and unsubscribing
   * it again restores every handler list; the registry itself is restored
   * when `e` already had an entry (otherwise an empty entry is left behind).
   */
  lemma SubscribeThenUnsubscribe(m: Registry, e: EventName, h: HandlerId, other: EventName)
    requires h !in Listeners(m, e)
    ensures Listeners(Unsubscribed(Subscribed(m, e, h), e, h), other) == Listeners(m, other)
    ensures e in m ==> Unsubscribed(Subscribed(m, e, h), e, h) == m
    ensures e !in m ==> Unsubscribed(Subscribed(m, e, h), e, h) == m[e := []]
  {
    RemoveAppended(Listeners(m, e), h);
  }

  /** Running two batches of bus calls one after the other is running their concatenation. */
  lemma {:induction false} ApplyAllConcat(m: Registry, a: seq<BusOp>, b: seq<BusOp>)
    ensures ApplyAll(m, a + b) == ApplyAll(ApplyAll(m, a), b)
    decreases |b|
  {
    if b == [] {
      assert a + b == a;
    } else {
      var b' := b[..|b| - 1];
      assert (a + b)[..|a + b| - 1] == a + b';
      assert (a + b)[|a + b| - 1] == b[|b| - 1];
      ApplyAllConcat(m, a, b');
    }
  }

  class EventBus {
    var listeners: Registry

    constructor ()
      ensures listeners == map[]
    {
      listeners := map[];
    }

    /** `subscribe`: append `handler` to the list of `event`. */
    method Subscribe(event: EventName, handler: HandlerId)
      modifies this
      ensures listeners == Subscribed(old(listeners), event, handler)
    {
      listeners := listeners[event := Listeners(listeners, event) + [handler]];
    }

    /** `unsubscribe`: remove the first registration of `handler`, if any. */
    method Unsubscribe(event: EventName, handler: HandlerId)
      modifies this
      ensures listeners == Unsubscribed(old(listeners), event, handler)
    {
      if event in listeners {
        listeners := listeners[event := RemoveFirst(listeners[event], handler)];
      }
    }

    /** The bus calls one callback makes while it runs, carried out in order. */
    method Perform(ops: seq<BusOp>)
      modifies this
      ensures listeners == ApplyAll(old(listeners), ops)
    {
      var j := 0;
      while j < |ops|
        invariant 0 <= j <= |ops|
        invariant listeners == ApplyAll(old(listeners), ops[..j])
      {
        assert ops[..j + 1][..j] == ops[..j];
        match ops[j] {
          case SubscribeOp(e, x) => Subscribe(e, x);
          case UnsubscribeOp(e, x) => Unsubscribe(e, x);
        }
        j := j + 1;
      }
      assert ops[..j] == ops;
    }

    /**
     * `publish`: invoke every handler registered for `event` when the call
     * starts, in subscription order, over a copy of the list. Subscriptions
     * made by the handlers take effect on the registry but not on this
     * dispatch; a handler that raises is reported in `failed` and the
     * remaining handlers still run.
     */
    method Publish(event: EventName, react: HandlerId -> Reaction) returns (invoked: seq<HandlerId>, failed: seq<HandlerId>)
      modifies this
      ensures invoked == Listeners(old(listeners), event)
      ensures failed == Failures(react, invoked)
      ensures listeners == ApplyAll(old(listeners), Effects(react, invoked))
      ensures event !in old(listeners) ==> invoked == [] && listeners == old(listeners)
    {
      var snapshot := Listeners(listeners, event);
      invoked, failed := [], [];
      var i := 0;
      while i < |snapshot|
        invariant 0 <= i <= |snapshot|
        invariant invoked == snapshot[..i]
        invariant failed == Failures(react, invoked)
        invariant listeners == ApplyAll(old(listeners), Effects(react, invoked))
      {
        var h := snapshot[i];
        var r := react(h);
        Perform(r.ops);
        ApplyAllConcat(old(listeners), Effects(react, invoked), r.ops);
        invoked := invoked + [h];
        assert invoked[..|invoked| - 1] == snapshot[..i];
        if r.outcome == Err {
          failed := failed + [h];
        }
        i := i + 1;
        assert invoked == snapshot[..i];
      }
      assert snapshot[..i] == snapshot;
    }
  }
}
