/**
 * The event bus (`src/game/events.ts`): a registry from event name to the
 * handlers listening to it. Handlers are opaque identities; a JavaScript
 * `Set` keeps its elements in insertion order, so each registry entry is a
 * sequence without repetitions.
 */
module Events {

  datatype EventKey = LinesCleared | MonsterDefeated | SkillGained

  /** The payload of each event, as `GameEventMap` declares it. */
  datatype Payload =
    | LinesClearedPayload(clearedLines: int, tSpinType: string, comboChain: int, backToBack: bool, damage: int)
    | MonsterDefeatedPayload(stageId: int, exp: int, level: int)
    | SkillGainedPayload(skillId: string, level: int)

  /** A handler's identity. */
  type Handler = nat

  /** One invocation made by `emit`. */
  datatype Invocation = Invocation(handler: Handler, payload: Payload)

  /** What `on` returns: calling it unregisters the same handler from the same event. */
  datatype Unsubscribe = Unsubscribe(event: EventKey, handler: Handler)

  predicate NoDuplicates(hs: seq<Handler>) {
    forall i, j :: 0 <= i < j < |hs| ==> hs[i] != hs[j]
  }

  /** `Set.prototype.add`: appends a handler that is not there yet. */
  function Added(hs: seq<Handler>, h: Handler): (r: seq<Handler>)
    requires NoDuplicates(hs)
    ensures NoDuplicates(r) && h in r && |r| > 0
    ensures forall g :: g in r <==> g in hs || g == h
  {
    if h in hs then hs else hs + [h]
  }

  /** `Set.prototype.delete`: removes the handler, keeping the others in order. */
  function Removed(hs: seq<Handler>, h: Handler): (r: seq<Handler>)
    ensures h !in r && |r| <= |hs|
    ensures forall g :: g in r <==> g in hs && g != h
    ensures NoDuplicates(hs) ==> NoDuplicates(r)
  {
    if |hs| == 0 then []
    else if hs[0] == h then Removed(hs[1..], h)
    else
      var rest := Removed(hs[1..], h);
      assert NoDuplicates(hs) ==> hs[0] !in hs[1..];
      [hs[0]] + rest
  }

  /** Removing a handler that is not there changes nothing. */
  lemma {:induction false} RemovedAbsent(hs: seq<Handler>, h: Handler)
    requires h !in hs
    ensures Removed(hs, h) == hs
  {
    if |hs| > 0 {
      RemovedAbsent(hs[1..], h);
    }
  }

  /** Removing a registered handler drops its one occurrence and keeps the others in order. */
  lemma {:induction false} RemovedKeepsOrder(hs: seq<Handler>, h: Handler, k: int)
    requires NoDuplicates(hs) && 0 <= k < |hs| && hs[k] == h
    ensures Removed(hs, h) == hs[..k] + hs[k + 1..]
  {
    if k == 0 {
      assert h !in hs[1..];
      RemovedAbsent(hs[1..], h);
    } else {
      var tail := hs[1..];
      assert NoDuplicates(tail) && tail[k - 1] == h;
      RemovedKeepsOrder(tail, h, k - 1);
      assert hs[..k] == [hs[0]] + tail[..k - 1];
      assert hs[k + 1..] == tail[k..];
    }
  }

  /** Removing the handler just appended gives back the list it was appended to. */
  lemma {:induction false} RemoveAfterAdd(hs: seq<Handler>, h: Handler)
    requires NoDuplicates(hs) && h !in hs
    ensures Removed(Added(hs, h), h) == hs
  {
    if |hs| == 0 {
      assert Added(hs, h) == [h];
    } else {
      var tail := hs[1..];
      assert NoDuplicates(tail) && h !in tail;
      assert Added(hs, h) == [hs[0]] + (tail + [h]);
      assert Added(tail, h) == tail + [h];
      RemoveAfterAdd(tail, h);
      assert [hs[0]] + tail == hs;
    }
  }

  /** The registry after `on(event, handler)`. */
  function Registered(listeners: map<EventKey, seq<Handler>>, event: EventKey, handler: Handler): (r: map<EventKey, seq<Handler>>)
    requires RegistryValid(listeners)
    ensures RegistryValid(r)
    ensures event in r && handler in r[event]
    ensures forall e :: e != event ==> (e in r <==> e in listeners) && (e in r ==> r[e] == listeners[e])
  {
    var handlers := if event in listeners then listeners[event] else [];
    listeners[event := Added(handlers, handler)]
  }

  /** The registry after `off(event, handler)`; an entry left empty is deleted. */
  function Unregistered(listeners: map<EventKey, seq<Handler>>, event: EventKey, handler: Handler): (r: map<EventKey, seq<Handler>>)
    requires RegistryValid(listeners)
    ensures RegistryValid(r)
    ensures event in r ==> handler !in r[event]
    ensures forall e :: e != event ==> (e in r <==> e in listeners) && (e in r ==> r[e] == listeners[e])
    ensures event !in listeners ==> r == listeners
  {
    if event !in listeners then listeners
    else
      var handlers := Removed(listeners[event], handler);
      if |handlers| == 0 then listeners - {event} else listeners[event := handlers]
  }

  /** No entry is empty and no entry repeats a handler. */
  predicate RegistryValid(listeners: map<EventKey, seq<Handler>>) {
    forall e :: e in listeners ==> |listeners[e]| > 0 && NoDuplicates(listeners[e])
  }

  /** `off` undoes `on` for a handler that was not registered for the event. */
  lemma OffUndoesOn(listeners: map<EventKey, seq<Handler>>, event: EventKey, handler: Handler)
    requires RegistryValid(listeners)
    requires event !in listeners || handler !in listeners[event]
    ensures Unregistered(Registered(listeners, event, handler), event, handler) == listeners
  {
    var handlers := if event in listeners then listeners[event] else [];
    RemoveAfterAdd(handlers, handler);
    var registered := Registered(listeners, event, handler);
    assert Removed(registered[event], handler) == handlers;
    if event in listeners {
      assert Unregistered(registered, event, handler) == registered[event := handlers];
      assert registered[event := handlers] == listeners;
    } else {
      assert Unregistered(registered, event, handler) == registered - {event};
      assert registered - {event} == listeners;
    }
  }

  /** `GameEventBus`: the `listeners` map, changed in place by `on` and `off`. */
  class GameEventBus {
    var listeners: map<EventKey, seq<Handler>>

    predicate Valid()
      reads this
    {
      RegistryValid(listeners)
    }

    constructor()
      ensures Valid() && listeners == map[]
    {
      listeners := map[];
    }

    /** `emit`: nothing without listeners; otherwise each handler of the event, once, in registration order. */
    method Emit(event: EventKey, payload: Payload) returns (calls: seq<Invocation>)
      requires Valid()
      ensures event !in listeners ==> calls == []
      ensures event in listeners ==>
        |calls| == |listeners[event]| &&
        forall k :: 0 <= k < |calls| ==> calls[k] == Invocation(listeners[event][k], payload)
    {
      if event !in listeners {
        return [];
      }
      var handlers := listeners[event];
      calls := [];
      var k := 0;
      while k < |handlers|
        invariant 0 <= k <= |handlers| && |calls| == k
        invariant forall i :: 0 <= i < k ==> calls[i] == Invocation(handlers[i], payload)
      {
        calls := calls + [Invocation(handlers[k], payload)];
        k := k + 1;
      }
    }

    /** `on`: registers the handler and returns the matching unsubscribe. */
    method On(event: EventKey, handler: Handler) returns (unsubscribe: Unsubscribe)
      requires Valid()
      modifies this
      ensures Valid()
      ensures listeners == Registered(old(listeners), event, handler)
      ensures unsubscribe == Unsubscribe(event, handler)
    {
      var handlers := if event in listeners then listeners[event] else [];
      handlers := Added(handlers, handler);
      listeners := listeners[event := handlers];
      unsubscribe := Unsubscribe(event, handler);
    }

    /** `off`: unregisters the handler, deleting the entry it leaves empty; an unknown event is a no-op. */
    method Off(event: EventKey, handler: Handler)
      requires Valid()
      modifies this
      ensures Valid()
      ensures listeners == Unregistered(old(listeners), event, handler)
    {
      if event !in listeners {
        return;
      }
      var handlers := Removed(listeners[event], handler);
      if |handlers| == 0 {
        listeners := listeners - {event};
      } else {
        listeners := listeners[event := handlers];
      }
    }

    /** Calling what `on` returned: `off` for the same event and handler. */
    method RunUnsubscribe(unsubscribe: Unsubscribe)
      requires Valid()
      modifies this
      ensures Valid()
      ensures listeners == Unregistered(old(listeners), unsubscribe.event, unsubscribe.handler)
    {
      Off(unsubscribe.event, unsubscribe.handler);
    }
  }
}
