/**
  The reactive state container: one state record, merged by `setState` and
  restored by `resetState`, a list of subscribed listeners that both notify,
  and a counter that hands out channel ids from 2 on.

  A listener is known by an identity (`ListenerId`); calling it is recorded
  as a `Notification` in a log, in call order. Records are values, so every
  record handed out is already a copy.
 */
module State {
  import opened Values

  /** The identity of a listener function, compared as `!==` compares functions. */
  type ListenerId = nat

  /** One listener call: the listener and the state it was passed. */
  datatype Notification = Notification(listener: ListenerId, state: Record)

  /** The function `subscribe` returns: it unsubscribes `listener`. */
  datatype Unsubscriber = Unsubscriber(listener: ListenerId)

  /** The default state: one voice channel with id 1, its rates, and the section defaults. */
  const DefaultState: Record := map[
    "totalAgents" := Number(100.0),
    "monthlySalary" := Number(25000.0),
    "channels" := List([Object(map[
      "id" := Number(1.0),
      "type" := Str("voice"),
      "name" := Str(""),
      "volume" := Number(5000.0),
      "humanHandleTime" := Number(6.0)])]),
    "rates" := Object(map[
      "1" := Object(map["client" := Number(2.0), "aiBot" := Number(2.0), "aiAgent" := Number(4.0)])]),
    "aiHandleTime" := Number(3.5),
    "clientItems" := List([]),
    "aiItems" := List([]),
    "deflectionRate" := Number(0.20),
    "adminHours" := Number(160.0)]

  /** The id of the channel the default state starts with. */
  const DefaultChannelId: int := 1

  /** The counter value a fresh or reset container hands out first. */
  const FirstChannelId: int := 2

  /** The default values the state's users rely on; there is no `channelDeflections` field. */
  lemma DefaultStateValues()
    ensures DefaultState["totalAgents"] == Number(100.0)
    ensures DefaultState["monthlySalary"] == Number(25000.0)
    ensures |DefaultState["channels"].elems| == 1
    ensures DefaultState["channels"].elems[0].fields["type"] == Str("voice")
    ensures DefaultState["channels"].elems[0].fields["id"] == Number(DefaultChannelId as real)
    ensures DefaultState["aiHandleTime"] == Number(3.5)
    ensures DefaultState["clientItems"] == List([]) && DefaultState["aiItems"] == List([])
    ensures "channelDeflections" !in DefaultState
  {
  }

  /** `{ ...state, ...partial }`: the keys of `partial` replace, every other key is kept. */
  function Merge(state: Record, partial: Record): (r: Record)
    ensures r.Keys == state.Keys + partial.Keys
    ensures forall k :: k in partial ==> r[k] == partial[k]
    ensures forall k :: k in state && k !in partial ==> r[k] == state[k]
  {
    state + partial
  }

  /** Merging is the identity on an empty update, and a second merge of the same update changes nothing. */
  lemma MergeIdentityAndIdempotent(state: Record, partial: Record)
    ensures Merge(state, map[]) == state
    ensures Merge(Merge(state, partial), partial) == Merge(state, partial)
  {
    assert Merge(state, map[]).Keys == state.Keys;
    assert Merge(Merge(state, partial), partial).Keys == Merge(state, partial).Keys;
  }

  /** One call of each listener, in registration order, with the state `s`. */
  function Broadcast(listeners: seq<ListenerId>, s: Record): (log: seq<Notification>)
    ensures |log| == |listeners|
    ensures forall i :: 0 <= i < |listeners| ==> log[i] == Notification(listeners[i], s)
  {
    if listeners == [] then []
    else Broadcast(listeners[..|listeners| - 1], s) + [Notification(listeners[|listeners| - 1], s)]
  }

  /** `listeners.filter(fn => fn !== listener)`. */
  function Without(listeners: seq<ListenerId>, listener: ListenerId): (r: seq<ListenerId>)
    ensures |r| <= |listeners|
  {
    if listeners == [] then []
    else if listeners[0] == listener then Without(listeners[1..], listener)
    else [listeners[0]] + Without(listeners[1..], listener)
  }

  /**
    Unsubscribing removes every registration of the listener and keeps every
    registration of every other listener.
   */
  lemma {:induction false} WithoutRemoves(listeners: seq<ListenerId>, listener: ListenerId)
    ensures listener !in Without(listeners, listener)
    ensures forall other :: other != listener ==>
              multiset(Without(listeners, listener))[other] == multiset(listeners)[other]
  {
    if listeners != [] {
      WithoutRemoves(listeners[1..], listener);
      assert listeners == [listeners[0]] + listeners[1..];
    }
  }

  /** Unsubscribing keeps the other listeners in their order: it distributes over concatenation. */
  lemma {:induction false} WithoutAppend(a: seq<ListenerId>, b: seq<ListenerId>, listener: ListenerId)
    ensures Without(a + b, listener) == Without(a, listener) + Without(b, listener)
  {
    if a != [] {
      WithoutAppend(a[1..], b, listener);
      assert (a + b)[1..] == a[1..] + b;
    } else {
      assert a + b == b;
    }
  }

  /** Unsubscribing a listener that is not registered changes nothing. */
  lemma {:induction false} WithoutAbsent(listeners: seq<ListenerId>, listener: ListenerId)
    requires listener !in listeners
    ensures Without(listeners, listener) == listeners
  {
    if listeners != [] {
      WithoutAbsent(listeners[1..], listener);
      assert listeners == [listeners[0]] + listeners[1..];
    }
  }

  /** Calling the same unsubscribe function twice is the same as calling it once. */
  lemma WithoutIdempotent(listeners: seq<ListenerId>, listener: ListenerId)
    ensures Without(Without(listeners, listener), listener) == Without(listeners, listener)
  {
    WithoutRemoves(listeners, listener);
    WithoutAbsent(Without(listeners, listener), listener);
  }

  /** Once unsubscribed, a listener receives none of the later notifications. */
  lemma UnsubscribedNotNotified(listeners: seq<ListenerId>, listener: ListenerId, s: Record)
    ensures forall n :: n in Broadcast(Without(listeners, listener), s) ==> n.listener != listener
  {
    WithoutRemoves(listeners, listener);
  }

  class StateContainer {
    /** The current state. */
    var state: Record
    /** The registered listeners, in registration order; a listener may appear more than once. */
    var listeners: seq<ListenerId>
    /** The next channel id to hand out. */
    var nextChannelId: int
    /** Every listener call made so far, in call order. */
    var notifications: seq<Notification>

    /** The id counter never falls below its start, so the default channel's id 1 is never handed out. */
    ghost predicate Valid()
      reads this
    {
      nextChannelId >= FirstChannelId
    }

    /** The module's initial state: the defaults, no listeners, ids from 2. */
    constructor ()
      ensures Valid()
      ensures state == DefaultState && listeners == [] && nextChannelId == FirstChannelId
      ensures notifications == []
    {
      state := DefaultState;
      listeners := [];
      nextChannelId := FirstChannelId;
      notifications := [];
    }

    /** `getState`: a copy of the current state. */
    method GetState() returns (s: Record)
      ensures s == state
    {
      s := state;
    }

    /** Calls every registered listener once, in registration order, with the current state. */
    method NotifyAll()
      modifies this
      ensures state == old(state) && listeners == old(listeners) && nextChannelId == old(nextChannelId)
      ensures notifications == old(notifications) + Broadcast(listeners, state)
    {
      var i := 0;
      while i < |listeners|
        invariant 0 <= i <= |listeners|
        invariant state == old(state) && listeners == old(listeners) && nextChannelId == old(nextChannelId)
        invariant notifications == old(notifications) + Broadcast(listeners[..i], state)
      {
        var current := GetState();
        notifications := notifications + [Notification(listeners[i], current)];
        assert listeners[..i + 1][..i] == listeners[..i];
        i := i + 1;
      }
      assert listeners[..i] == listeners;
    }

    /** `setState`: merge `partial` into the state, then notify every listener of the new state. */
    method SetState(partial: Record)
      requires Valid()
      modifies this
      ensures Valid()
      ensures state == Merge(old(state), partial)
      ensures listeners == old(listeners) && nextChannelId == old(nextChannelId)
      ensures notifications == old(notifications) + Broadcast(listeners, state)
    {
      state := state + partial;
      NotifyAll();
    }

    /** `subscribe`: register `listener` and return the function that unsubscribes it. */
    method Subscribe(listener: ListenerId) returns (unsubscribe: Unsubscriber)
      requires Valid()
      modifies this
      ensures Valid()
      ensures listeners == old(listeners) + [listener]
      ensures unsubscribe == Unsubscriber(listener)
      ensures state == old(state) && nextChannelId == old(nextChannelId) && notifications == old(notifications)
    {
      listeners := listeners + [listener];
      unsubscribe := Unsubscriber(listener);
    }

    /** Calling the function `subscribe` returned: drop every registration of its listener. */
    method Unsubscribe(unsubscribe: Unsubscriber)
      requires Valid()
      modifies this
      ensures Valid()
      ensures listeners == Without(old(listeners), unsubscribe.listener)
      ensures state == old(state) && nextChannelId == old(nextChannelId) && notifications == old(notifications)
    {
      listeners := Without(listeners, unsubscribe.listener);
    }

    /** `resetState`: the defaults again, ids from 2 again, and every listener notified. */
    method ResetState()
      requires Valid()
      modifies this
      ensures Valid()
      ensures state == DefaultState && nextChannelId == FirstChannelId
      ensures listeners == old(listeners)
      ensures notifications == old(notifications) + Broadcast(listeners, DefaultState)
    {
      state := DefaultState;
      nextChannelId := FirstChannelId;
      NotifyAll();
    }

    /** `generateChannelId`: hand out the counter's value and advance it. */
    method GenerateChannelId() returns (id: int)
      requires Valid()
      modifies this
      ensures Valid()
      ensures id == old(nextChannelId) && nextChannelId == id + 1
      ensures id >= FirstChannelId && id != DefaultChannelId
      ensures state == old(state) && listeners == old(listeners) && notifications == old(notifications)
    {
      id := nextChannelId;
      nextChannelId := nextChannelId + 1;
    }
  }

  /** `getDefaultState`: a copy of the defaults, whatever the current state. */
  method GetDefaultState() returns (s: Record)
    ensures s == DefaultState
    ensures s["totalAgents"] == Number(100.0) && |s["channels"].elems| == 1
  {
    s := DefaultState;
  }
}
