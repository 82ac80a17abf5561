/**
 * A named publish/subscribe endpoint. A channel is either inactive (no
 * subscriber storage at all) or active (an ordered, non-empty list of
 * subscribers); subscribing activates it, removing the last subscriber
 * deactivates it. Publishing calls every subscriber in order and isolates
 * each subscriber's exception, queueing it for deferred reporting.
 */
module Channels {
  import opened Values
  import opened Sequences

  datatype ChannelState = Inactive | Active(subscribers: seq<Subscription>)

  /** The errors thrown by the subscribers of `subs`, in the order they are invoked. */
  function Errors(subs: seq<Subscription>): (r: seq<Value>)
    ensures |r| <= |subs|
    ensures r == [] <==> forall i :: 0 <= i < |subs| ==> subs[i].failure.None?
  {
    if subs == [] then []
    else
      var rest := Errors(subs[1..]);
      assert forall i :: 1 <= i < |subs| ==> subs[i] == subs[1..][i - 1];
      match subs[0].failure
      case Some(e) => [e] + rest
      case None => rest
  }

  /** Errors are collected subscriber by subscriber: a publish to `a + b` reports `a`'s errors, then `b`'s. */
  lemma {:induction false} ErrorsOfConcat(a: seq<Subscription>, b: seq<Subscription>)
    ensures Errors(a + b) == Errors(a) + Errors(b)
  {
    if a != [] {
      assert (a + b)[0] == a[0];
      assert (a + b)[1..] == a[1..] + b;
      ErrorsOfConcat(a[1..], b);
    } else {
      assert a + b == b;
    }
  }

  /** Every subscriber that throws has its error reported, however many subscribers precede or follow it. */
  lemma {:induction false} ThrownErrorIsReported(subs: seq<Subscription>, i: nat)
    requires i < |subs| && subs[i].failure.Some?
    ensures subs[i].failure.value in Errors(subs)
  {
    assert subs == subs[..i] + [subs[i]] + subs[i + 1..];
    ErrorsOfConcat(subs[..i] + [subs[i]], subs[i + 1..]);
    ErrorsOfConcat(subs[..i], [subs[i]]);
    assert Errors([subs[i]]) == [subs[i].failure.value] + Errors([]);
  }

  class Channel {
    const name: Name
    var state: ChannelState

    /** An active channel has at least one subscriber, and only callables are ever subscribed. */
    ghost predicate Valid()
      reads this
    {
      (state.Active? ==> state.subscribers != []) &&
      forall s :: s in Subscribers() ==> s.isFunction
    }

    /** The current subscriber list; an inactive channel has none. */
    function Subscribers(): seq<Subscription>
      reads this
    {
      if state.Active? then state.subscribers else []
    }

    constructor (name: Name)
      ensures this.name == name && state == Inactive && Valid()
    {
      this.name := name;
      state := Inactive;
    }

    /** The cheap check instrumentation sites make: true exactly when someone listens. */
    function HasSubscribers(): (r: bool)
      reads this
      ensures Valid() ==> (r <==> Subscribers() != [])
    {
      state.Active?
    }

    /**
     * Adds `sub` at the end of the list, activating an inactive channel.
     * A value that is not callable is refused with an error and changes nothing.
     */
    method Subscribe(sub: Subscription) returns (ok: bool)
      requires Valid()
      modifies this
      ensures Valid()
      ensures ok == sub.isFunction
      ensures ok ==> state == Active(old(Subscribers()) + [sub])
      ensures !ok ==> state == old(state)
    {
      if !sub.isFunction {
        return false;
      }
      if state.Inactive? {
        state := Active([sub]);
      } else {
        state := Active(state.subscribers + [sub]);
      }
      ok := true;
    }

    /**
     * Subscribe as the inactive channel does it: it switches to the active
     * representation with an empty list first and validates only afterwards,
     * so a refused value leaves an active channel without subscribers.
     */
    method SubscribeAsWritten(sub: Subscription) returns (ok: bool)
      modifies this
      ensures ok == sub.isFunction
      ensures state == Active(old(Subscribers()) + (if ok then [sub] else []))
    {
      if state.Inactive? {
        state := Active([]);
      }
      if !sub.isFunction {
        return false;
      }
      state := Active(state.subscribers + [sub]);
      ok := true;
    }

    /**
     * Removes the first entry equal to `sub`; the others keep their order.
     * Returns whether one was found. Emptying the list deactivates the channel.
     */
    method Unsubscribe(sub: Subscription) returns (removed: bool)
      requires Valid()
      modifies this
      ensures Valid()
      ensures removed <==> sub in old(Subscribers())
      ensures Subscribers() == RemoveFirst(old(Subscribers()), sub)
      ensures !removed ==> state == old(state)
    {
      if state.Inactive? {
        return false;
      }
      var subs := state.subscribers;
      var index := FirstIndex(subs, sub);
      if index == -1 {
        return false;
      }
      subs := RemoveAt(subs, index);
      if subs == [] {
        state := Inactive;
      } else {
        state := Active(subs);
      }
      removed := true;
    }

    /**
     * Invokes every subscriber with `(data, name)` in list order. A throwing
     * subscriber does not stop the ones after it; its error is returned in
     * `deferred`, to be reported on a later turn, and never propagates.
     */
    method Publish(data: Value) returns (delivered: seq<Delivery>, deferred: seq<Value>)
      requires Valid()
      ensures |delivered| == |Subscribers()|
      ensures forall i :: 0 <= i < |delivered| ==> delivered[i] == Delivery(Subscribers()[i], data, name)
      ensures deferred == Errors(Subscribers())
    {
      delivered, deferred := [], [];
      if state.Inactive? {
        return;
      }
      var subs := state.subscribers;
      var i := 0;
      while i < |subs|
        invariant 0 <= i <= |subs|
        invariant |delivered| == i
        invariant forall k :: 0 <= k < i ==> delivered[k] == Delivery(subs[k], data, name)
        invariant deferred == Errors(subs[..i])
      {
        var onMessage := subs[i];
        delivered := delivered + [Delivery(onMessage, data, name)];
        ErrorsOfConcat(subs[..i], [onMessage]);
        assert subs[..i + 1] == subs[..i] + [onMessage];
        assert Errors([onMessage]) == (if onMessage.failure.Some? then [onMessage.failure.value] else []) by {
          assert [onMessage][1..] == [];
        }
        if onMessage.failure.Some? {
          deferred := deferred + [onMessage.failure.value];
        }
        i := i + 1;
      }
      assert subs[..i] == subs;
    }
  }

  /**
   * The discrepancy of SubscribeAsWritten, on a fresh channel: offering a
   * non-callable value leaves a channel that reports subscribers but has none.
   */
  method RefusedSubscribeLeavesEmptyActiveChannel() returns (c: Channel, ok: bool)
    ensures !ok && c.HasSubscribers() && c.Subscribers() == [] && !c.Valid()
  {
    c := new Channel(Str("refused"));
    ok := c.SubscribeAsWritten(Subscription(0, false, None));
  }
}
