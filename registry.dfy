/**
 * The process-wide registry of channels by name, with the module-level
 * functions `channel`, `subscribe`, `unsubscribe` and `hasSubscribers`.
 * Entries are held strongly here; the per-name reference count that keeps a
 * subscribed channel alive is an explicit integer per key.
 */
module Registry {
  import opened Values
  import opened Sequences
  import opened Channels

  class ChannelRegistry {
    var channels: map<Key, Channel>
    var refs: map<Key, int>

    /**
     * Every registered channel sits under the key of its own (string or
     * symbol) name, has a reference count, and is itself valid. Distinct keys
     * therefore hold distinct channels.
     */
    ghost predicate Valid()
      reads this, channels.Values
    {
      channels.Keys == refs.Keys &&
      forall k :: k in channels ==>
        IsChannelName(channels[k].name) && KeyOf(channels[k].name) == k && channels[k].Valid()
    }

    constructor ()
      ensures Valid() && channels == map[] && refs == map[]
    {
      channels, refs := map[], map[];
    }

    /** The subscribers of the channel registered under `k`; none when there is no such channel. */
    ghost function SubscribersOf(k: Key): seq<Subscription>
      reads this, channels.Values
    {
      if k in channels then channels[k].Subscribers() else []
    }

    /** The reference count kept for `k`; zero when nothing is registered. */
    function RefCount(k: Key): int
      reads this
    {
      if k in refs then refs[k] else 0
    }

    /**
     * `channel(name)`: the channel already registered under `name`'s key if
     * there is one, whatever `name` is; otherwise a new inactive channel
     * registered with reference count zero, when `name` is a string or a
     * symbol, and an InvalidArgType error when it is not.
     */
    method Lookup(name: Name) returns (r: Result<Channel>)
      requires Valid()
      modifies this
      ensures Valid()
      ensures KeyOf(name) in old(channels) ==>
        r == Ok(old(channels)[KeyOf(name)]) && channels == old(channels) && refs == old(refs)
      ensures KeyOf(name) !in old(channels) && !IsChannelName(name) ==>
        r == Err(InvalidArgType) && channels == old(channels) && refs == old(refs)
      ensures KeyOf(name) !in old(channels) && IsChannelName(name) ==>
        r.Ok? && fresh(r.value) && r.value.name == name && r.value.state == Inactive &&
        channels == old(channels)[KeyOf(name) := r.value] && refs == old(refs)[KeyOf(name) := 0]
      ensures forall k :: SubscribersOf(k) == old(SubscribersOf(k)) && RefCount(k) == old(RefCount(k))
    {
      var k := KeyOf(name);
      if k in channels {
        return Ok(channels[k]);
      }
      if !IsChannelName(name) {
        return Err(InvalidArgType);
      }
      var c := new Channel(name);
      channels := channels[k := c];
      refs := refs[k := 0];
      r := Ok(c);
    }

    /**
     * `subscribe(name, sub)`: looks the channel up (registering it if need
     * be), raises its reference count, then subscribes. The count is raised
     * before the subscriber is validated, so a refused subscriber still
     * raises it. No other name is affected.
     */
    method Subscribe(name: Name, sub: Subscription) returns (r: Result<()>)
      requires Valid()
      modifies this, channels.Values
      ensures Valid()
      ensures r.Err? <==> !sub.isFunction || (KeyOf(name) !in old(channels) && !IsChannelName(name))
      ensures KeyOf(name) in channels <==> KeyOf(name) in old(channels) || IsChannelName(name)
      ensures forall k :: k in old(channels) ==> k in channels && channels[k] == old(channels[k])
      ensures channels.Keys <= old(channels.Keys) + {KeyOf(name)}
      ensures KeyOf(name) in channels && KeyOf(name) !in old(channels) ==> fresh(channels[KeyOf(name)])
      ensures SubscribersOf(KeyOf(name)) == old(SubscribersOf(KeyOf(name))) + (if r.Ok? then [sub] else [])
      ensures RefCount(KeyOf(name)) == old(RefCount(KeyOf(name))) + (if KeyOf(name) in channels then 1 else 0)
      ensures forall k :: k != KeyOf(name) ==> SubscribersOf(k) == old(SubscribersOf(k)) && RefCount(k) == old(RefCount(k))
    {
      var found := Lookup(name);
      if found.Err? {
        return Err(found.error);
      }
      label looked:
      var ok := SubscribeRegistered(KeyOf(name), sub);
      r := if ok then Ok(()) else Err(InvalidArgType);
      forall k | k != KeyOf(name)
        ensures SubscribersOf(k) == old(SubscribersOf(k)) && RefCount(k) == old(RefCount(k))
      {
        assert SubscribersOf(k) == old@looked(SubscribersOf(k));
      }
    }

    /** The part of `subscribe` after the lookup: count the reference, then subscribe the channel under `k`. */
    method SubscribeRegistered(k: Key, sub: Subscription) returns (ok: bool)
      requires Valid() && k in channels
      modifies this`refs, channels[k]
      ensures Valid() && channels == old(channels)
      ensures ok == sub.isFunction
      ensures SubscribersOf(k) == old(SubscribersOf(k)) + (if ok then [sub] else [])
      ensures refs == old(refs)[k := old(refs[k]) + 1]
      ensures forall k' :: k' != k ==> SubscribersOf(k') == old(SubscribersOf(k'))
    {
      var chan := channels[k];
      assert forall k' :: k' in channels && k' != k ==> channels[k'] != chan;
      refs := refs[k := refs[k] + 1];
      ok := chan.Subscribe(sub);
    }

    /**
     * `unsubscribe(name, sub)`: looks the channel up (registering it if need
     * be) and removes the first `sub` from it. Only a successful removal
     * lowers the reference count; a failed one returns false and changes
     * nothing else.
     */
    method Unsubscribe(name: Name, sub: Subscription) returns (r: Result<bool>)
      requires Valid()
      modifies this, channels.Values
      ensures Valid()
      ensures r.Err? <==> KeyOf(name) !in old(channels) && !IsChannelName(name)
      ensures r.Ok? ==> (r.value <==> sub in old(SubscribersOf(KeyOf(name))))
      ensures KeyOf(name) in channels <==> KeyOf(name) in old(channels) || IsChannelName(name)
      ensures forall k :: k in old(channels) ==> k in channels && channels[k] == old(channels[k])
      ensures channels.Keys <= old(channels.Keys) + {KeyOf(name)}
      ensures KeyOf(name) in channels && KeyOf(name) !in old(channels) ==> fresh(channels[KeyOf(name)])
      ensures SubscribersOf(KeyOf(name)) == RemoveFirst(old(SubscribersOf(KeyOf(name))), sub)
      ensures RefCount(KeyOf(name)) == old(RefCount(KeyOf(name))) - (if r == Ok(true) then 1 else 0)
      ensures forall k :: k != KeyOf(name) ==> SubscribersOf(k) == old(SubscribersOf(k)) && RefCount(k) == old(RefCount(k))
    {
      var found := Lookup(name);
      if found.Err? {
        return Err(found.error);
      }
      label looked:
      var removed := UnsubscribeRegistered(KeyOf(name), sub);
      r := Ok(removed);
      forall k | k != KeyOf(name)
        ensures SubscribersOf(k) == old(SubscribersOf(k)) && RefCount(k) == old(RefCount(k))
      {
        assert SubscribersOf(k) == old@looked(SubscribersOf(k));
      }
    }

    /** The part of `unsubscribe` after the lookup: remove `sub` from the channel under `k`, counting a success. */
    method UnsubscribeRegistered(k: Key, sub: Subscription) returns (removed: bool)
      requires Valid() && k in channels
      modifies this`refs, channels[k]
      ensures Valid() && channels == old(channels)
      ensures removed <==> sub in old(SubscribersOf(k))
      ensures SubscribersOf(k) == RemoveFirst(old(SubscribersOf(k)), sub)
      ensures refs == old(refs)[k := old(refs[k]) - (if removed then 1 else 0)]
      ensures forall k' :: k' != k ==> SubscribersOf(k') == old(SubscribersOf(k'))
    {
      var chan := channels[k];
      removed := chan.Unsubscribe(sub);
      if removed {
        refs := refs[k := refs[k] - 1];
      }
      forall k' | k' in channels && k' != k
        ensures channels[k'].state == old(channels[k'].state)
      {
        assert channels[k'] != chan;
      }
    }

    /**
     * `hasSubscribers(name)`: false when no channel is registered under
     * `name`'s key (and nothing gets registered), otherwise the channel's own
     * answer, which is whether it has subscribers.
     */
    function HasSubscribers(name: Name): (r: bool)
      reads this, channels.Values
      ensures Valid() ==> (r <==> SubscribersOf(KeyOf(name)) != [])
      ensures KeyOf(name) !in channels ==> !r
    {
      var k := KeyOf(name);
      k in channels && channels[k].HasSubscribers()
    }
  }

  /**
   * Subscribing a callable that a channel does not yet hold and then
   * unsubscribing it leaves every name's subscribers and reference count as
   * they were; in particular `hasSubscribers(name)` is false again when it was
   * false before.
   */
  method SubscribeThenUnsubscribe(reg: ChannelRegistry, name: Name, sub: Subscription)
    returns (subscribed: Result<()>, removed: Result<bool>)
    requires reg.Valid() && IsChannelName(name) && sub.isFunction
    requires sub !in reg.SubscribersOf(KeyOf(name))
    modifies reg, reg.channels.Values
    ensures reg.Valid()
    ensures subscribed.Ok?
    ensures removed == Ok(true)
    ensures forall k :: reg.SubscribersOf(k) == old(reg.SubscribersOf(k)) && reg.RefCount(k) == old(reg.RefCount(k))
    ensures reg.HasSubscribers(name) == old(reg.HasSubscribers(name))
  {
    var k := KeyOf(name);
    ghost var before := reg.SubscribersOf(k);
    subscribed := reg.Subscribe(name, sub);
    label subscribed:
    removed := reg.Unsubscribe(name, sub);
    RemoveFirstOfAppended(before, sub);
    forall k' | k' != k
      ensures reg.SubscribersOf(k') == old(reg.SubscribersOf(k')) && reg.RefCount(k') == old(reg.RefCount(k'))
    {
      assert reg.SubscribersOf(k') == old@subscribed(reg.SubscribersOf(k'));
      assert reg.RefCount(k') == old@subscribed(reg.RefCount(k'));
    }
  }
}
