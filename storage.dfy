/**
 * Storage channels: a channel that binds context stores. Each binding saves
 * its store's current value on a stack and installs `build(data)` when a run
 * enters, and restores the saved value when the run exits. A storage channel
 * is unbound (no binding storage) or bound (a non-empty list of bindings, at
 * most one per store).
 */
module Storage {
  import opened Values
  import opened Sequences

  /** The ambient store of an execution context, reduced to its current value. */
  class Store {
    var current: Value

    constructor ()
      ensures current == Undefined
    {
      current := Undefined;
    }
  }

  /** The transform a binding applies when none is given. */
  function Identity(v: Value): Value
  {
    v
  }

  class StoreBinding {
    const store: Store
    const build: Value -> Value
    var stack: seq<Value>

    constructor (store: Store, build: Option<Value -> Value>)
      ensures this.store == store && stack == []
      ensures this.build == (if build.Some? then build.value else Identity)
    {
      this.store := store;
      if build.Some? {
        this.build := build.value;
      } else {
        this.build := Identity;
      }
      stack := [];
    }

    /** Saves the store's current value and installs `build(data)`. */
    method OnEnter(data: Value)
      modifies this, store
      ensures stack == old(stack) + [old(store.current)]
      ensures store.current == build(data)
    {
      stack := stack + [store.current];
      store.current := build(data);
    }

    /** Restores the most recently saved value; with nothing saved, does nothing. */
    method OnExit()
      modifies this, store
      ensures old(stack) == [] ==> stack == [] && store.current == old(store.current)
      ensures old(stack) != [] ==>
        stack == old(stack)[..|old(stack)| - 1] && store.current == old(stack)[|old(stack)| - 1]
    {
      if stack == [] {
        return;
      }
      var saved := stack[|stack| - 1];
      stack := stack[..|stack| - 1];
      store.current := saved;
    }
  }

  /** What each binding of `bs` installs for `data`, in binding order. */
  function Built(bs: seq<StoreBinding>, data: Value): seq<Value>
  {
    seq(|bs|, i requires 0 <= i < |bs| => bs[i].build(data))
  }

  /** The current values of the stores of `bs`, in binding order. */
  function CurrentValues(bs: seq<StoreBinding>): (r: seq<Value>)
    reads set b | b in bs :: b.store
    ensures |r| == |bs| && forall i :: 0 <= i < |bs| ==> r[i] == bs[i].store.current
  {
    if bs == [] then [] else [bs[0].store.current] + CurrentValues(bs[1..])
  }

  /** Whether some binding of `bs` is for `store`. */
  predicate Binds(bs: seq<StoreBinding>, store: Store)
  {
    exists i :: 0 <= i < |bs| && bs[i].store == store
  }

  /** No two bindings of `bs` are for the same store. */
  ghost predicate DistinctStores(bs: seq<StoreBinding>)
  {
    forall i, j :: 0 <= i < j < |bs| ==> bs[i].store != bs[j].store
  }

  /** The bindings of `bs` whose store is not `store`, in their order. */
  function WithoutStore(bs: seq<StoreBinding>, store: Store): (r: seq<StoreBinding>)
    ensures !Binds(r, store)
    ensures forall i :: 0 <= i < |r| ==> r[i] in bs
    ensures forall i :: 0 <= i < |bs| && bs[i].store != store ==> bs[i] in r
  {
    if bs == [] then []
    else
      var rest := WithoutStore(bs[1..], store);
      assert forall i :: 1 <= i < |bs| ==> bs[i] == bs[1..][i - 1];
      if bs[0].store == store then rest
      else
        assert forall i :: 1 <= i < |rest| + 1 ==> ([bs[0]] + rest)[i] == rest[i - 1];
        [bs[0]] + rest
  }

  /** Filtering out a store that `bs` does not bind changes nothing. */
  lemma {:induction false} WithoutAbsentStore(bs: seq<StoreBinding>, store: Store)
    requires !Binds(bs, store)
    ensures WithoutStore(bs, store) == bs
  {
    if bs != [] {
      assert !Binds(bs[1..], store) by {
        forall i | 0 <= i < |bs| - 1 ensures bs[1..][i].store != store {
          assert bs[1..][i] == bs[i + 1];
        }
      }
      WithoutAbsentStore(bs[1..], store);
    }
  }

  /** Dropping the first binding keeps the stores distinct. */
  lemma DistinctStoresOfTail(bs: seq<StoreBinding>)
    requires DistinctStores(bs) && bs != []
    ensures DistinctStores(bs[1..])
  {
  }

  /** With distinct stores, the first binding's store is bound nowhere else. */
  lemma FirstStoreNotInTail(bs: seq<StoreBinding>)
    requires DistinctStores(bs) && bs != []
    ensures !Binds(bs[1..], bs[0].store)
  {
  }

  /**
   * With at most one binding per store, removing the binding at the position
   * of `store` is the same as filtering out every binding of `store`.
   */
  lemma {:induction false} WithoutUniqueStore(bs: seq<StoreBinding>, store: Store, i: nat)
    requires DistinctStores(bs) && i < |bs| && bs[i].store == store
    ensures WithoutStore(bs, store) == RemoveAt(bs, i)
  {
    if i == 0 {
      FirstStoreNotInTail(bs);
      WithoutAbsentStore(bs[1..], store);
    } else {
      assert bs[0].store != store;
      DistinctStoresOfTail(bs);
      WithoutUniqueStore(bs[1..], store, i - 1);
      assert RemoveAt(bs, i) == [bs[0]] + RemoveAt(bs[1..], i - 1);
    }
  }

  datatype StorageState = Unbound | Bound(bindings: seq<StoreBinding>)

  class StorageChannel {
    var state: StorageState

    /** A bound channel has at least one binding, and no store is bound twice. */
    ghost predicate Valid()
      reads this
    {
      (state.Bound? ==> state.bindings != []) && DistinctStores(Bindings())
    }

    /** The current bindings; an unbound channel has none. */
    function Bindings(): seq<StoreBinding>
      reads this
    {
      if state.Bound? then state.bindings else []
    }

    /** The bindings and their stores: what entering and exiting change. */
    ghost function Footprint(): set<object>
      reads this
    {
      (set b | b in Bindings() :: b as object) + (set b | b in Bindings() :: b.store as object)
    }

    constructor ()
      ensures state == Unbound && Valid()
    {
      state := Unbound;
    }

    function HasSubscribers(): (r: bool)
      reads this
      ensures Valid() ==> (r <==> Bindings() != [])
    {
      state.Bound?
    }

    /** Whether `store` is bound here; never on an unbound channel. */
    function IsBoundToStore(store: Store): (r: bool)
      reads this
      ensures r ==> HasSubscribers() && Bindings() != []
    {
      Binds(Bindings(), store)
    }

    /**
     * Adds a binding of `store` at the end, unless `store` is already bound,
     * in which case nothing changes and the answer is false. Binding an
     * unbound channel makes it bound.
     */
    method BindStore(store: Store, build: Option<Value -> Value>) returns (added: bool)
      requires Valid()
      modifies this
      ensures Valid()
      ensures added <==> !old(IsBoundToStore(store))
      ensures !added ==> state == old(state)
      ensures added ==>
        |Bindings()| == |old(Bindings())| + 1 && Bindings()[..|old(Bindings())|] == old(Bindings())
      ensures added ==>
        var b := Bindings()[|old(Bindings())|];
        fresh(b) && b.store == store && b.stack == [] &&
        b.build == (if build.Some? then build.value else Identity)
      ensures IsBoundToStore(store) && HasSubscribers()
    {
      if state.Unbound? {
        state := Bound([]);
      }
      if IsBoundToStore(store) {
        return false;
      }
      var binding := new StoreBinding(store, build);
      state := Bound(state.bindings + [binding]);
      added := true;
    }

    /**
     * Removes the binding of `store`, answering whether there was one; the
     * other bindings keep their order. Removing the last binding makes the
     * channel unbound.
     */
    method UnbindStore(store: Store) returns (found: bool)
      requires Valid()
      modifies this
      ensures Valid()
      ensures found <==> old(IsBoundToStore(store))
      ensures Bindings() == WithoutStore(old(Bindings()), store)
      ensures !found ==> state == old(state)
    {
      if state.Unbound? || !IsBoundToStore(store) {
        WithoutAbsentStore(Bindings(), store);
        return false;
      }
      var bindings := state.bindings;
      ghost var bs := bindings;
      found := false;
      var index := 0;
      while index < |bindings|
        invariant 0 <= index <= |bindings|
        invariant !found && bindings == bs
        invariant forall k :: 0 <= k < index ==> bs[k].store != store
      {
        if bindings[index].store == store {
          bindings := RemoveAt(bindings, index);
          found := true;
          break;
        }
        index := index + 1;
      }
      if !found {
        assert false;
      }
      WithoutUniqueStore(bs, store, index);
      if bindings == [] {
        state := Unbound;
      } else {
        state := Bound(bindings);
      }
    }

    /** Enters every binding in order: each saves its store's value and installs `build(data)`. */
    method Enter(data: Value)
      requires Valid()
      modifies Footprint()
      ensures forall i :: 0 <= i < |Bindings()| ==>
        Bindings()[i].stack == old(Bindings()[i].stack) + [old(Bindings()[i].store.current)] &&
        Bindings()[i].store.current == Bindings()[i].build(data)
      ensures CurrentValues(Bindings()) == Built(Bindings(), data)
    {
      var bindings := Bindings();
      for n := 0 to |bindings|
        invariant forall i :: 0 <= i < n ==>
          bindings[i].stack == old(bindings[i].stack) + [old(bindings[i].store.current)] &&
          bindings[i].store.current == bindings[i].build(data)
        invariant forall i :: n <= i < |bindings| ==>
          bindings[i].stack == old(bindings[i].stack) && bindings[i].store.current == old(bindings[i].store.current)
      {
        bindings[n].OnEnter(data);
      }
    }

    /** Exits every binding in order: each restores the value it saved last, if any. */
    method Exit()
      requires Valid()
      modifies Footprint()
      ensures forall i :: 0 <= i < |Bindings()| ==>
        var saved := old(Bindings()[i].stack);
        if saved == [] then
          Bindings()[i].stack == [] && Bindings()[i].store.current == old(Bindings()[i].store.current)
        else
          Bindings()[i].stack == saved[..|saved| - 1] && Bindings()[i].store.current == saved[|saved| - 1]
    {
      var bindings := Bindings();
      for n := 0 to |bindings|
        invariant forall i :: 0 <= i < n ==>
          var saved := old(bindings[i].stack);
          if saved == [] then
            bindings[i].stack == [] && bindings[i].store.current == old(bindings[i].store.current)
          else
            bindings[i].stack == saved[..|saved| - 1] && bindings[i].store.current == saved[|saved| - 1]
        invariant forall i :: n <= i < |bindings| ==>
          bindings[i].stack == old(bindings[i].stack) && bindings[i].store.current == old(bindings[i].store.current)
      {
        bindings[n].OnExit();
      }
    }

    /**
     * Enters every binding with `data`, runs `fn`, and exits every binding
     * whether `fn` returns or throws; the completion of `fn` is the
     * completion of the run. `fn` is given the values of the bound stores
     * while it runs. Afterwards every bound store and every save-stack is as
     * it was before.
     */
    method Run(data: Value, fn: seq<Value> -> Completion) returns (c: Completion)
      requires Valid()
      modifies Footprint()
      ensures c == fn(Built(Bindings(), data))
      ensures forall i :: 0 <= i < |Bindings()| ==>
        Bindings()[i].stack == old(Bindings()[i].stack) &&
        Bindings()[i].store.current == old(Bindings()[i].store.current)
    {
      if state.Unbound? {
        assert Built(Bindings(), data) == [];
        return fn([]);
      }
      var bindings := Bindings();
      Enter(data);
      label entered:
      c := fn(CurrentValues(bindings));
      Exit();
      forall i | 0 <= i < |bindings|
        ensures bindings[i].stack == old(bindings[i].stack)
        ensures bindings[i].store.current == old(bindings[i].store.current)
      {
        var saved := old@entered(bindings[i].stack);
        assert saved == old(bindings[i].stack) + [old(bindings[i].store.current)];
        assert saved[..|saved| - 1] == old(bindings[i].stack);
      }
    }
  }

  /** The registry of storage channels by name, behind `storageChannel(name)`. */
  class StorageRegistry {
    var channels: map<Key, StorageChannel>

    ghost predicate Valid()
      reads this, channels.Values
    {
      forall k :: k in channels ==> channels[k].Valid()
    }

    constructor ()
      ensures Valid() && channels == map[]
    {
      channels := map[];
    }

    /**
     * The storage channel already registered under `name`'s key if there is
     * one, whatever `name` is; otherwise a new unbound channel, when `name` is
     * a string or a symbol, and an InvalidArgType error when it is not.
     */
    method Lookup(name: Name) returns (r: Result<StorageChannel>)
      requires Valid()
      modifies this
      ensures Valid()
      ensures KeyOf(name) in old(channels) ==> r == Ok(old(channels)[KeyOf(name)]) && channels == old(channels)
      ensures KeyOf(name) !in old(channels) && !IsChannelName(name) ==>
        r == Err(InvalidArgType) && channels == old(channels)
      ensures KeyOf(name) !in old(channels) && IsChannelName(name) ==>
        r.Ok? && fresh(r.value) && r.value.state == Unbound &&
        channels == old(channels)[KeyOf(name) := r.value]
      ensures r.Ok? ==> r.value.Valid()
    {
      var k := KeyOf(name);
      if k in channels {
        return Ok(channels[k]);
      }
      if !IsChannelName(name) {
        return Err(InvalidArgType);
      }
      var c := new StorageChannel();
      channels := channels[k := c];
      r := Ok(c);
    }
  }

  /**
   * A store bound to the storage channel "test" holds `build(input)` while a
   * run is inside `fn`, and holds its earlier value (undefined) again once
   * the run is over.
   */
  method BoundStoreIsRestoredAfterRun() returns (before: Value, inside: Completion, after: Value)
    ensures before == Undefined && after == Undefined
    ensures inside == Normal(Object(2))
  {
    var store := new Store();
    var registry := new StorageRegistry();
    var input, output := Object(1), Object(2);
    var found := registry.Lookup(Str("test"));
    var chan := found.value;
    var added := chan.BindStore(store, Some(v => if v == input then output else Undefined));
    before := store.current;
    inside := chan.Run(input, seen => if seen == [output] then Normal(output) else Abrupt(Undefined));
    after := store.current;
  }
}
