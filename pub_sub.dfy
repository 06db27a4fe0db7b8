/** The publish/subscribe buses of observer/pubSubMode.js.

    `Bus` is the plain bus (`salesOffice`, `Events`, `globalEvent`): a table
    from event key to the callbacks listening for it.  `Namespace` and `Hub`
    are the final version (`finalEvent`): every namespace owns its own table
    and an offline stack that buffers triggers made before its first listen.

    Callbacks are opaque identities; a dispatch is described by the calls it
    makes, in order, and what a callback returns is given by a `reply`
    function fixed per bus. */
module PubSub {
  import opened JsValues

  type Key = string

  /** A subscriber callback, known only by its identity (compared with `===`). */
  type Callback = nat

  /** One call of a callback with the arguments of a trigger. */
  datatype Delivery = Delivery(callback: Callback, args: seq<JsValue>)

  /** A client list: event key to the callbacks listening for it, in
      registration order. */
  type Table = map<Key, seq<Callback>>

  /** `table[key]`, a missing list read as empty. */
  function Lookup(table: Table, key: Key): seq<Callback>
  {
    if key in table then table[key] else []
  }

  /** The calls a dispatch over `fns` makes: every callback once, in
      registration order, with the trigger's arguments. */
  function Dispatch(fns: seq<Callback>, args: seq<JsValue>): (calls: seq<Delivery>)
    ensures |calls| == |fns|
    ensures forall i :: 0 <= i < |fns| ==> calls[i] == Delivery(fns[i], args)
  {
    seq(|fns|, i requires 0 <= i < |fns| => Delivery(fns[i], args))
  }

  /** What a dispatch returns: the value of the last callback called, or
      undefined when none was called. */
  function LastReply(calls: seq<Delivery>, reply: Delivery -> JsValue): JsValue
  {
    if calls == [] then Undefined else reply(calls[|calls| - 1])
  }

  /** The table after `listen(key, fn)`: an unseen key gets a list first,
      then `fn` is appended; no other key's list changes. */
  function Listened(table: Table, key: Key, fn: Callback): (t: Table)
    ensures key in t && t[key] == Lookup(table, key) + [fn]
    ensures t.Keys == table.Keys + {key}
    ensures forall k :: k in table && k != key ==> t[k] == table[k]
  {
    table[key := Lookup(table, key) + [fn]]
  }

  /** `fns` with every occurrence of `fn` deleted, the others kept in order. */
  function Without(fns: seq<Callback>, fn: Callback): seq<Callback>
  {
    if fns == [] then []
    else (if fns[0] == fn then [] else [fns[0]]) + Without(fns[1..], fn)
  }

  /** Deleting removes every occurrence of `fn`, keeps every other
      callback, and shortens the list by the number of occurrences. */
  lemma {:induction false} WithoutSpec(fns: seq<Callback>, fn: Callback)
    ensures fn !in Without(fns, fn)
    ensures forall g :: g != fn ==> (g in Without(fns, fn) <==> g in fns)
    ensures |Without(fns, fn)| + multiset(fns)[fn] == |fns|
  {
    if fns != [] {
      WithoutSpec(fns[1..], fn);
      assert fns == [fns[0]] + fns[1..];
    }
  }

  /** Deleting distributes over concatenation, so the callbacks that stay
      keep their relative order. */
  lemma {:induction false} WithoutAppend(a: seq<Callback>, b: seq<Callback>, fn: Callback)
    ensures Without(a + b, fn) == Without(a, fn) + Without(b, fn)
  {
    if a != [] {
      WithoutAppend(a[1..], b, fn);
      assert (a + b)[0] == a[0] && (a + b)[1..] == a[1..] + b;
      var head := if a[0] == fn then [] else [a[0]];
      assert Without(a + b, fn) == head + Without(a[1..] + b, fn);
      assert Without(a, fn) == head + Without(a[1..], fn);
    } else {
      assert a + b == b;
    }
  }

  function Min(a: int, b: int): int { if a < b then a else b }

  /** One step of the downward splice loop: at index `i`, with the part
      above `i` already cleaned, deleting `orig[i]` when it matches extends
      the cleaned part down to `i`. */
  lemma {:induction false} SpliceStep(orig: seq<Callback>, i: nat, fn: Callback)
    requires i < |orig|
    ensures var pre := orig[..i + 1] + Without(orig[i + 1..], fn);
      && pre[i] == orig[i]
      && (if orig[i] == fn then pre[..i] + pre[i + 1..] else pre) == orig[..i] + Without(orig[i..], fn)
  {
    var a, x, w := orig[..i], orig[i], Without(orig[i + 1..], fn);
    assert orig[..i + 1] == a + [x];
    var pre := a + [x] + w;
    assert pre[i] == x;
    var t := orig[i..];
    assert t[0] == x && t[1..] == orig[i + 1..];
    assert Without(t, fn) == (if x == fn then [] else [x]) + w;
    if x == fn {
      assert pre[..i] == a;
      assert pre[i + 1..] == w;
    } else {
      assert pre == a + ([x] + w);
    }
  }

  /** `_remove(key, cache, fn)`: nothing happens for an absent key; without
      `fn` the key's list is reset to empty; with `fn` the list is walked
      from index `length` down to 0 and every element `=== fn` is spliced
      out. */
  method RemoveFrom(cache: Table, key: Key, fn: Option<Callback>) returns (c: Table)
    ensures key !in cache ==> c == cache
    ensures key in cache && fn.None? ==> c == cache[key := []]
    ensures key in cache && fn.Some? ==> c == cache[key := Without(cache[key], fn.value)]
  {
    c := cache;
    if key in cache {
      if fn.Some? {
        var fns := cache[key];
        ghost var orig := fns;
        var i := |fns|;
        while i >= 0
          invariant -1 <= i <= |orig|
          invariant fns == orig[..Min(i + 1, |orig|)] + Without(orig[Min(i + 1, |orig|)..], fn.value)
        {
          if i < |fns| && fns[i] == fn.value {
            fns := fns[..i] + fns[i + 1..];
          }
          if i < |orig| {
            SpliceStep(orig, i, fn.value);
          }
          i := i - 1;
        }
        assert orig[..0] == [] && orig[0..] == orig;
        assert fns == Without(orig, fn.value);
        c := cache[key := fns];
      } else {
        c := cache[key := []];
      }
    }
  }

  /** `_trigger(cache, key, ...args)`: nothing is called for a key without
      listeners; otherwise `each` calls every listener in order, over the
      length taken at the start, and returns the last callback's value. */
  method TriggerIn(cache: Table, key: Key, args: seq<JsValue>, reply: Delivery -> JsValue)
    returns (ret: JsValue, calls: seq<Delivery>)
    ensures |calls| == |Lookup(cache, key)|
    ensures forall i :: 0 <= i < |calls| ==> calls[i] == Delivery(Lookup(cache, key)[i], args)
    ensures ret == LastReply(calls, reply)
  {
    ret, calls := Undefined, [];
    if key !in cache || |cache[key]| == 0 {
      return;
    }
    var stack := cache[key];
    var i, l := 0, |stack|;
    while i < l
      invariant 0 <= i <= l
      invariant |calls| == i
      invariant forall j :: 0 <= j < i ==> calls[j] == Delivery(stack[j], args)
      invariant ret == LastReply(calls, reply)
    {
      var d := Delivery(stack[i], args);
      ret := reply(d);
      calls := calls + [d];
      i := i + 1;
    }
  }

  // ---------------------------------------------------------------------
  // The plain bus: salesOffice, Events and globalEvent.

  /** One explicit instance of the plain bus; `installEvent` copying its
      methods onto other objects is not modelled. */
  class Bus {
    var clientList: Table

    constructor ()
      ensures clientList == map[]
    {
      clientList := map[];
    }

    /** `listen(key, fn)`. */
    method Listen(key: Key, fn: Callback)
      modifies this
      ensures clientList == Listened(old(clientList), key, fn)
    {
      var fns := if key in clientList then clientList[key] else [];
      clientList := clientList[key := fns + [fn]];
    }

    /** `trigger(key, ...args)`: false, and no call, for a key without
        listeners; otherwise every listener is called in registration order
        and the result is undefined. */
    method Trigger(key: Key, args: seq<JsValue>) returns (r: JsValue, calls: seq<Delivery>)
      ensures Lookup(clientList, key) == [] ==> r == Bool(false) && calls == []
      ensures Lookup(clientList, key) != [] ==> r == Undefined
      ensures |calls| == |Lookup(clientList, key)|
      ensures forall i :: 0 <= i < |calls| ==> calls[i] == Delivery(Lookup(clientList, key)[i], args)
    {
      if key !in clientList || |clientList[key]| == 0 {
        return Bool(false), [];
      }
      var fns := clientList[key];
      r, calls := Undefined, [];
      var i := 0;
      while i < |fns|
        invariant 0 <= i <= |fns|
        invariant |calls| == i
        invariant forall j :: 0 <= j < i ==> calls[j] == Delivery(fns[j], args)
      {
        calls := calls + [Delivery(fns[i], args)];
        i := i + 1;
      }
    }

    /** `remove(key, fn)`: false, and no change, for a key without
        listeners; without `fn` the list is emptied; with `fn` every
        occurrence of it is deleted (the corrected loop, see LegacyRemoveLoop
        for the one the source has). */
    method Remove(key: Key, fn: Option<Callback>) returns (r: JsValue)
      modifies this
      ensures Lookup(old(clientList), key) == [] ==> r == Bool(false) && clientList == old(clientList)
      ensures Lookup(old(clientList), key) != [] ==>
        && r == Undefined
        && clientList == old(clientList)[key := if fn.None? then [] else Without(old(clientList)[key], fn.value)]
    {
      if key !in clientList || |clientList[key]| == 0 {
        return Bool(false);
      }
      r := Undefined;
      clientList := RemoveFrom(clientList, key, fn);
    }
  }

  /** The by-callback loop of `Events.remove` and `globalEvent.remove` as
      written, `for (let i = fns.length - 1; i > 0; i++)` splicing out each
      element `=== fn`, run for at most `fuel` iterations: None when it has
      not left the loop by then. */
  function LegacyRemoveLoop(fns: seq<Callback>, fn: Callback, i: int, fuel: nat): Option<seq<Callback>>
    decreases fuel
  {
    if i <= 0 then Some(fns)
    else if fuel == 0 then None
    else
      var next := if i < |fns| && fns[i] == fn then fns[..i] + fns[i + 1..] else fns;
      LegacyRemoveLoop(next, fn, i + 1, fuel - 1)
  }

  /** Once inside the loop the index only grows, so the loop never exits. */
  lemma {:induction false} LegacyRemoveLoopDiverges(fns: seq<Callback>, fn: Callback, i: int, fuel: nat)
    requires i > 0
    ensures LegacyRemoveLoop(fns, fn, i, fuel) == None
    decreases fuel
  {
    if fuel > 0 {
      var next := if i < |fns| && fns[i] == fn then fns[..i] + fns[i + 1..] else fns;
      LegacyRemoveLoopDiverges(next, fn, i + 1, fuel - 1);
    }
  }

  /** With two or more listeners the legacy removal never terminates,
      however many iterations it is given. */
  lemma LegacyRemoveDiverges(fns: seq<Callback>, fn: Callback, fuel: nat)
    requires |fns| >= 2
    ensures LegacyRemoveLoop(fns, fn, |fns| - 1, fuel) == None
  {
    LegacyRemoveLoopDiverges(fns, fn, |fns| - 1, fuel);
  }

  /** With one listener the legacy removal skips the loop and keeps the
      callback it was asked to delete. */
  lemma LegacyRemoveKeepsOnlyListener(f: Callback, fuel: nat)
    ensures LegacyRemoveLoop([f], f, 0, fuel) == Some([f])
  {
  }

  // ---------------------------------------------------------------------
  // The final version: finalEvent.

  /** A trigger deferred on the offline stack: `_trigger(cache, key, ...args)`
      over the namespace's own table, run when it is replayed. */
  datatype Pending = Pending(key: Key, args: seq<JsValue>)

  /** The calls made by running the deferred triggers of `stack` in order
      over `cache`. */
  function ReplayCalls(cache: Table, stack: seq<Pending>): seq<Delivery>
  {
    if stack == [] then []
    else
      var p := stack[|stack| - 1];
      ReplayCalls(cache, stack[..|stack| - 1]) + Dispatch(Lookup(cache, p.key), p.args)
  }

  /** The deferred triggers the first listen runs: all of them, or with
      `last === 'last'` only the most recent one. */
  function Replayed(stack: seq<Pending>, last: bool): (r: seq<Pending>)
    ensures last ==> |r| <= 1 && (stack != [] ==> r == [stack[|stack| - 1]])
    ensures !last ==> r == stack
  {
    if !last then stack
    else if stack == [] then []
    else [stack[|stack| - 1]]
  }

  /** Replaying a buffered trigger for `key` after `fn` has been registered
      for `key` calls `fn` with that trigger's arguments. */
  lemma {:induction false} ReplayReachesNewListener(cache: Table, stack: seq<Pending>, key: Key, fn: Callback, j: nat)
    requires j < |stack| && stack[j].key == key
    ensures Delivery(fn, stack[j].args) in ReplayCalls(Listened(cache, key, fn), stack)
  {
    var c := Listened(cache, key, fn);
    var n := |stack| - 1;
    if j == n {
      var fns := Lookup(c, key);
      assert fns[|fns| - 1] == fn;
      assert Dispatch(fns, stack[j].args)[|fns| - 1] == Delivery(fn, stack[j].args);
    } else {
      ReplayReachesNewListener(cache, stack[..n], key, fn, j);
    }
  }

  /** Replaying nothing calls nothing, and a stack replays as its parts do
      one after the other. */
  lemma {:induction false} ReplayCallsAppend(cache: Table, a: seq<Pending>, b: seq<Pending>)
    ensures ReplayCalls(cache, a + b) == ReplayCalls(cache, a) + ReplayCalls(cache, b)
    decreases |b|
  {
    if b == [] {
      assert a + b == a;
    } else {
      var n := |b| - 1;
      assert (a + b)[..|a + b| - 1] == a + b[..n];
      ReplayCallsAppend(cache, a, b[..n]);
    }
  }

  /** A namespace object made by `_create`: its own table and its offline
      stack (None once the stack has been set to `null`). */
  class Namespace {
    var cache: Table
    var offlineStack: Option<seq<Pending>>
    const reply: Delivery -> JsValue

    constructor (reply: Delivery -> JsValue)
      ensures cache == map[] && offlineStack == Some([]) && this.reply == reply
    {
      cache := map[];
      offlineStack := Some([]);
      this.reply := reply;
    }

    /** `listen(key, fn, last)`: registers `fn` first; the first listen of
        the namespace then replays the buffered triggers (all, or with
        `last` only the most recent) and switches buffering off for good. */
    method Listen(key: Key, fn: Callback, last: bool) returns (calls: seq<Delivery>)
      modifies this
      ensures cache == Listened(old(cache), key, fn)
      ensures offlineStack == None
      ensures old(offlineStack) == None ==> calls == []
      ensures old(offlineStack).Some? ==> calls == ReplayCalls(cache, Replayed(old(offlineStack).value, last))
    {
      cache := Listened(cache, key, fn);
      calls := [];
      if offlineStack == None {
        return;
      }
      var stack, table := offlineStack.value, cache;
      if last {
        if |stack| > 0 {
          var p := stack[|stack| - 1];
          stack := stack[..|stack| - 1];
          var _, c := TriggerIn(table, p.key, p.args, reply);
          calls := c;
          assert [p][..0] == [];
        }
      } else {
        var i, l := 0, |stack|;
        while i < l
          invariant 0 <= i <= l
          invariant calls == ReplayCalls(table, stack[..i])
          invariant cache == table && offlineStack == old(offlineStack)
        {
          var _, c := TriggerIn(table, stack[i].key, stack[i].args, reply);
          assert stack[..i + 1][..i] == stack[..i];
          calls := calls + c;
          i := i + 1;
        }
        assert stack[..l] == stack;
      }
      offlineStack := None;
    }

    /** `one(key, fn, last)`: the key's list is reset and then `fn` is
        listened, so it ends as exactly `[fn]`. */
    method One(key: Key, fn: Callback, last: bool) returns (calls: seq<Delivery>)
      modifies this
      ensures cache == old(cache)[key := [fn]]
      ensures offlineStack == None
      ensures old(offlineStack) == None ==> calls == []
      ensures old(offlineStack).Some? ==> calls == ReplayCalls(cache, Replayed(old(offlineStack).value, last))
    {
      cache := RemoveFrom(cache, key, None);
      ghost var reset := cache;
      assert Lookup(reset, key) + [fn] == [fn];
      calls := Listen(key, fn, last);
      assert cache == reset[key := [fn]];
      assert reset[key := [fn]] == old(cache)[key := [fn]] by {
        assert reset.Keys + {key} == old(cache).Keys + {key};
        assert forall k :: k in reset && k != key ==> reset[k] == old(cache)[k];
      }
    }

    /** `remove(key, fn)`: `_remove` on the namespace's table. */
    method Remove(key: Key, fn: Option<Callback>)
      modifies this
      ensures offlineStack == old(offlineStack)
      ensures key !in old(cache) ==> cache == old(cache)
      ensures key in old(cache) ==>
        cache == old(cache)[key := if fn.None? then [] else Without(old(cache)[key], fn.value)]
    {
      cache := RemoveFrom(cache, key, fn);
    }

    /** `trigger(key, ...args)`: while buffering, nothing is called and the
        deferred trigger is pushed, the result being the new stack length;
        afterwards the listeners are called at once and the result is the
        last callback's value. */
    method Trigger(key: Key, args: seq<JsValue>) returns (r: JsValue, calls: seq<Delivery>)
      modifies this
      ensures cache == old(cache)
      ensures old(offlineStack).Some? ==>
        && offlineStack == Some(old(offlineStack).value + [Pending(key, args)])
        && calls == []
        && r == Num(|offlineStack.value|)
      ensures old(offlineStack).None? ==>
        && offlineStack == None
        && calls == Dispatch(Lookup(cache, key), args)
        && r == LastReply(calls, reply)
    {
      if offlineStack.Some? {
        offlineStack := Some(offlineStack.value + [Pending(key, args)]);
        return Num(|offlineStack.value|), [];
      }
      r, calls := TriggerIn(cache, key, args, reply);
    }
  }

  const DefaultNamespace: string := "default"

  /** `namespace || 'default'`: a missing or empty name means the default
      namespace. */
  function NamespaceName(ns: Option<string>): (name: string)
    ensures ns.None? || ns.value == "" ==> name == DefaultNamespace
    ensures ns.Some? && ns.value != "" ==> name == ns.value
    ensures name != ""
  {
    if ns.None? || ns.value == "" then DefaultNamespace else ns.value
  }

  /** The `Event` object of finalEvent: the namespaces created so far, and
      the top-level methods, which act on the default namespace. */
  class Hub {
    var namespaceCache: map<string, Namespace>
    const reply: Delivery -> JsValue

    /** Every name owns its own namespace object. */
    ghost predicate Valid()
      reads this, namespaceCache.Values
    {
      && (forall a, b :: a in namespaceCache && b in namespaceCache && a != b ==>
            namespaceCache[a] != namespaceCache[b])
      && (forall a :: a in namespaceCache ==> namespaceCache[a].reply == reply)
    }

    /** The table of the namespace `name` (empty if not created yet). */
    ghost function CacheOf(name: string): Table
      reads this, namespaceCache.Values
    {
      if name in namespaceCache then namespaceCache[name].cache else map[]
    }

    /** The offline stack of the namespace `name` (empty if not created yet). */
    ghost function OfflineOf(name: string): Option<seq<Pending>>
      reads this, namespaceCache.Values
    {
      if name in namespaceCache then namespaceCache[name].offlineStack else Some([])
    }

    constructor (reply: Delivery -> JsValue)
      ensures Valid() && namespaceCache == map[] && this.reply == reply
    {
      namespaceCache := map[];
      this.reply := reply;
    }

    /** `create(namespace)`: memoised per name, so every call with the same
        name gives the same object; a new name gets a fresh namespace with
        an empty table and an empty offline stack. */
    method Create(ns: Option<string>) returns (n: Namespace)
      requires Valid()
      modifies this
      ensures Valid()
      ensures forall m :: m in namespaceCache.Values ==> m in old(namespaceCache.Values) || fresh(m)
      ensures NamespaceName(ns) in namespaceCache && n == namespaceCache[NamespaceName(ns)]
      ensures NamespaceName(ns) in old(namespaceCache) ==> namespaceCache == old(namespaceCache)
      ensures NamespaceName(ns) !in old(namespaceCache) ==>
        && fresh(n)
        && namespaceCache == old(namespaceCache)[NamespaceName(ns) := n]
        && n.cache == map[] && n.offlineStack == Some([])
    {
      var name := NamespaceName(ns);
      if name in namespaceCache {
        n := namespaceCache[name];
      } else {
        n := new Namespace(reply);
        namespaceCache := namespaceCache[name := n];
      }
    }

    /** `finalEvent.listen(key, fn, last)` on the default namespace; the
        other namespaces are untouched. */
    method Listen(key: Key, fn: Callback, last: bool) returns (calls: seq<Delivery>)
      requires Valid()
      modifies this, namespaceCache.Values
      ensures Valid()
      ensures forall m :: m in namespaceCache.Values ==> m in old(namespaceCache.Values) || fresh(m)
      ensures CacheOf(DefaultNamespace) == Listened(old(CacheOf(DefaultNamespace)), key, fn)
      ensures OfflineOf(DefaultNamespace) == None
      ensures old(OfflineOf(DefaultNamespace)) == None ==> calls == []
      ensures old(OfflineOf(DefaultNamespace)).Some? ==>
        calls == ReplayCalls(CacheOf(DefaultNamespace), Replayed(old(OfflineOf(DefaultNamespace)).value, last))
      ensures forall name :: name != DefaultNamespace ==>
        CacheOf(name) == old(CacheOf(name)) && OfflineOf(name) == old(OfflineOf(name))
    {
      var event := Create(None);
      calls := event.Listen(key, fn, last);
    }

    /** `finalEvent.one(key, fn, last)` on the default namespace. */
    method One(key: Key, fn: Callback, last: bool) returns (calls: seq<Delivery>)
      requires Valid()
      modifies this, namespaceCache.Values
      ensures Valid()
      ensures forall m :: m in namespaceCache.Values ==> m in old(namespaceCache.Values) || fresh(m)
      ensures CacheOf(DefaultNamespace) == old(CacheOf(DefaultNamespace))[key := [fn]]
      ensures OfflineOf(DefaultNamespace) == None
      ensures old(OfflineOf(DefaultNamespace)) == None ==> calls == []
      ensures old(OfflineOf(DefaultNamespace)).Some? ==>
        calls == ReplayCalls(CacheOf(DefaultNamespace), Replayed(old(OfflineOf(DefaultNamespace)).value, last))
      ensures forall name :: name != DefaultNamespace ==>
        CacheOf(name) == old(CacheOf(name)) && OfflineOf(name) == old(OfflineOf(name))
    {
      var event := Create(None);
      calls := event.One(key, fn, last);
    }

    /** `finalEvent.remove(key, fn)` on the default namespace. */
    method Remove(key: Key, fn: Option<Callback>)
      requires Valid()
      modifies this, namespaceCache.Values
      ensures Valid()
      ensures forall m :: m in namespaceCache.Values ==> m in old(namespaceCache.Values) || fresh(m)
      ensures key !in old(CacheOf(DefaultNamespace)) ==> CacheOf(DefaultNamespace) == old(CacheOf(DefaultNamespace))
      ensures key in old(CacheOf(DefaultNamespace)) ==>
        CacheOf(DefaultNamespace) == old(CacheOf(DefaultNamespace))[key :=
          if fn.None? then [] else Without(old(CacheOf(DefaultNamespace))[key], fn.value)]
      ensures forall name ::
        OfflineOf(name) == old(OfflineOf(name))
      ensures forall name :: name != DefaultNamespace ==> CacheOf(name) == old(CacheOf(name))
    {
      var event := Create(None);
      event.Remove(key, fn);
    }

    /** `finalEvent.trigger(key, ...args)` on the default namespace.  The
        delegator does not return what the namespace's trigger returns, so
        its own result is always undefined. */
    method Trigger(key: Key, args: seq<JsValue>) returns (r: JsValue, calls: seq<Delivery>)
      requires Valid()
      modifies this, namespaceCache.Values
      ensures Valid()
      ensures forall m :: m in namespaceCache.Values ==> m in old(namespaceCache.Values) || fresh(m)
      ensures r == Undefined
      ensures forall name :: CacheOf(name) == old(CacheOf(name))
      ensures old(OfflineOf(DefaultNamespace)).Some? ==>
        && OfflineOf(DefaultNamespace) == Some(old(OfflineOf(DefaultNamespace)).value + [Pending(key, args)])
        && calls == []
      ensures old(OfflineOf(DefaultNamespace)).None? ==>
        && OfflineOf(DefaultNamespace) == None
        && calls == Dispatch(Lookup(CacheOf(DefaultNamespace), key), args)
      ensures forall name :: name != DefaultNamespace ==> OfflineOf(name) == old(OfflineOf(name))
    {
      var event := Create(None);
      var _, c := event.Trigger(key, args);
      r, calls := Undefined, c;
    }
  }

  // ---------------------------------------------------------------------
  // The demos.

  /** salesOffice: each subscriber hears only the key it listened for. */
  method SalesOfficeDemo() returns (calls88: seq<Delivery>, calls110: seq<Delivery>)
    ensures calls88 == [Delivery(1, [Num(2000000)])]
    ensures calls110 == [Delivery(2, [Num(3000000)])]
  {
    var salesOffice := new Bus();
    salesOffice.Listen("squareMeter88", 1);
    salesOffice.Listen("squareMeter110", 2);
    var _, c88 := salesOffice.Trigger("squareMeter88", [Num(2000000)]);
    var _, c110 := salesOffice.Trigger("squareMeter110", [Num(3000000)]);
    calls88, calls110 := c88, c110;
  }

  /** salesDynamicPubSub: after `remove('squareMeter88')` the trigger for
      that key finds an empty list and returns false; the other key is
      unaffected. */
  method SalesDynamicDemo() returns (r88: JsValue, calls88: seq<Delivery>, calls110: seq<Delivery>)
    ensures r88 == Bool(false) && calls88 == []
    ensures calls110 == [Delivery(2, [Num(3000000)])]
  {
    var salesDyn := new Bus();
    salesDyn.Listen("squareMeter88", 1);
    salesDyn.Listen("squareMeter110", 2);
    var _ := salesDyn.Remove("squareMeter88", None);
    r88, calls88 := salesDyn.Trigger("squareMeter88", [Num(2000000)]);
    var _, c110 := salesDyn.Trigger("squareMeter110", [Num(3000000)]);
    calls110 := c110;
  }

  /** finalEvent: a trigger made before anyone listens is delivered to the
      first listener. */
  method OfflineDemo(reply: Delivery -> JsValue) returns (replayed: seq<Delivery>)
    ensures replayed == [Delivery(1, [Num(2000000)])]
  {
    var finalEvent := new Hub(reply);
    var _, _ := finalEvent.Trigger("squareMeter88", [Num(2000000)]);
    replayed := finalEvent.Listen("squareMeter88", 1, false);
    assert Replayed([Pending("squareMeter88", [Num(2000000)])], false)[..0] == [];
  }

  /** finalEvent namespaces: 'namespace1' and 'namespace2' are separate
      objects, each found again by name, and each delivers only to its own
      listener. */
  method NamespaceDemo(reply: Delivery -> JsValue) returns (calls1: seq<Delivery>, calls2: seq<Delivery>)
    ensures calls1 == [Delivery(3, [Num(1)])]
    ensures calls2 == [Delivery(4, [Num(2)])]
  {
    var finalEvent := new Hub(reply);
    var ns1 := finalEvent.Create(Some("namespace1"));
    var _ := ns1.Listen("click", 3, false);
    var ns2 := finalEvent.Create(Some("namespace2"));
    var _ := ns2.Listen("click", 4, false);
    var ns1Again := finalEvent.Create(Some("namespace1"));
    var _, c1 := ns1Again.Trigger("click", [Num(1)]);
    var ns2Again := finalEvent.Create(Some("namespace2"));
    var _, c2 := ns2Again.Trigger("click", [Num(2)]);
    calls1, calls2 := c1, c2;
  }
}
