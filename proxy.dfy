/** The caching proxy (`createProxyFactory` wrapping `mult` and `plus`)
    and the batching proxy that merges file-sync requests.  Numbers are
    mathematical integers; the two-second timer of the batching proxy is
    an explicit `Flush` step. */
module Proxy {
  import opened Strings

  // ---------------------------------------------------------------------
  // mult and plus.

  /** The product of the arguments; the empty product is 1. */
  function Product(xs: seq<int>): int
  {
    if xs == [] then 1 else Product(xs[..|xs| - 1]) * xs[|xs| - 1]
  }

  /** The sum of the arguments; the empty sum is 0. */
  function Sum(xs: seq<int>): int
  {
    if xs == [] then 0 else Sum(xs[..|xs| - 1]) + xs[|xs| - 1]
  }

  /** The product of a concatenation is the product of the products, so
      the product of several arguments does not depend on how they are
      grouped. */
  lemma {:induction false} ProductAppend(a: seq<int>, b: seq<int>)
    ensures Product(a + b) == Product(a) * Product(b)
  {
    if b == [] {
      assert a + b == a;
    } else {
      var init, last := b[..|b| - 1], b[|b| - 1];
      assert (a + b)[..|a + b| - 1] == a + init && (a + b)[|a + b| - 1] == last;
      ProductAppend(a, init);
      MulAssoc(Product(a), Product(init), last);
    }
  }

  lemma MulAssoc(x: int, y: int, z: int)
    ensures (x * y) * z == x * (y * z)
  {
  }

  /** The sum of a concatenation is the sum of the sums. */
  lemma {:induction false} SumAppend(a: seq<int>, b: seq<int>)
    ensures Sum(a + b) == Sum(a) + Sum(b)
  {
    if b != [] {
      assert (a + b)[..|a + b| - 1] == a + b[..|b| - 1];
      SumAppend(a, b[..|b| - 1]);
    } else {
      assert a + b == a;
    }
  }

  /** The product and the sum of one argument are that argument. */
  lemma SingleArgument(x: int)
    ensures Product([x]) == x && Sum([x]) == x
  {
    assert [x][..0] == [];
  }

  /** `mult(...arguments)`: the accumulator starts at 1 and is multiplied
      by each argument in turn. */
  method Mult(args: seq<int>) returns (a: int)
    ensures a == Product(args)
  {
    a := 1;
    for i := 0 to |args|
      invariant a == Product(args[..i])
    {
      assert args[..i + 1][..i] == args[..i];
      a := a * args[i];
    }
    assert args[..|args|] == args;
  }

  /** `plus(...arguments)`: the accumulator starts at 0 and each argument
      is added in turn. */
  method Plus(args: seq<int>) returns (a: int)
    ensures a == Sum(args)
  {
    a := 0;
    for i := 0 to |args|
      invariant a == Sum(args[..i])
    {
      assert args[..i + 1][..i] == args[..i];
      a := a + args[i];
    }
    assert args[..|args|] == args;
  }

  // ---------------------------------------------------------------------
  // The cache key.

  /** `[].join.call(arguments, ',')`: each argument rendered in decimal,
      separated by commas. */
  function Key(args: seq<int>): string
  {
    Join(Rendered(args), ',')
  }

  function Rendered(args: seq<int>): (r: seq<string>)
    ensures |r| == |args|
    ensures forall i :: 0 <= i < |args| ==> r[i] == IntToString(args[i])
  {
    seq(|args|, i requires 0 <= i < |args| => IntToString(args[i]))
  }

  /** A join whose first part is non-empty is non-empty. */
  lemma JoinNonEmpty(parts: seq<string>, sep: char)
    requires |parts| >= 1 && parts[0] != ""
    ensures Join(parts, sep) != ""
  {
  }

  /** Different argument lists have different keys: no call can be answered
      with a value cached for other arguments.  (This needs the arguments to
      be numbers: the strings '1,2' and the pair 1, 2 would share a key.) */
  lemma KeyInjective(a: seq<int>, b: seq<int>)
    requires Key(a) == Key(b)
    ensures a == b
  {
    var ra, rb := Rendered(a), Rendered(b);
    if a == [] || b == [] {
      if a != [] {
        JoinNonEmpty(ra, ',');
      }
      if b != [] {
        JoinNonEmpty(rb, ',');
      }
    } else {
      SplitJoin(ra, ',');
      SplitJoin(rb, ',');
      forall i | 0 <= i < |a|
        ensures a[i] == b[i]
      {
        IntToStringInjective(a[i], b[i]);
      }
    }
  }

  // ---------------------------------------------------------------------
  // createProxyFactory.

  /** The function `createProxyFactory(fn)` returns, with the `cache`
      object it closes over.  `calls` records the argument lists `fn` was
      actually applied to. */
  class CachingProxy {
    const fn: seq<int> -> int
    var cache: map<string, int>
    ghost var calls: seq<seq<int>>

    /** Every cached entry is `fn`'s value for the arguments whose key it
        is. */
    ghost predicate Valid()
      reads this
    {
      forall k :: k in cache ==> exists args :: Key(args) == k && cache[k] == fn(args)
    }

    /** `createProxyFactory(fn)`: a fresh, empty cache. */
    constructor (fn: seq<int> -> int)
      ensures Valid() && this.fn == fn && cache == map[] && calls == []
    {
      this.fn := fn;
      cache := map[];
      calls := [];
    }

    /** A call: a cached key returns its value without calling `fn`;
        otherwise `fn` is applied and its result stored under the key.
        Entries are only ever added. */
    method Call(args: seq<int>) returns (r: int)
      requires Valid()
      modifies this
      ensures Valid()
      ensures r == fn(args)
      ensures cache == old(cache)[Key(args) := r]
      ensures Key(args) in old(cache) ==> cache == old(cache) && calls == old(calls)
      ensures Key(args) !in old(cache) ==> calls == old(calls) + [args]
    {
      var key := Key(args);
      if key in cache {
        var other :| Key(other) == key && cache[key] == fn(other);
        KeyInjective(other, args);
        return cache[key];
      }
      r := fn(args);
      cache := cache[key := r];
      calls := calls + [args];
    }
  }

  /** The demo: `proxyMult(1, 2, 3, 4)` and `proxyPlus(1, 2, 3, 4)` give 24
      and 10, and give them again from the caches, each proxy with a cache
      of its own. */
  method CacheDemo() returns (m1: int, p1: int, m2: int, p2: int)
    ensures m1 == 24 && p1 == 10 && m2 == 24 && p2 == 10
  {
    var args := [1, 2, 3, 4];
    assert args[..3] == [1, 2, 3] && [1, 2, 3][..2] == [1, 2] && [1, 2][..1] == [1];
    SingleArgument(1);
    assert Product(args) == 24 && Sum(args) == 10;
    var proxyMult := new CachingProxy(Product);
    var proxyPlus := new CachingProxy(Sum);
    m1 := proxyMult.Call(args);
    p1 := proxyPlus.Call(args);
    m2 := proxyMult.Call(args);
    p2 := proxyPlus.Call(args);
    assert |proxyMult.calls| == 1 && |proxyPlus.calls| == 1;
  }

  // ---------------------------------------------------------------------
  // proxySynchronousFile.

  /** The batching proxy: `cache` holds the ids clicked since the last
      upload, `timer` says whether an upload is scheduled and `uploads`
      lists the strings handed to `synchronousFile`. */
  class SyncFileProxy {
    var cache: seq<string>
    var timer: bool
    var uploads: seq<string>

    /** An upload is scheduled exactly while ids are waiting. */
    ghost predicate Valid()
      reads this
    {
      timer <==> cache != []
    }

    constructor ()
      ensures Valid() && cache == [] && !timer && uploads == []
    {
      cache := [];
      timer := false;
      uploads := [];
    }

    /** `proxySynchronousFile(id)`: the id is queued; the first id of a
        batch schedules the upload, later ones find it scheduled. */
    method Call(id: string)
      requires Valid()
      modifies this
      ensures Valid()
      ensures cache == old(cache) + [id] && timer
      ensures uploads == old(uploads)
    {
      cache := cache + [id];
      if timer {
        return;
      }
      timer := true;
    }

    /** The timer firing: the waiting ids are uploaded as one
        comma-separated string, the queue is emptied and the timer
        cleared.  Without a scheduled upload nothing happens. */
    method Flush()
      requires Valid()
      modifies this
      ensures Valid()
      ensures !old(timer) ==> cache == old(cache) && timer == old(timer) && uploads == old(uploads)
      ensures old(timer) ==> cache == [] && !timer && uploads == old(uploads) + [Join(old(cache), ',')]
      ensures old(timer) && (forall i :: 0 <= i < |old(cache)| ==> ',' !in old(cache)[i]) ==>
        Split(uploads[|uploads| - 1], ',') == old(cache)
    {
      if timer {
        ghost var ids := cache;
        uploads := uploads + [Join(cache, ',')];
        timer := false;
        cache := [];
        if forall i :: 0 <= i < |ids| ==> ',' !in ids[i] {
          SplitJoin(ids, ',');
        }
      }
    }
  }

  /** Three clicks within one batch give a single upload of all three ids,
      in click order. */
  method BatchDemo() returns (uploads: seq<string>)
    ensures uploads == ["1,2,1"]
  {
    var proxy := new SyncFileProxy();
    proxy.Call("1");
    proxy.Call("2");
    proxy.Call("1");
    proxy.Flush();
    proxy.Flush();
    uploads := proxy.uploads;
    assert ["1", "2", "1"][1..] == ["2", "1"] && ["2", "1"][1..] == ["1"];
    assert Join(["2", "1"], ',') == "2,1";
    assert Join(["1", "2", "1"], ',') == "1,2,1";
  }
}
