/** The internal iterator `each`, the cursor-based external `Iterator`
    with the `compare` that walks two of them in lockstep, and the
    upload-object selector `iteratorUploadObj`.  Array elements are
    JavaScript primitives, compared with `===`, which on them is equality
    of values. */
module Iterators {
  import opened JsValues

  // ---------------------------------------------------------------------
  // each.

  /** `each(arr, callback)`: calls `callback(i, arr[i])` for i = 0, 1, ...
      over the length taken at the start, and stops right after the first
      call that returns exactly `false`.  `calls` lists the calls made. */
  method Each(arr: seq<JsValue>, callback: (nat, JsValue) -> JsValue)
    returns (calls: seq<(nat, JsValue)>)
    ensures |calls| <= |arr|
    ensures forall k :: 0 <= k < |calls| ==> calls[k] == (k, arr[k])
    ensures forall k :: 0 <= k < |calls| - 1 ==> callback(k, arr[k]) != Bool(false)
    ensures |calls| < |arr| ==> |calls| >= 1 && callback(|calls| - 1, arr[|calls| - 1]) == Bool(false)
  {
    calls := [];
    var i, l := 0, |arr|;
    while i < l
      invariant 0 <= i <= l == |arr|
      invariant |calls| == i
      invariant forall k :: 0 <= k < i ==> calls[k] == (k, arr[k]) && callback(k, arr[k]) != Bool(false)
    {
      calls := calls + [(i, arr[i])];
      if callback(i, arr[i]) == Bool(false) {
        break;
      }
      i := i + 1;
    }
  }

  /** The demo callback: it stops at the value 2 and logs the others. */
  function StopAtTwo(i: nat, n: JsValue): JsValue
  {
    if n == Num(2) then Bool(false) else Undefined
  }

  /** `each([1, 2, 3], ...)` with a stop at 2 calls the callback for the
      first two elements, and only `(0, 1)` gets past the stop test. */
  method EachDemo() returns (calls: seq<(nat, JsValue)>, logged: seq<(nat, JsValue)>)
    ensures calls == [(0, Num(1)), (1, Num(2))]
    ensures logged == [(0, Num(1))]
  {
    var arr := [Num(1), Num(2), Num(3)];
    calls := Each(arr, StopAtTwo);
    assert StopAtTwo(0, arr[0]) != Bool(false) && StopAtTwo(1, arr[1]) == Bool(false);
    logged := [];
    for k := 0 to |calls|
      invariant logged == if k == 0 then [] else [(0, Num(1))]
    {
      if StopAtTwo(calls[k].0, calls[k].1) != Bool(false) {
        logged := logged + [calls[k]];
      }
    }
  }

  // ---------------------------------------------------------------------
  // Iterator and compare.

  /** `obj[cur]`: the element at the cursor, or undefined past the end. */
  function ItemAt(obj: seq<JsValue>, cur: nat): (v: JsValue)
    ensures cur < |obj| ==> v == obj[cur]
    ensures cur >= |obj| ==> v == Undefined
  {
    if cur < |obj| then obj[cur] else Undefined
  }

  /** `Iterator(obj)`: a cursor over `obj`, starting at 0. */
  class Iterator {
    const obj: seq<JsValue>
    var cur: nat

    constructor (obj: seq<JsValue>)
      ensures this.obj == obj && cur == 0
    {
      this.obj := obj;
      cur := 0;
    }

    /** `next()`: moves the cursor one step. */
    method Next()
      modifies this
      ensures cur == old(cur) + 1
    {
      cur := cur + 1;
    }

    /** `isDone()`: only once the cursor is PAST the last index plus one,
        so a walk visits one position beyond the end. */
    function IsDone(): (done: bool)
      reads this
      ensures !done ==> cur <= GetLen()
      ensures cur == GetLen() ==> !done
    {
      cur > |obj|
    }

    /** `getCurItem()`: the element at the cursor; undefined at the extra
        position the walk visits and after it. */
    function GetCurItem(): (v: JsValue)
      reads this
      ensures cur < |obj| ==> v == obj[cur]
      ensures cur >= GetLen() ==> v == Undefined
    {
      ItemAt(obj, cur)
    }

    /** `getLen()`. */
    function GetLen(): (n: nat)
      reads this
      ensures n == |obj|
    {
      |obj|
    }
  }

  /** What the `while` loop of `compare` ends with, from cursors `c1` and
      `c2`: it throws at the first position whose items differ, and
      finishes normally once either iterator is done. */
  function CompareFrom(obj1: seq<JsValue>, obj2: seq<JsValue>, c1: nat, c2: nat): Completion<JsValue>
    decreases |obj1| + 1 - c1
  {
    if c1 > |obj1| || c2 > |obj2| then Normal(Undefined)
    else if ItemAt(obj1, c1) != ItemAt(obj2, c2) then Throw("not equal!")
    else CompareFrom(obj1, obj2, c1 + 1, c2 + 1)
  }

  /** From a common cursor inside two equally long arrays, the walk
      finishes normally exactly when the arrays agree from there on. */
  lemma {:induction false} CompareFromEqual(obj1: seq<JsValue>, obj2: seq<JsValue>, c: nat)
    requires |obj1| == |obj2| && c <= |obj1|
    ensures CompareFrom(obj1, obj2, c, c) == Normal(Undefined) <==> obj1[c..] == obj2[c..]
    decreases |obj1| - c
  {
    if c == |obj1| {
      assert CompareFrom(obj1, obj2, c + 1, c + 1) == Normal(Undefined);
    } else {
      CompareFromEqual(obj1, obj2, c + 1);
      assert obj1[c..] == [obj1[c]] + obj1[c + 1..];
      assert obj2[c..] == [obj2[c]] + obj2[c + 1..];
    }
  }

  /** Every result of the walk is either a normal finish or the error
      'not equal!'. */
  lemma {:induction false} CompareFromOutcomes(obj1: seq<JsValue>, obj2: seq<JsValue>, c1: nat, c2: nat)
    ensures CompareFrom(obj1, obj2, c1, c2) in {Normal(Undefined), Throw("not equal!")}
    decreases |obj1| + 1 - c1
  {
    if !(c1 > |obj1| || c2 > |obj2|) && ItemAt(obj1, c1) == ItemAt(obj2, c2) {
      CompareFromOutcomes(obj1, obj2, c1 + 1, c2 + 1);
    }
  }

  /** How many rounds the loop of `compare` completes from cursors `c1` and
      `c2`, each round advancing both cursors: none once either iterator is
      done or the items at the cursors differ. */
  function CompareSteps(obj1: seq<JsValue>, obj2: seq<JsValue>, c1: nat, c2: nat): nat
    decreases |obj1| + 1 - c1
  {
    if c1 > |obj1| || c2 > |obj2| then 0
    else if ItemAt(obj1, c1) != ItemAt(obj2, c2) then 0
    else 1 + CompareSteps(obj1, obj2, c1 + 1, c2 + 1)
  }

  /** Where the walk stops: after a throw both cursors are inside their
      arrays (or at the extra position) and their items differ; after a
      normal finish one of the iterators is done. */
  lemma {:induction false} CompareStepsEnd(obj1: seq<JsValue>, obj2: seq<JsValue>, c1: nat, c2: nat)
    ensures var k := CompareSteps(obj1, obj2, c1, c2);
      && (CompareFrom(obj1, obj2, c1, c2).Throw? ==>
            c1 + k <= |obj1| && c2 + k <= |obj2| && ItemAt(obj1, c1 + k) != ItemAt(obj2, c2 + k))
      && (CompareFrom(obj1, obj2, c1, c2).Normal? ==> c1 + k > |obj1| || c2 + k > |obj2|)
    decreases |obj1| + 1 - c1
  {
    if !(c1 > |obj1| || c2 > |obj2|) && ItemAt(obj1, c1) == ItemAt(obj2, c2) {
      CompareStepsEnd(obj1, obj2, c1 + 1, c2 + 1);
    }
  }

  /** How many rounds the loop completes when both arguments are one
      iterator over an array of length `n`: each round moves its cursor
      two steps, and no item differs from itself. */
  function SelfSteps(n: nat, c: nat): nat
    decreases n + 1 - c
  {
    if c > n then 0 else 1 + SelfSteps(n, c + 2)
  }

  /** What `compare` does to two fresh iterators: it throws when the
      lengths differ, and otherwise finishes normally exactly when the
      arrays are equal. */
  function CompareResult(obj1: seq<JsValue>, obj2: seq<JsValue>): Completion<JsValue>
  {
    if |obj1| != |obj2| then Throw("not equal!") else CompareFrom(obj1, obj2, 0, 0)
  }

  lemma CompareResultSpec(obj1: seq<JsValue>, obj2: seq<JsValue>)
    ensures CompareResult(obj1, obj2) == Normal(Undefined) <==> obj1 == obj2
    ensures CompareResult(obj1, obj2) != Normal(Undefined) ==> CompareResult(obj1, obj2) == Throw("not equal!")
  {
    CompareFromOutcomes(obj1, obj2, 0, 0);
    if |obj1| == |obj2| {
      CompareFromEqual(obj1, obj2, 0);
      assert obj1[0..] == obj1 && obj2[0..] == obj2;
    }
  }

  /** Walking one array against itself never finds a difference. */
  lemma {:induction false} CompareFromSelf(obj: seq<JsValue>, c: nat)
    ensures CompareFrom(obj, obj, c, c) == Normal(Undefined)
    decreases |obj| + 1 - c
  {
    if c <= |obj| {
      CompareFromSelf(obj, c + 1);
    }
  }

  /** `compare(iterator1, iterator2)`: different lengths throw at once and
      move no cursor; otherwise both iterators advance in lockstep until
      one is done, and the first pair of items that are not `===` throws,
      leaving the cursors on that pair.  A normal finish logs 'equal'.
      Passing one iterator twice moves its cursor two steps a round, but
      its items always equal themselves, so the walk finishes normally, as
      the walk of an array against itself does. */
  method Compare(iterator1: Iterator, iterator2: Iterator) returns (r: Completion<JsValue>)
    modifies iterator1, iterator2
    ensures r == if iterator1.GetLen() != iterator2.GetLen() then Throw("not equal!")
      else CompareFrom(iterator1.obj, iterator2.obj, old(iterator1.cur), old(iterator2.cur))
    ensures iterator1.GetLen() != iterator2.GetLen() ==>
      iterator1.cur == old(iterator1.cur) && iterator2.cur == old(iterator2.cur)
    ensures iterator1.GetLen() == iterator2.GetLen() && iterator1 != iterator2 ==>
      var k := CompareSteps(iterator1.obj, iterator2.obj, old(iterator1.cur), old(iterator2.cur));
      iterator1.cur == old(iterator1.cur) + k && iterator2.cur == old(iterator2.cur) + k
    ensures iterator1 == iterator2 ==>
      iterator1.cur == old(iterator1.cur) + 2 * SelfSteps(|iterator1.obj|, old(iterator1.cur))
    ensures iterator1.GetLen() == iterator2.GetLen() && r.Throw? ==>
      !iterator1.IsDone() && !iterator2.IsDone() && iterator1.GetCurItem() != iterator2.GetCurItem()
    ensures r.Normal? ==> iterator1.IsDone() || iterator2.IsDone()
  {
    if iterator1.GetLen() != iterator2.GetLen() {
      return Throw("not equal!");
    }
    if iterator1 == iterator2 {
      CompareFromSelf(iterator1.obj, iterator1.cur);
    }
    while !iterator1.IsDone() && !iterator2.IsDone()
      invariant iterator1 != iterator2 ==>
        CompareFrom(iterator1.obj, iterator2.obj, old(iterator1.cur), old(iterator2.cur))
          == CompareFrom(iterator1.obj, iterator2.obj, iterator1.cur, iterator2.cur)
      invariant iterator1 != iterator2 ==>
        && iterator1.cur - old(iterator1.cur) == iterator2.cur - old(iterator2.cur)
        && old(iterator1.cur) + CompareSteps(iterator1.obj, iterator2.obj, old(iterator1.cur), old(iterator2.cur))
          == iterator1.cur + CompareSteps(iterator1.obj, iterator2.obj, iterator1.cur, iterator2.cur)
      invariant iterator1 == iterator2 ==>
        && CompareFrom(iterator1.obj, iterator2.obj, old(iterator1.cur), old(iterator2.cur)) == Normal(Undefined)
        && old(iterator1.cur) + 2 * SelfSteps(|iterator1.obj|, old(iterator1.cur))
          == iterator1.cur + 2 * SelfSteps(|iterator1.obj|, iterator1.cur)
      decreases |iterator1.obj| + 1 - iterator1.cur
    {
      if iterator1.GetCurItem() != iterator2.GetCurItem() {
        return Throw("not equal!");
      }
      iterator1.Next();
      iterator2.Next();
    }
    r := Normal(Undefined);
  }

  /** The demo: `[1, 2]` against `[1]` throws 'not equal!'. */
  method CompareDemo() returns (r: Completion<JsValue>)
    ensures r == Throw("not equal!")
  {
    var iterator1 := new Iterator([Num(1), Num(2)]);
    var iterator2 := new Iterator([Num(1)]);
    r := Compare(iterator1, iterator2);
  }

  // ---------------------------------------------------------------------
  // iteratorUploadObj.

  /** `iteratorUploadObj(...candidates)`: the candidates are called in
      order and the first result that is not exactly `false` is returned;
      later candidates are not called.  `candidates[k]` is what the k-th
      candidate returns; `called` counts the calls made.  When every
      candidate returns `false` the result is undefined. */
  method SelectUploadObj(candidates: seq<JsValue>) returns (r: JsValue, called: nat)
    ensures called <= |candidates|
    ensures forall k :: 0 <= k < called - 1 ==> candidates[k] == Bool(false)
    ensures (exists k :: 0 <= k < |candidates| && candidates[k] != Bool(false)) ==>
      called >= 1 && r == candidates[called - 1] && r != Bool(false)
    ensures (forall k :: 0 <= k < |candidates| ==> candidates[k] == Bool(false)) ==>
      called == |candidates| && r == Undefined
  {
    called := 0;
    var i := 0;
    while i < |candidates|
      invariant 0 <= i <= |candidates| && called == i
      invariant forall k :: 0 <= k < i ==> candidates[k] == Bool(false)
    {
      var uploadObj := candidates[i];
      i := i + 1;
      called := called + 1;
      if uploadObj != Bool(false) {
        return uploadObj, called;
      }
    }
    r := Undefined;
  }

  /** The demo's priority list starts with the webkit getter, whose empty
      body returns undefined; undefined is not `false`, so that getter is
      chosen and no other is called. */
  method UploadDemo(active: JsValue, flash: JsValue, form: JsValue) returns (r: JsValue, called: nat)
    ensures r == Undefined && called == 1
  {
    var candidates := [Undefined, Undefined, active, flash, form];
    assert candidates[0] != Bool(false);
    r, called := SelectUploadObj(candidates);
  }
}
