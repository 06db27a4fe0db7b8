# jsDesignMode design-pattern snippets in Dafny

This project models the core of jsDesignMode, a collection of small
JavaScript design-pattern snippets.

- **Publish/subscribe** (`observer/pubSubMode.js`):
  - `PubSub.Bus` is the plain event bus: `salesOffice`, `Events` and `globalEvent`.
  - `PubSub.Namespace` and `PubSub.Hub` are the final bus, `finalEvent`. It has
    per-namespace tables, an offline stack that buffers triggers until the first
    `listen`, `one`, and the top-level delegators that act on the default namespace.
- **Strategy** (`strategy/srategyMode.js`):
  - The year-end bonus computed three ways: an if-chain, strategy objects held by
    `Bonus`, and a table of functions.
  - The form `Validator`, which splits rule strings such as `minLength:6` on `:`
    and queues one check per rule. `start` runs the checks and stops at the first
    error.
- **Proxy** (`proxy/proxyMode.js`):
  - `mult` and `plus`, and the caching proxy made by `createProxyFactory`.
  - The batching proxy `proxySynchronousFile`. It queues file ids and uploads them
    as one comma-separated string when its timer fires.
- **Iterator** (`iterator/iteratorMode.js`):
  - The internal iterator `each`.
  - The cursor-based `Iterator` and `compare`.
  - `iteratorUploadObj`, which picks the first upload object that is not `false`.
- **Singleton** (`singleTon/singleMode.js`):
  - `SingleTon.getInstance`.
  - The proxy singleton `ProxySingleTonCreateDiv`.

How the JavaScript values are represented:

- Values are JavaScript primitives (`JsValues.JsValue`). Strict equality `===`
  on them is value equality.
- A thrown error is a `Throw` completion.
- Callbacks are opaque identities (`PubSub.Callback`). A dispatch is described
  by the list of calls it makes, in order.
- Objects whose state the source updates in place are classes: the buses and
  namespaces, `Bonus`, `Validator`, the two proxies, `Iterator` and the
  singleton holders.

## Model

| member | source | states |
|---|---|---|
| PubSub.Listened | observer/pubSubMode.js:257-262 | Reference definition of `_listen`, which `Bus.Listen`, `Namespace.Listen` and `ReplayReachesNewListener` are stated against. A key seen for the first time gets an empty list before the callback is pushed. The callback ends up last in the key's list, and every other key keeps its list. |
| PubSub.Dispatch | observer/pubSubMode.js:286-288 | Reference definition of one dispatch, which `Namespace.Trigger`, `Hub.Trigger` and `ReplayCalls` are stated against. It calls every listener exactly once, in registration order, with the trigger's arguments. |
| PubSub.Bus.Listen | observer/pubSubMode.js:56-62 | `listen(key, fn)` leaves the client list equal to `Listened` of the old list. |
| PubSub.Bus.Trigger | observer/pubSubMode.js:63-74 | A key with a missing or empty list returns false and calls nothing. Otherwise each listener is called in order with the trigger's arguments, and the result is undefined. |
| PubSub.Bus.Remove | observer/pubSubMode.js:76-96 | A key without listeners returns false and leaves the table unchanged. Without `fn` the key's list is emptied. With `fn` every occurrence of `fn` is deleted: this is the corrected loop, see Findings. |
| PubSub.WithoutSpec | observer/pubSubMode.js:263-275 | Deleting a callback removes all its occurrences and keeps every other callback. The list shrinks by exactly the number of occurrences. |
| PubSub.WithoutAppend | observer/pubSubMode.js:266-270 | Deleting distributes over concatenation, so the callbacks that stay keep their relative order. |
| PubSub.SpliceStep | observer/pubSubMode.js:266-270 | One iteration of the downward splice loop extends the cleaned suffix by one index. |
| PubSub.RemoveFrom | observer/pubSubMode.js:263-275 | `_remove`: an absent key changes nothing, no `fn` resets the list to empty, and with `fn` the list becomes `Without(list, fn)`. The downward loop is proved against that function. |
| PubSub.TriggerIn | observer/pubSubMode.js:276-289 | `_trigger` calls every listener of the key in order and returns the last callback's value. It returns undefined when the key has no listeners. |
| PubSub.LegacyRemoveLoopDiverges | observer/pubSubMode.js:90-92 | Once the index of the `i++` loop is positive, the loop never exits, whatever the fuel. |
| PubSub.LegacyRemoveDiverges | observer/pubSubMode.js:211-213 | With two or more listeners, removing by callback never terminates. |
| PubSub.LegacyRemoveKeepsOnlyListener | observer/pubSubMode.js:90-92 | With a single listener the loop body never runs, so the callback is not removed. |
| PubSub.Replayed | observer/pubSubMode.js:300-306 | Reference definition of which buffered triggers the first listen runs, which `Namespace.Listen`, `Namespace.One` and the `Hub` delegators are stated against. With `last` only the most recent buffered trigger is replayed; otherwise all of them are, in order. |
| PubSub.ReplayReachesNewListener | observer/pubSubMode.js:295-306 | Every buffered trigger for the key reaches the callback that the first `listen` registers, with that trigger's arguments. |
| PubSub.ReplayCallsAppend | observer/pubSubMode.js:303-305 | Replaying a stack makes the calls of its parts, one part after the other. |
| PubSub.Namespace.Listen | observer/pubSubMode.js:295-308 | Registers `fn`. The first listen replays the buffered triggers (all of them, or only the last) and switches buffering off for good; later listens call nothing. |
| PubSub.Namespace.One | observer/pubSubMode.js:309-312 | The key's list ends as exactly `[fn]`, with the same replay behaviour as `listen`. |
| PubSub.Namespace.Remove | observer/pubSubMode.js:313-315 | `_remove` on the namespace's own table; the offline stack is unchanged. |
| PubSub.Namespace.Trigger | observer/pubSubMode.js:316-329 | While buffering, the trigger is pushed, nothing is called and the result is the new stack length. Afterwards the listeners are called at once and the result is the last callback's value. |
| PubSub.NamespaceName | observer/pubSubMode.js:291 | A missing or empty namespace name means 'default'; any other name is kept. |
| PubSub.Hub.Create | observer/pubSubMode.js:290-335 | `create` is memoised by name. A new name gets a fresh namespace with an empty table and an empty offline stack; distinct names own distinct namespaces. |
| PubSub.Hub.Listen | observer/pubSubMode.js:346-349 | `finalEvent.listen` acts as `Namespace.Listen` on the default namespace and leaves every other namespace untouched. |
| PubSub.Hub.One | observer/pubSubMode.js:338-341 | `finalEvent.one` acts as `Namespace.One` on the default namespace and leaves every other namespace untouched. |
| PubSub.Hub.Remove | observer/pubSubMode.js:342-345 | `finalEvent.remove` acts as `_remove` on the default namespace's table; no offline stack and no other table changes. |
| PubSub.Hub.Trigger | observer/pubSubMode.js:350-353 | `finalEvent.trigger` buffers or dispatches on the default namespace. Its own result is always undefined. |
| PubSub.SalesOfficeDemo | observer/pubSubMode.js:41-49 | Each subscriber hears only the key it listened for, with the price triggered for that key. |
| PubSub.SalesDynamicDemo | observer/pubSubMode.js:106-121 | After `remove('squareMeter88')` that key's trigger returns false and calls nothing; the 110 subscriber still hears 3000000. |
| PubSub.OfflineDemo | observer/pubSubMode.js:360-364 | A trigger made before anyone listens is delivered to the first listener. |
| PubSub.NamespaceDemo | observer/pubSubMode.js:367-374 | `namespace1` and `namespace2` are separate and are found again by name; each trigger reaches only its own namespace's listener. |
| Strategy.CalculateBonus | strategy/srategyMode.js:21-31 | The if-chain returns a value exactly for the levels 'S', 'A' and 'B', and that value agrees with the strategy table. Any other level gives undefined. |
| Strategy.TableBonus | strategy/srategyMode.js:85-87 | The table lookup succeeds exactly where the if-chain does, with the same value. Any other level the table does not define throws, because there is no function to call. Inherited names are left out, see below. |
| Strategy.Performance.Calculate | strategy/srategyMode.js:12-20 | Reference definition of the three performance strategies, shared by the if-chain, class and table versions; their properties are in `BonusMultipliers`. |
| Strategy.BonusMultipliers | strategy/srategyMode.js:12-32 | S, A and B multiply the salary by 4, 3 and 2. The demos give 30000 and 80000. |
| Strategy.Bonus.SetSalary | strategy/srategyMode.js:56-58 | Only the salary changes. |
| Strategy.Bonus.SetStrategy | strategy/srategyMode.js:59-61 | Only the strategy changes. |
| Strategy.Bonus.GetBonus | strategy/srategyMode.js:62-64 | The bonus is the current strategy applied to the salary. A `null` salary counts as 0, and a missing strategy throws. |
| Strategy.TraditionalDemo | strategy/srategyMode.js:66-69 | Salary 10000 with strategy S gives 40000. |
| Strategy.NonEmptyRule | strategy/srategyMode.js:94-98 | The rule 'isNonEmpty' returns its message exactly for the empty value, and undefined otherwise. |
| Strategy.MinLengthRule | strategy/srategyMode.js:99-103 | The rule 'minLength:n' returns its message exactly when the value's `length`, counted in UTF-16 code units, is less than n. |
| Strings.Utf16LengthBounds | strategy/srategyMode.js:100 | `value.length` counts UTF-16 code units. It lies between the number of characters and twice that number, and equals the number of characters on text inside the Basic Multilingual Plane. |
| Strategy.MobileRule | strategy/srategyMode.js:104-108 | The rule 'isMobile' returns its message exactly when the value does not match the pattern. |
| Strategy.MobileExamples | strategy/srategyMode.js:105 | The pattern accepts ordinary 13x/18x numbers and, through the literal bar in its character class, '1\|' numbers. It rejects other second digits and other lengths. |
| Strategy.ApplyStrategy | strategy/srategyMode.js:93-109 | Reference definition of `strategies[name].apply(dom, args)`. It throws exactly for names the table does not define. Otherwise the result is undefined or one of the message arguments. |
| Strategy.IsMobile | strategy/srategyMode.js:105 | Reference definition of the `isMobile` pattern; its properties are in `MobileRule` and `MobileExamples`. |
| Strategy.UnknownRule | strategy/srategyMode.js:124 | A strategy name that the table neither defines nor inherits from `Object.prototype` makes the check throw. |
| Strategy.NewCheck | strategy/srategyMode.js:117-119 | A queued check keeps the field and the message. Its list has no piece containing ':', and joining the list with ':' gives back the rule string. |
| Strategy.Rearranged | strategy/srategyMode.js:121-123 | Reference definition of one run's shift/unshift/push on the check's list, which `Validator.Start` is proved against. The field value comes first and the message last, with the rule's arguments kept in between. |
| Strategy.SecondRunLooksUpValue | strategy/srategyMode.js:120-125 | A check run a second time looks up the field value as a strategy name. So it throws unless the value is a strategy name or a property inherited from `Object.prototype`. |
| Strategy.FirstErrorIsFirstStop | strategy/srategyMode.js:129-136 | `start` runs the checks up to and including the first that throws or returns a truthy message, and returns that result. When none stops it, all checks run and the result is undefined. |
| Strategy.Validator.Add | strategy/srategyMode.js:114-128 | `add` appends one check per rule, in rule order, after the checks already queued. |
| Strategy.Validator.Start | strategy/srategyMode.js:129-136 | The result is `FirstError` of what the queued checks return on the fields' current values. Exactly the checks that ran have their lists rearranged; the others are unchanged. |
| Strings.JoinSplit | strategy/srategyMode.js:118 | Joining the pieces of `split(':')` with ':' gives back the string. |
| Strings.SplitPieces | strategy/srategyMode.js:118 | No piece of `split(sep)` contains the separator. |
| Strings.SplitJoin | proxy/proxyMode.js:95 | Splitting a ','-join whose parts contain no ',' gives back the parts. |
| Strings.IntToStringInjective | proxy/proxyMode.js:146 | Distinct numbers have distinct decimal renderings. |
| Proxy.Mult | proxy/proxyMode.js:123-129 | `mult` returns the product of its arguments; the empty product is 1. |
| Proxy.Plus | proxy/proxyMode.js:132-138 | `plus` returns the sum of its arguments; the empty sum is 0. |
| Proxy.ProductAppend | proxy/proxyMode.js:123-129 | The product of concatenated argument lists is the product of their products. |
| Proxy.SumAppend | proxy/proxyMode.js:132-138 | The sum of concatenated argument lists is the sum of their sums. |
| Proxy.Key | proxy/proxyMode.js:146 | Reference definition of the cache key `[].join.call(arguments, ',')` over decimal renderings; `KeyInjective` states its property. |
| Proxy.KeyInjective | proxy/proxyMode.js:146-147 | Different numeric argument lists get different cache keys, so no call is answered from another call's entry. |
| Proxy.CachingProxy.Call | proxy/proxyMode.js:144-150 | The result is always `fn(args)`. A cached key is answered without calling `fn`. A new key calls `fn` once and stores the result. |
| Proxy.CacheDemo | proxy/proxyMode.js:154-162 | The demo prints 24 and 10, and then 24 and 10 again. The mult and plus proxies keep separate caches. |
| Proxy.SyncFileProxy.Call | proxy/proxyMode.js:91-93 | The id is queued and the upload is scheduled. An upload is scheduled exactly while ids are waiting. |
| Proxy.SyncFileProxy.Flush | proxy/proxyMode.js:94-99 | When the timer fires, one upload of the queued ids joined by ',' is made, the queue is emptied and the timer is cleared. Ids without ',' can be split back out of the upload. |
| Proxy.BatchDemo | proxy/proxyMode.js:87-100 | Three clicks within one batch make one upload, "1,2,1", in click order. |
| Iterators.Each | iterator/iteratorMode.js:14-20 | `each` calls `callback(i, arr[i])` for i = 0, 1, ... and stops right after the first call that returns exactly `false`. Every earlier call returned something else. |
| Iterators.EachDemo | iterator/iteratorMode.js:22-25 | The callback is called for 1 and 2, and only `(0, 1)` is logged. |
| Iterators.ItemAt | iterator/iteratorMode.js:44-46 | Reference definition of `obj[cur]`, which `Iterator.GetCurItem` and `CompareFrom` use. It is the element at the cursor, or undefined past the end. |
| Iterators.Iterator.Next | iterator/iteratorMode.js:36-38 | The cursor moves one step. |
| Iterators.Iterator.IsDone | iterator/iteratorMode.js:40-42 | An iterator that is not done has its cursor at most at `length`. At `length` it is still not done, so a walk visits one position past the last element. |
| Iterators.Iterator.GetCurItem | iterator/iteratorMode.js:44-46 | The element at the cursor inside the array, and undefined from `length` on. |
| Iterators.Iterator.GetLen | iterator/iteratorMode.js:48-50 | The array's length. |
| Iterators.CompareFrom | iterator/iteratorMode.js:63-69 | Reference definition of the lockstep walk of `compare`'s loop, which `Compare` is proved against. Its properties are in `CompareFromEqual`, `CompareFromOutcomes` and `CompareFromSelf`. |
| Iterators.CompareStepsEnd | iterator/iteratorMode.js:63-69 | After the walk's rounds, a throw leaves both cursors on a pair of differing items within range. A normal finish leaves one iterator done. |
| Iterators.CompareFromEqual | iterator/iteratorMode.js:63-69 | For equal lengths, the lockstep walk finishes normally exactly when the arrays agree from the cursor on. Its extra step past the end compares undefined with undefined. |
| Iterators.CompareFromOutcomes | iterator/iteratorMode.js:60-72 | The walk either finishes normally or throws 'not equal!'. |
| Iterators.CompareFromSelf | iterator/iteratorMode.js:63-69 | Walking an array against itself never finds a difference. |
| Iterators.CompareResultSpec | iterator/iteratorMode.js:60-72 | On fresh iterators, `compare` finishes normally exactly when the arrays are equal, and throws 'not equal!' otherwise. |
| Iterators.Compare | iterator/iteratorMode.js:60-72 | Different lengths throw at once and move no cursor. Otherwise the result is the lockstep walk from the current cursors. Both cursors advance by the walk's number of rounds, or by two per round when both arguments are the same iterator. A throw leaves them on the first differing pair; a normal finish leaves one iterator done. |
| Iterators.CompareDemo | iterator/iteratorMode.js:74-77 | `[1, 2]` against `[1]` throws 'not equal!'. |
| Iterators.SelectUploadObj | iterator/iteratorMode.js:116-123 | `iteratorUploadObj` calls the getters in order and returns the first result that is not exactly `false`; later getters are not called. When all of them return false, the result is undefined. |
| Iterators.UploadDemo | iterator/iteratorMode.js:126 | The webkit getter comes first and returns undefined, which is not `false`. So it is chosen and no other getter is called. |
| Singleton.SingleTonFactory.GetInstance | singleTon/singleMode.js:16-24 | As written, the first call creates and stores an instance with its name, later calls keep it, and every call returns the closure's `null`. |
| Singleton.SingleTonFactory.GetInstanceCorrected | singleTon/singleMode.js:18-23 | The first call creates the instance with its name, and every call returns that same non-null instance. |
| Singleton.StandardDemo | singleTon/singleMode.js:26-30 | As written, `a === b` holds only because both calls return `null`, although a 'seven1' instance was stored. |
| Singleton.StandardDemoCorrected | singleTon/singleMode.js:26-30 | With the corrected `getInstance`, `a` and `b` are the same instance, named 'seven1'. |
| Singleton.DivProxy.Call | singleTon/singleMode.js:54-62 | The first call creates the `CreateDiv` from its html and runs `init` once. Later calls return that instance, ignore their argument and log nothing. |
| Singleton.ProxyDemo | singleTon/singleMode.js:64-68 | `a === b`, the shared instance keeps 'seven1', and `init` logged exactly once. |

## Left out

- Console output, alerts and the DOM are not modelled.
  - The printed values appear as results of the demo members instead.
  - The registration form demo of the validator (strategy/srategyMode.js:138-165) is left out; it is page scaffolding around `add` and `start`.
  - The checkbox click binding (proxy/proxyMode.js:106-114) is left out.
  - `CreateDiv.init` only appends its html to a log.
- The two-second `setTimeout` of the batching proxy is an explicit `Flush` step.
  - Which clicks fall within one timer window is decided by the caller.
- The upload getters `getActiveUploadObj`, `getFlashUploadObj`, `getFormUpladObj` and `getH5UploadObj` depend on the browser (ActiveX, Flash, jQuery).
  - Their results are parameters of `SelectUploadObj`.
  - `getFormUpladObj` as written (iterator/iteratorMode.js:104-105) binds the name `let` with `const`, which is an early SyntaxError. As written the whole file fails to parse, so none of its functions is ever defined. The model treats the file as if that declaration were fixed (`const str = ...`).
- Iterators.SelectUploadObj: every argument is assumed to be a function. A falsy argument, which would end the source's loop early, is not modelled.
- Callbacks do not run code.
  - A callback cannot re-enter the bus (listen, remove or trigger while a dispatch is running).
  - What a callback returns is a fixed `reply` function of the call.
  - The `this` binding that `apply` passes is not modelled.
- `installEvent`, which copies the `Events` methods onto another object so that they share one `clientList`, is not modelled. Each `Bus` is one independent instance.
- The `Events.trigger` loop `fn = fns[i++]` stops at a falsy element. Callbacks are never falsy here, so the loop runs over the whole list.
- Numbers are mathematical integers.
  - Floating point, `NaN` arithmetic and the `*`/`+` coercion of non-number arguments to `mult` and `plus` are not modelled.
  - Strategy.NumberOf: `Number()` is modelled only on decimal digit strings. Signs, spaces, fractions and hexadecimal are read as `NaN`, so such a `minLength` argument never fails.
- Proxy.KeyInjective holds for numeric arguments only. With string arguments the source's key `join(',')` can collide.
- Every object used as a table is a map, or an explicit name set, holding only its own keys. This covers `clientList`, `createProxyFactory`'s `cache`, `namespaceCache` and both `strategies` objects. Keys inherited from `Object.prototype` (`'toString'`, `'valueOf'`, `'constructor'`, ...) are not modelled: in the source `'toString' in cache` is true and `clientList['toString']` is a function.
- Strategy.TableBonus: a level inherited from `Object.prototype`, such as `calculateBonus('toString', 1)`, calls the inherited function in the source and does not throw. The model throws for it.
- Strategy.UnknownRule: stated only for names outside `ObjectPrototypeNames`. A rule named after an inherited property (`'toString'`) calls that property in the source instead of throwing, and the model gives it no meaning (`ApplyStrategy` throws).
- Strategy.SecondRunLooksUpValue: stated only for field values outside `ObjectPrototypeNames`, for the same reason.
- Iterators.Iterator: `next`, `isDone`, `getCurItem` and `getLen` are closures in the source and methods here. `isDone` is true only once the cursor is past `length`, which the walk in `CompareFrom` reproduces.
- Strategy.Validator: each queued closure is a `Check` value held in the validator's sequence.
  - Its `strategyAry` is reachable only through that check, as in the closure.
  - The field object it reads is shared.
- PubSub.LegacyRemoveLoop is cut off by fuel, because the loop it models does not terminate. `Bus.Remove` uses the corrected loop; see Findings.

## Findings

| source | as written | input that shows it | evidently intended | confidence | as-written member | corrected member |
|---|---|---|---|---|---|---|
| observer/pubSubMode.js:90-92 | The by-callback removal starts at `fns.length - 1` with the guard `i > 0` and steps `i++`, so the index only grows. | `remove('k', f)` after listening two callbacks on 'k': the loop never ends. With one callback the loop is skipped and `f` stays. | A descending loop down to index 0 that splices out every element `=== fn`. | high; not executed | PubSub.LegacyRemoveDiverges | PubSub.Bus.Remove |
| singleTon/singleMode.js:16-24 | `getInstance` stores the instance on `this.instance` but returns the closure variable `instance`, which stays `null`. | `getInstance('seven1')` returns `null`; `a === b` in the demo only compares two nulls. | Return the stored instance, so that both calls give the one 'seven1' object. | high; not executed | Singleton.StandardDemo | Singleton.SingleTonFactory.GetInstanceCorrected |
