# EventProxy, modelled in Dafny

EventProxy is a small JavaScript library that turns callback-driven code into
events. Listeners are bound to event names. `trigger` (alias `emit`) calls them
in binding order, and afterwards calls the listeners bound to a wildcard
name with the event name prepended. Several combinators are built on top:

- `once`, `all`/`assign`, `tail`, `after` and `group`, `any`, `not`;
- the error helpers `fail`, `throw`, `done` and `create`.

The repository ships three versions, and this project models each one in its own group of modules:

| version | file | modules |
|---|---|---|
| current library | `lib/eventproxy.js` (wildcard `'__all__'`) | `LibModel`, `LibDispatch`, `LibFrame`, `LibAssign`, `LibAfter`, `LibAny`, `LibErrors`, `LibProxy` |
| older browser/Node version | `eventproxy.js` (wildcard `'all'`, `assign` with a `"persistent"` mode) | `OldModel`, `OldDispatch`, `OldAssign`, `OldProxy` |
| minimal emitter | `event.emitter.js` (lazily created map, an `assign` that never unbinds) | `EmitterModel`, `EmitterProps`, `EmitterProxy` |

`Common` holds the values, event keys, argument lists and firing traces that all three share. `Slots` holds the operations on a listener array whose slots are a listener or null: null every match, null the first match, splice, and the live view.

Each version has three layers:

- **A specification layer** (`*Model`). This is a state datatype plus pure functions, one per operation of the source.
  - A listener array is a sequence of `Option<Listener>` slots, where `None` is the `null` that `unbind` leaves behind.
  - `trigger` is written as the source's `for (i = 0, l = list.length; i < l; i++)` loop, as a recursive function over `i` and `l`. It splices out null slots and steps `i` and `l` back, exactly as the source does.
  - User callbacks are identified by a number. Calling one appends a `Call` record to a log.
  - The library's own closures (the `once` wrapper, `_assign`'s record listener and `_all`, `after`'s counter, `any`'s forwarder, `fail`'s handler) are constructors of a `Listener` datatype, and the dispatcher interprets them.
- **An imperative layer** (`*Proxy`). This is a class `EventProxy` whose fields are the source object's fields (`_callbacks`, `_fired`, `_after`, and the closure state of each `assign`).
  - Its methods carry the source's loops: the dispatch loop with its splice, the unbind search loop, and the binding and collecting loops of `assign`.
  - Each method is proved to leave the object in the state the specification function computes from the old state.
- **The properties** (`*Dispatch`, `*Assign`, `*Props`, `LibAfter`, `LibAny`, `LibErrors`). These are lemmas about whole runs: a proxy set up by one call, followed by ANY sequence of triggers `t`. Each such lemma states the exact log of callback calls as a function of `t`.

In `lib/eventproxy.js` the listener arrays live on the heap. `fail`'s handler calls `unbind()`, which replaces `_callbacks` in the middle of a trigger, and the running trigger keeps walking the old map and the old arrays. The `Lib*` model therefore keeps a store of arrays (`lists`) and a map from keys to indices into it (`callbacks`).

Where this description and the code could be read differently, the model follows the code:

- **`removeListener` in `lib/eventproxy.js`.** It nulls EVERY slot equal to the callback: its loop has no `break`. Only the two older versions null the first match and stop.
- **`any` with a single event name.** It does not call back once, as documented. The synthetic event name is then the event name itself (see Findings).

One exception goes the other way. In `lib/eventproxy.js` the reserved names (the wildcard `'__all__'`, `after`'s group signal `e + '_group'` and `any`'s joined name) are strings in the same map as every event name. The model keeps them under keys of their own, so the collisions the source allows are not modelled; "## Left out" lists them.

## Model

| member | source | states |
|---|---|---|
| `Common.Put` | lib/eventproxy.js:412 | a JavaScript array element assignment grows the array to cover the index, leaves holes as undefined and keeps every other element |
| `Slots.Splice` | lib/eventproxy.js:171-174 | `list.splice(i, 1)` removes exactly slot `i`, and an index past the end removes nothing |
| `Slots.SpliceLive` | lib/eventproxy.js:169-181 | splicing a null slot during the dispatch loop loses no live listener |
| `Slots.LiveAppend` | lib/eventproxy.js:64-69 | the live listeners of a concatenation are those of its parts, in order |
| `Slots.NullAll` | lib/eventproxy.js:113-122 | `removeListener(ev, cb)` nulls every slot holding `cb`, keeps the length and every other slot, and leaves no slot holding `cb` |
| `Slots.NullFirst` | eventproxy.js:52-59 | the search loop of `unbind(ev, cb)` nulls the first slot holding `cb` and no other, and changes nothing when no slot holds it |
| `Slots.NullFirstCount` | event.emitter.js:32-39 | first-match unbinding removes exactly one of several equal bindings, so that the duplicates stay bound |
| `Slots.NullAllCount` | lib/eventproxy.js:113-122 | after `removeListener(ev, cb)` no binding of `cb` is left on `ev` |
| `LibModel.AddListener` | lib/eventproxy.js:64-69 | `addListener` appends the callback to the array of its event, creating the array when absent, and changes no other array |
| `LibModel.Headbind` | lib/eventproxy.js:88-93 | `headbind` puts the callback at the head of the array of its event, and changes no other array |
| `LibModel.RemoveListener` | lib/eventproxy.js:103-126 | a missing or falsy name drops the whole map; a name alone empties that name's array; a name and a callback null every matching slot; no other array changes |
| `LibModel.Once` | lib/eventproxy.js:204-212 | `once` appends a fresh self-unbinding wrapper of the callback to the array of its event, and changes no other array |
| `LibModel.RecordFiring` | lib/eventproxy.js:268-276 | `_assign`'s per-event listener stores the payload under its key in `_fired` and changes nothing but `_fired` and the closure's flags |
| `LibModel.FiredData` | lib/eventproxy.js:290-293 | `_all`'s loop yields the stored payload of each listed event, in listed order |
| `LibProxy.EventProxy.constructor` | lib/eventproxy.js:43-49 | a new proxy has no listener, nothing fired and nothing logged |
| `LibProxy.EventProxy.AddListener` | lib/eventproxy.js:64-69 | the method pushes onto the heap array of the event, as `LibModel.AddListener` specifies |
| `LibProxy.EventProxy.Headbind` | lib/eventproxy.js:88-93 | the method unshifts onto the heap array, as `LibModel.Headbind` specifies |
| `LibProxy.EventProxy.RemoveListener` | lib/eventproxy.js:103-126 | the loop nulling every match leaves the state `LibModel.RemoveListener` specifies |
| `LibProxy.EventProxy.RemoveAllListeners` | lib/eventproxy.js:137-139 | `removeAllListeners(ev)` is `unbind(ev)` without a callback |
| `LibProxy.EventProxy.BindForAll` | lib/eventproxy.js:144-146 | `bindForAll` binds on the wildcard key |
| `LibProxy.EventProxy.UnbindForAll` | lib/eventproxy.js:151-153 | `unbindForAll` nulls the callback's slots on the wildcard key |
| `LibProxy.EventProxy.Dispatch` | lib/eventproxy.js:162-191 | the two phases of `trigger` over the map as it was on entry: first the event's array, then the wildcard's |
| `LibProxy.EventProxy.RunPass` | lib/eventproxy.js:169-186 | the dispatch loop over one array ends in the state the specification's pass computes |
| `LibProxy.EventProxy.PassStep` | lib/eventproxy.js:170-184 | one turn of the loop splices out a null slot (stepping `i` and `l` back) or calls a live one; the bound `l - i` decreases and the remaining pass is unchanged |
| `LibProxy.EventProxy.Invoke` | lib/eventproxy.js:183 | calling a listener slot has the effect the specification's interpreter gives it |
| `LibProxy.EventProxy.RecordFiring` | lib/eventproxy.js:268-276 | the record listener's body, as `LibModel.RecordFiring` specifies |
| `LibProxy.EventProxy.CheckAll` | lib/eventproxy.js:284-300 | `_all`, with its collecting loop: it returns while a listed event is missing or the firing is unflagged, otherwise it unbinds itself when one-shot and calls back |
| `LibProxy.EventProxy.CountFiring` | lib/eventproxy.js:400-419 | `after`'s wildcard listener |
| `LibProxy.EventProxy.CountEvent` | lib/eventproxy.js:401-409 | the counted event's branch of `after`'s listener: one payload more, and the callback after it unbinds itself at the threshold |
| `LibProxy.EventProxy.CountGroupItem` | lib/eventproxy.js:410-418 | the group signal's branch: the result stored at its index, and the callback with all results at the threshold |
| `LibProxy.EventProxy.Trigger` | lib/eventproxy.js:162-191 | `trigger(name, args...)` keeps the registry well formed and leaves the state `LibModel.Trigger` specifies |
| `LibProxy.EventProxy.Once` | lib/eventproxy.js:204-212 | `once` binds its wrapper, as `LibModel.Once` specifies |
| `LibProxy.EventProxy.Immediate` | lib/eventproxy.js:237-241 | `immediate` binds and then triggers the event with the data |
| `LibProxy.EventProxy.Assign` | lib/eventproxy.js:247-263 | `_assign`'s argument checks: fewer than three arguments, or a callback that is not a function, binds nothing |
| `LibProxy.EventProxy.Arm` | lib/eventproxy.js:247-301 | the rest of `_assign`: new closure state, the binding loop, then `bindForAll(_all)` |
| `LibProxy.EventProxy.NewAssign` | lib/eventproxy.js:250-251 | the closure variables `times` and `flag` of one `_assign` call start at zero and empty |
| `LibProxy.EventProxy.BindRecordsLoop` | lib/eventproxy.js:279-282 | the binding loop binds one record listener per listed event, in order |
| `LibProxy.EventProxy.BindRecord` | lib/eventproxy.js:267-277 | `bind(key)` uses `once` in one-shot mode and `bind` otherwise |
| `LibProxy.EventProxy.All` | lib/eventproxy.js:317-322 | `all` is `_assign` in one-shot mode |
| `LibProxy.EventProxy.Tail` | lib/eventproxy.js:365-370 | `tail` is `_assign` in persistent mode |
| `LibProxy.EventProxy.After` | lib/eventproxy.js:386-422 | `after` calls back at once for zero times; otherwise it resets the group record and binds its counter on the wildcard |
| `LibProxy.EventProxy.Group` | lib/eventproxy.js:440-456 | `group` takes the next index of the group record, or fails where reading the record of an event without `after` throws |
| `LibProxy.EventProxy.CallGroup` | lib/eventproxy.js:445-455 | the function `group` returns emits 'error' on an error, and otherwise emits the group signal with its index and result |
| `LibProxy.EventProxy.Any` | lib/eventproxy.js:464-483 | `any` binds `once` on the synthetic key, then one forwarder per listed event |
| `LibProxy.EventProxy.Not` | lib/eventproxy.js:490-498 | `not` binds on the wildcard a listener that forwards the payload of other events |
| `LibProxy.EventProxy.CallDone` | lib/eventproxy.js:536-569 | the function `done` returns, as `LibModel.CallDone` specifies |
| `LibProxy.EventProxy.Fail` | lib/eventproxy.js:332-342 | `fail` binds with `once` on 'error' a handler that unbinds everything and then calls back |
| `LibProxy.EventProxy.Throw` | lib/eventproxy.js:347-350 | `throw(args...)` is `emit('error', args...)` |
| `LibProxy.EventProxy.Create` | lib/eventproxy.js:601-614 | `EventProxy.create` returns a fresh proxy in the state `LibModel.Create` specifies |
| `LibDispatch.LiveAfterPass` | lib/eventproxy.js:169-186 | after a dispatch pass the live listeners are exactly the persistent ones from before (fired `once` wrappers gone), in the same order |
| `LibDispatch.DispatchPlain` | lib/eventproxy.js:162-191 | a trigger calls the event's listeners with the arguments in binding order, then the wildcard's with the event name first; only those two arrays change, and only by the pass |
| `LibDispatch.PassPhase` | lib/eventproxy.js:167-188 | one phase of the trigger changes only the array it walks and appends only that array's calls to the log |
| `LibDispatch.OnceAtMostOnce` | lib/eventproxy.js:204-212 | `once(e, cb)` followed by any triggers calls `cb` exactly once, with the arguments of the first firing of `e`, if `e` fired, and never otherwise, the empty name included |
| `LibDispatch.OnceEmptyNameClears` | lib/eventproxy.js:204-212 | with the empty name, `once('', cb)` still calls `cb` once with the first firing's arguments, and the wrapper's `unbind('', wrapper)` then leaves nothing bound on any event, because `unbind` treats the falsy name as 'remove all' (lib/eventproxy.js lines 105-107) |
| `LibDispatch.BindEveryTime` | lib/eventproxy.js:64-69 | `bind(e, cb)` followed by any triggers calls `cb` once per firing of `e`, with that firing's arguments, in order |
| `LibDispatch.ImmediateThenEveryTime` | lib/eventproxy.js:237-241 | `immediate(e, cb, data)` followed by any triggers calls `cb` with `data` first, then once per firing of `e` with its arguments, in order |
| `LibDispatch.UnbindThenTrigger` | lib/eventproxy.js:109-111 | after `unbind(e)` no later trigger calls a callback that was bound on `e` |
| `LibDispatch.RunUnbound` | lib/eventproxy.js:162-191 | on a proxy with nothing bound, triggers change nothing |
| `LibFrame.TriggerValid` | lib/eventproxy.js:162-191 | a trigger keeps every bound key pointing at an allocated array |
| `LibAssign.AllCallsBackOnce` | lib/eventproxy.js:247-322 | `all(events..., cb)` followed by any triggers calls `cb` exactly once, with each listed event's FIRST payload in listed order, if every listed event fired, and never otherwise |
| `LibAssign.TailCallsBackEveryTime` | lib/eventproxy.js:365-370 | `tail(events..., cb)` followed by any triggers calls `cb` on every firing of a listed event from the moment all of them have fired, with each one's LATEST payload |
| `LibAssign.TailQuietUntilCovered` | lib/eventproxy.js:284-287 | `tail(events..., cb)` followed by a trace that has not fired every listed event has not called `cb` |
| `LibAssign.TailCallsAgain` | lib/eventproxy.js:268-299 | after `tail(events..., cb)`, once every listed event has fired, each further firing of a listed event adds exactly one call to the run's log, with that event's new payload and the others unchanged |
| `LibAssign.AssignRejects` | lib/eventproxy.js:254-263 | `_assign` with too few arguments or a callback that is not a function binds nothing, so on a fresh proxy no later trigger calls anything or changes the state |
| `LibAssign.SetupShape` | lib/eventproxy.js:265-301 | `_assign` on a fresh proxy leaves one record listener per listed event, `_all` alone on the wildcard, and nothing fired |
| `LibAssign.BindRecordsFrame` | lib/eventproxy.js:279-282 | the binding loop changes only the arrays of the listed keys |
| `LibAfter.AfterCallsBackOnce` | lib/eventproxy.js:386-422 | `after(e, n, cb)` followed by any triggers calls `cb` once, with an empty array at once for `n` 0, and otherwise when `e` has fired `n` times (once for negative `n`), with the first payloads of those firings in firing order |
| `LibAfter.GroupsInCallOrder` | lib/eventproxy.js:440-444 | successive `group(e)` calls take consecutive indices in call order; without a prior `after(e, ...)` the first call fails |
| `LibAfter.GroupResultsInCallOrder` | lib/eventproxy.js:410-456 | after `after(e, n, cb)` and `n` calls of `group(e)`, however the returned functions complete, `cb` is called once with the results in the order of the `group` calls |
| `LibAny.AnyCallsBackOnce` | lib/eventproxy.js:464-483 | `any(events..., cb)` with a synthetic key distinct from the listed ones, followed by any triggers: `cb` runs exactly once with `{data, eventName}` of the first firing of a listed event, never otherwise, and the forwarding never nests deeper than one level |
| `LibAny.AnyAsWrittenLoops` | lib/eventproxy.js:464-483 | `any(e, cb)` as written, with one event, then a trigger of `e`: the forwarder re-triggers `e` at every nesting level, so the recursion has no bound |
| `LibAny.AnyAsWrittenFirst` | lib/eventproxy.js:471-477 | on that first trigger the `once` wrapper calls `cb` with the raw payload before the forwarder runs |
| `LibAny.NotCallsBackOnOthers` | lib/eventproxy.js:490-498 | `not(e, cb)` followed by any triggers calls `cb` with the payload of every firing of another event, in order |
| `LibAny.NotLogCount` | lib/eventproxy.js:493-497 | `not` makes as many calls as there are firings of other events |
| `LibErrors.FailUnbindsEverything` | lib/eventproxy.js:332-350 | `fail(cb)` then `throw(args...)`: `cb` gets every argument; wildcard listeners bound before still run in that trigger; afterwards nothing is bound, and no later trigger calls anything |
| `LibErrors.DoneErrorReachesFail` | lib/eventproxy.js:536-540 | the function `done` returns, called with a truthy error, emits 'error' with all its arguments, so that a `fail` handler receives them |
| `LibErrors.DoneEmits` | lib/eventproxy.js:543-559 | `done(name)` without error emits `name` with the arguments after the error; `done(name, fn)` emits what `fn` returned from them |
| `LibErrors.DoneCallsFunction` | lib/eventproxy.js:562-568 | `done(fn)` without error calls `fn` with the arguments after the error, and with one undefined argument when there are none |
| `LibErrors.CreateShape` | lib/eventproxy.js:601-614 | `create(events..., cb, err)` binds `err` through `fail` and `all(events..., cb)` beside it |
| `LibErrors.CreateErrorStopsAll` | lib/eventproxy.js:601-614 | after `create(events..., cb, err)`, an 'error' before `all` completes calls `err` once, and nothing fires afterwards whatever is triggered |
| `LibErrors.CreateWithoutHandler` | lib/eventproxy.js:604-611 | without a trailing error handler `create(events..., cb)` behaves as `all(events..., cb)` |
| `OldModel.Bind` | eventproxy.js:31-35 | `bind` appends the callback to the array of its event, creating it when absent, and changes no other array |
| `OldModel.Unbind` | eventproxy.js:44-63 | a falsy name drops the whole map; a name alone empties that name's array; a name and a callback null the first matching slot only; no other array changes |
| `OldModel.RemoveAllListeners` | eventproxy.js:70-72 | `removeAllListeners(ev)` empties the array of `ev`, or drops the map for a falsy name |
| `OldModel.Once` | eventproxy.js:106-113 | `once` appends a fresh self-unbinding wrapper, and changes no other array |
| `OldModel.ParseAssign` | eventproxy.js:124-151 | `assign` with a function last is one-shot (at least two arguments); with "persistent" last and a function before it, it is persistent (at least three); anything else binds nothing |
| `OldModel.RecordData` | eventproxy.js:154-161 | the record listener stores its whole argument list under its key in `_fired` |
| `OldModel.Collected` | eventproxy.js:168-173 | `all`'s loop yields the stored argument list of every listed event, in listed order, once each one has some |
| `OldModel.TriggerValid` | eventproxy.js:81-99 | a trigger keeps every bound key pointing at an allocated array |
| `OldProxy.EventProxy.constructor` | eventproxy.js:21-24 | a new proxy has no listener and nothing fired |
| `OldProxy.EventProxy.Bind` | eventproxy.js:31-35 | the method pushes onto the heap array, as `OldModel.Bind` specifies |
| `OldProxy.EventProxy.Unbind` | eventproxy.js:44-63 | the search loop with its `break` leaves the state `OldModel.Unbind` specifies |
| `OldProxy.EventProxy.RemoveAllListeners` | eventproxy.js:70-72 | as `OldModel.RemoveAllListeners` specifies |
| `OldProxy.EventProxy.Trigger` | eventproxy.js:81-99 | `trigger` walks the name's array and then that of 'all', as `OldModel.Trigger` specifies |
| `OldProxy.EventProxy.RunPass` | eventproxy.js:88-95 | the dispatch loop over one array ends in the state the specification's pass computes |
| `OldProxy.EventProxy.PassStep` | eventproxy.js:89-94 | one turn of the loop splices out a null slot or calls a live one; the bound decreases and the remaining pass is unchanged |
| `OldProxy.EventProxy.Invoke` | eventproxy.js:93 | calling a listener slot has the effect the specification's interpreter gives it |
| `OldProxy.EventProxy.RecordData` | eventproxy.js:155-160 | the record listener's body, as `OldModel.RecordData` specifies |
| `OldProxy.EventProxy.WatchAll` | eventproxy.js:165-184 | `all` with its collecting loop, its call, and its re-binding loop or self-unbind |
| `OldProxy.EventProxy.CollectData` | eventproxy.js:168-173 | `all`'s collecting loop yields what `OldModel.Collected` specifies: each stored argument list of the listed events, in listed order |
| `OldProxy.EventProxy.Once` | eventproxy.js:106-113 | `once` binds its wrapper, as `OldModel.Once` specifies |
| `OldProxy.EventProxy.BindRecordsLoop` | eventproxy.js:162-164 | the binding loop binds one record wrapper per listed event |
| `OldProxy.EventProxy.Assign` | eventproxy.js:123-187 | `assign`'s argument checks, then the new closure state, as `OldModel.Assign` specifies |
| `OldProxy.EventProxy.Arm` | eventproxy.js:152-186 | the rest of `assign`: the binding loop, then `bind("all", all)` |
| `OldProxy.EventProxy.NewAssign` | eventproxy.js:124-126 | `times = 0` and the other closure variables of one `assign` call |
| `OldDispatch.LiveAfterPass` | eventproxy.js:88-95 | after a dispatch pass the live listeners are exactly the persistent ones from before, in the same order |
| `OldDispatch.TriggerPlain` | eventproxy.js:81-99 | a trigger calls the name's listeners with the arguments in order, then those of 'all' with the name first; only those two arrays change |
| `OldDispatch.TriggerWildcardName` | eventproxy.js:85-87 | `trigger('all', ...)` walks the array of 'all' twice: first with the arguments, then with the name first |
| `OldDispatch.WildcardNameCallsTwice` | eventproxy.js:85-93 | a callback bound on 'all' is called twice by `trigger('all')`, and once, with the name first, by any other trigger |
| `OldDispatch.UnbindFirstOnly` | eventproxy.js:54-59 | `unbind(ev, cb)` removes one binding of `cb` from `ev` and only one, and no other array changes |
| `OldDispatch.BindTwiceUnbindOnce` | eventproxy.js:31-59 | a callback bound twice and unbound once stays bound in the later slot |
| `OldDispatch.OnceAtMostOnce` | eventproxy.js:106-113 | `once(e, cb)` followed by any triggers calls `cb` exactly once, with the first firing's arguments, if `e` fired, and never otherwise, the empty name included |
| `OldDispatch.OnceEmptyNameClears` | eventproxy.js:106-113 | with the empty name, `once('', cb)` still calls `cb` once with the first firing's arguments, and the wrapper's `unbind('', callee)` then leaves nothing bound on any event, because `unbind` treats the falsy name as 'remove all' (eventproxy.js lines 46-47) |
| `OldDispatch.BindEveryTime` | eventproxy.js:31-35 | `bind(e, cb)` followed by any triggers calls `cb` once per firing of `e`, in order |
| `OldAssign.SetupWaiting` | eventproxy.js:123-187 | `assign` on a fresh proxy arms one record wrapper per listed event and binds `all` on 'all' |
| `OldAssign.OneShotCallsBackOnce` | eventproxy.js:123-187 | one-shot `assign(events..., cb)` followed by any triggers calls `cb` exactly once, with the first argument list of each listed event in listed order, if all fired, and never otherwise |
| `OldAssign.PersistentRounds` | eventproxy.js:136-180 | persistent `assign` calls `cb` at the end of every round (a round ends when every listed event has fired in it), with the first argument lists of that round |
| `OldAssign.RoundDataSnoc` | eventproxy.js:154-160 | a round's data depends only on each event's first firing in the round |
| `OldAssign.WatchFires` | eventproxy.js:165-184 | once a round is complete, `all` calls back with the round's data, then re-arms every listed event and resets the count (persistent) or unbinds itself (one-shot) |
| `OldAssign.SpentTrigger` | eventproxy.js:181-183 | after a one-shot `assign` has called back, later triggers call nothing |
| `EmitterModel.Bind` | event.emitter.js:14-19 | `bind` creates the map and the array when absent, appends the callback, and changes no other array |
| `EmitterModel.Unbind` | event.emitter.js:24-43 | a falsy name installs an empty map; without a map nothing happens; a name alone empties its array; a name and a callback null the first match only |
| `EmitterModel.Trigger` | event.emitter.js:48-66 | without a map `trigger` does nothing; it never binds or unbinds a key |
| `EmitterModel.Ready` | event.emitter.js:99-107 | the watcher's readiness loop yields the stored data of every listed event in listed order exactly when all are ready, and nothing as soon as one is not |
| `EmitterModel.Mark` | event.emitter.js:88-93 | the record listener stores its first argument as ready data under its key |
| `EmitterModel.Assign` | event.emitter.js:81-97 | `assign` takes its last argument as the callback and every earlier one as an event, with fresh empty dependencies |
| `EmitterProxy.EventProxy.constructor` | event.emitter.js:10-11 | a new proxy has no map at all |
| `EmitterProxy.EventProxy.Bind` | event.emitter.js:14-19 | as `EmitterModel.Bind` specifies |
| `EmitterProxy.EventProxy.Unbind` | event.emitter.js:24-43 | the search loop with its `break`, as `EmitterModel.Unbind` specifies |
| `EmitterProxy.EventProxy.Trigger` | event.emitter.js:48-66 | as `EmitterModel.Trigger` specifies |
| `EmitterProxy.EventProxy.RunPass` | event.emitter.js:55-62 | the dispatch loop over one array ends in the state the specification's pass computes |
| `EmitterProxy.EventProxy.PassStep` | event.emitter.js:56-61 | one turn of the loop splices out a null slot or calls a live one; the bound decreases and the remaining pass is unchanged |
| `EmitterProxy.EventProxy.Invoke` | event.emitter.js:60 | calling a listener slot has the effect the specification's interpreter gives it |
| `EmitterProxy.EventProxy.Mark` | event.emitter.js:89-92 | the record listener's body |
| `EmitterProxy.EventProxy.WatchAll` | event.emitter.js:98-111 | the watcher's loop with `fire = false; break`, then the callback |
| `EmitterProxy.EventProxy.Assign` | event.emitter.js:81-112 | `assign` splits off the callback, binds each event, then 'all' |
| `EmitterProxy.EventProxy.BindRecordsLoop` | event.emitter.js:95-97 | the binding loop binds one record listener per listed event |
| `EmitterProps.CompactLive` | event.emitter.js:55-62 | the dispatch pass over plain callbacks keeps exactly the live ones, in order, and leaves no null slot |
| `EmitterProps.CompactCalls` | event.emitter.js:55-62 | compacting changes no call, and is idempotent |
| `EmitterProps.TriggerUsers` | event.emitter.js:48-66 | a trigger calls the name's callbacks with the arguments in order, then those of 'all' with the name first; both arrays lose their null slots and nothing else changes |
| `EmitterProps.TriggerAllTwice` | event.emitter.js:52-60 | `trigger('all', ...)` calls every callback of 'all' twice |
| `EmitterProps.UnbindFirstOnly` | event.emitter.js:34-39 | `unbind(ev, cb)` removes one binding of `cb` and only one, and no other array changes |
| `EmitterProps.ReadyLatest` | event.emitter.js:99-107 | the readiness loop succeeds exactly when every listed event has fired, with each one's latest first argument |
| `EmitterProps.AssignFiresOnEveryTrigger` | event.emitter.js:81-112 | `assign(events..., cb)` followed by any triggers calls `cb` on every trigger once every listed event has fired, with the latest data, and twice on a trigger of 'all' |
| `EmitterProps.KeepsFiring` | event.emitter.js:98-111 | the watcher is never unbound: after `assign(events..., cb)`, once every listed event has fired, one more trigger of any name adds a call with the latest data to the run's log, and two for 'all' |

## Left out

- `emitLater`, `doneLater` and the `later` scheduler (lib/eventproxy.js:214-233, 576-584) are left out. They only defer a call to a later turn of the host's event loop, and that loop is not modelled.
- Exceptions thrown by JavaScript itself are not modelled. Examples are calling a callback that is not a function, or `group` reading `_after[group]` of an event without `after`. `group` returns `None` where the source throws, and the state is unchanged.
- User callbacks are opaque. They are identified by a number, and calling one appends it and its arguments to a log. User callbacks that re-enter the proxy (bind, unbind or trigger from inside a callback) are not modelled. The library's own closures, which do re-enter, are modelled in full.
- Debug logging, the module wrappers (AMD, CommonJS, `window`), `server.js` and `index.d.ts` are left out: they have no effect on the proxy's state.
- `LibModel.Dispatch` reads the wildcard's array from the map `trigger` saw on entry. The source reads it again from the same object after the first phase. The two agree, because no listener of the library reassigns an entry of that object; `fail`'s `unbind()` replaces the whole object, which the running trigger no longer sees.
- The run lemmas (`AllCallsBackOnce`, `OneShotCallsBackOnce`, `AssignFiresOnEveryTrigger` and their kind) assume distinct listed names that are neither empty nor the wildcard's name (`'__all__'`, `LibModel.AllEvent`, in `lib/eventproxy.js`; `'all'` in the older versions). With repeated names the source binds one listener per occurrence, and those lemmas do not describe that case.
- `LibProxy.EventProxy.Trigger` and `LibModel.Trigger` dispatch on `Ev(name)`, and the wildcard listeners sit under the key `Wildcard`, not under the name `'__all__'`. Binding the name `'__all__'` directly therefore does not reach the wildcard in the model, although the source documents that it does (lib/eventproxy.js:53). A trigger of `'__all__'` runs the wildcard array once in the model. The source runs it twice, first with the arguments alone and then with `'__all__'` in front (lib/eventproxy.js:167-168). For traces that fire `'__all__'`, the run lemmas describe the model, not the source.
- `LibModel.CallGroup`, `LibModel.CountFiring` and `LibProxy.EventProxy.CountFiring` use a key of their own for `group`'s signal (`GroupSignal(e)`), not the string `e + '_group'`. A program's own `emit('f_group', {index: 0, result: r})` is therefore not counted by `after('f', ...)` in the model, as it is at lib/eventproxy.js:410-418.
- `LibProxy.EventProxy.Any` and `LibModel.Any` bind the `once` listener on the key `AnyOf(events)`, not on the string `events.join('_')`. This is the corrected design from "## Findings": no event name can equal that key. So after `any('a', 'b', cb)`, a program's own `emit('a_b', 1)` does not reach `cb` in the model, as it does in the source. `LibAny.AnyAsWritten` binds on the joined name, as the source does.
- `LibModel.Assign`, `LibModel.All`, `LibModel.Tail` and `LibModel.Create` take the arguments already flattened. The source first applies `CONCAT.apply([], arguments)` (lib/eventproxy.js:318, 366, 603), so a caller may pass the event names as one array; the model starts after that step.
- The older version's guards for a missing `_callbacks` object (eventproxy.js:48 and 84) are not modelled: its constructor always sets `_callbacks`, and nothing in that file sets it to anything but an object.
- `EmitterModel.Assign` and `EmitterProxy.EventProxy.Assign` require a function as the last argument. With anything else the source still binds its listeners, and throws from inside the watcher later, which this model does not capture.
- Functions used as event names become their own key (`FnKey`). JavaScript would convert them to their source text, and two functions with the same text would then share a key; the model does not capture that collision.
- `any`'s nested trigger carries a depth. A forwarder reached below the top level sets an `overflow` flag instead of recursing, so the as-written non-termination shows as that flag, not as a stack overflow.
- Payloads (`data`) are opaque values. Only their identity and order are tracked.

## Findings

| source | as written | input that shows it | evidently intended | confidence | as-written member | corrected member |
|---|---|---|---|---|---|---|
| lib/eventproxy.js:464-483 | `any` binds `once` on `events.join('_')` and a forwarder on each listed event that re-triggers that name | `any('a', cb)` then `emit('a', 1)`: the joined name is `'a'` itself, so the forwarder re-triggers `'a'`, which runs the forwarder again without end, after `cb` has been called with the raw payload `1` instead of `{data, eventName}` | `cb` called once with `{data: 1, eventName: 'a'}`, which needs a synthetic name that no listed event can have | not executed | `LibAny.AnyAsWrittenLoops` | `LibAny.AnyCallsBackOnce` |
