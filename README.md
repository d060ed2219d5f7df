# AudioWorklet polyfill — worker runtime, modelled in Dafny

This project models the worker side of an AudioWorklet polyfill. A plain Web
Worker stands in for the audio worklet. It keeps four pieces of state and
logic:

- a **registry** of processor classes, where the first registration of a name wins;
- a **construction protocol** that reports its errors twice: first as a
  `state: "error"` notice to the host, then as a thrown error;
- a **ping-pong buffer slicer** that gives every slot its own zero-copy views
  `[i*buflen, i*buflen + buflen)` of the host's backing arrays;
- an **append-only processor table** and the `import` / `createProcessor` /
  `process` message handlers.

Two example files are modelled as well. The first is the example processor:
a tick counter, a stop latch and an in-place channel copy. The second is the
command-history cursor of the console utility.

Files:

- `wrappers.dfy` holds `Option` and `Result`, for `undefined` and for thrown errors.
- `slicing.dfy` is module `Slicing`: the `createBus` helper, the slot loop of
  `createProcessor`, and what they guarantee (exact, disjoint and gap-free slots).
- `audioworker.dfy` is module `AudioWorker`: the registry, `constructOnWorker`,
  and the class `WorkerScope`. That class holds `ctors`, `AWGS.processors`, the
  outbox of posted messages and a log of `process` calls. Its invariant says:
  - every registered name was announced exactly once, with its stored descriptor;
  - table ids are dense;
  - the k-th `running` notice announced entry k;
  - every logged call used a real slot of a real entry.
- `audioprocessor.dfy` is module `AudioProcessor`: the example processor as a class.
- `console.dfy` is module `ConsoleHistory`: the history cursor as a class,
  plus `init`'s option normalisation.

The `createProcessor` handler reads two of its inputs from the message's
`args` directly, and the model does the same:

- the bus descriptor is `args.bus`;
- the sample rate is `args.sampleRate`.

A missing `samplesPerBuffer` makes every slice bound `NaN`, which `subarray`
reads as 0. The model therefore treats it as a block length of 0. A missing
`bufferCount` makes the slot loop run zero times, which `bufferCount == 0`
stands for. A `process` message whose slot index has no slot throws a
TypeError before the processor runs. The model returns this as `SlotMissing`,
and nothing changes.

## Model

| member | source | states |
|---|---|---|
| `AudioWorker.WorkerScope.constructor` | audioworker.js:7-13 | A fresh context has an empty registry, an empty table and an empty outbox, and the invariant holds |
| `AudioWorker.WorkerScope.RegisterProcessor` | audioworker.js:15-21 | A known name changes nothing and posts nothing. A new name is stored with its class, and exactly one `register` notice with its descriptor is appended. The invariant is kept |
| `AudioWorker.RegistryAnnouncedExtend` | audioworker.js:16-19 | Storing a new name and posting its `register` notice keeps "each registered name announced exactly once, with its descriptor" |
| `AudioWorker.RegisterAllKeys` | audioworker.js:15-21 | After a sequence of registrations, the registered names are the earlier ones plus the script's names; nothing is removed |
| `AudioWorker.RegisterAllKeeps` | audioworker.js:16-18 | Write-once: a name registered earlier keeps its class through any later registrations |
| `AudioWorker.RegisterAllFirstWins` | audioworker.js:16-18 | A new name ends up bound to the class of its first registration; later registrations under the same name are ignored |
| `AudioWorker.New` | audioworker.js:40-43 | A subclass of the base passes the capability check, and its `port` is the options' `_port` (for a subclass that hands its options on to the base constructor). Any other class fails the check |
| `AudioWorker.ConstructOutcome` | audioworker.js:23-38 | Construction succeeds iff the name is registered and its class passes the capability check. On success: no notice; the instance carries the given port and the options with `_port` injected. On failure: exactly one `state:"error"` notice for the node, then NotSupported (unknown name) or InvalidState (failed check) |
| `AudioWorker.WorkerScope.Construct` | audioworker.js:23-38 | The imperative construction returns `ConstructOutcome`'s result and appends exactly its notices; the registry and the table are untouched |
| `AudioWorker.ConstructAsWritten` | audioworker.js:29-35 | As written, both error paths throw a ReferenceError on the unbound `nodeID` and post nothing; success is unaffected |
| `AudioWorker.UnboundNodeIdSilencesError` | audioworker.js:29-35 | The as-written and the corrected construction agree on success. On failure the as-written one posts no notice and throws a different error |
| `AudioWorker.WorkerScope.Import` | audioworker.js:61-64 | The imported script's registrations run in order, with first-wins, then exactly one `load` notice with the same url is posted. Earlier registrations are kept |
| `AudioWorker.WorkerScope.CreateProcessor` | audioworker.js:66-101 | The sample rate is set even when construction fails. Success iff the name is registered and passes the check. On success: id = the previous table length, the table grows by exactly that entry (instance, node, id, a ping-pong set of `bufferCount` slots), and one `running` notice for node and id is posted. On failure: the table is unchanged and only the error notice is posted |
| `AudioWorker.WorkerScope.Launch` | audioworker.js:97-100 | The new entry's id is the previous table length; the table grows by that entry alone; exactly one `running` notice for it is posted |
| `AudioWorker.LaunchExtend` | audioworker.js:98-100 | Appending the next id and announcing it keeps the ids dense and the k-th `running` notice matched to entry k |
| `AudioWorker.InvocationsExtend` | audioworker.js:99 | Appending to the table keeps every logged `process` call pointing at the same slot (append-only) |
| `AudioWorker.WorkerScope.Process` | audioworker.js:103-109 | An id with no entry is dropped: no message, no call, no error. A missing slot throws and calls nothing. Otherwise the processor's `process` is called exactly once with that slot's in/out buses. Table, registry and outbox are unchanged |
| `AudioWorker.WorkerScope.OnMessage` | audioworker.js:57-111 | Any message keeps the registry write-once and only grows the table, the outbox and the call log. `import`: the registry and outbox are those of `RegisterAll` over the script, followed by `load` with the same url. `createProcessor`: the handler ends normally iff the name is registered and passes the check; then the table grows by one entry with id = its previous length and a ping-pong slot set, and one `running` notice for node and id is posted; otherwise it throws `ConstructOutcome`'s error after the one error notice, with the table unchanged. `process`: never throws a construction error; an id with no entry ends normally and calls nothing; otherwise it throws iff the slot is missing, and else logs exactly one call with that slot's buses. Only `createProcessor` sets the sample rate. An unknown type changes nothing |
| `Slicing.Subarray` | audioworker.js:82 | The view lies within its backing array. Its begin is `min(begin, length)`; its end is `min(end, length)`, or the begin when that is smaller, so its length is `max(min(end, length) - min(begin, length), 0)`. With in-range bounds it is exactly `[begin, end)` |
| `Slicing.CreateBus` | audioworker.js:76-87 | The bus has the ports and channels of the descriptor, each channel the `[sliceStart, sliceEnd)` view of its own backing array |
| `Slicing.BuildSlices` | audioworker.js:69-92 | Exactly `bufferCount` slots; slot i holds, on both sides, the `[i*buflen, i*buflen+buflen)` views with the descriptor's port and channel counts |
| `Slicing.SlotView` | audioworker.js:71-82 | Every channel view of slot i, input or output, is the clamped `[i*buflen, i*buflen+buflen)` view of its backing array |
| `Slicing.SlotViewExact` | audioworker.js:71-82 | With at least `bufferCount*buflen` samples of backing, slot i's view is exactly `[i*buflen, i*buflen+buflen)`, of length `buflen`, ending within `bufferCount*buflen` |
| `Slicing.SlotsDisjoint` | audioworker.js:71-82 | For slots i < j, on every port and channel, slot i's view ends before slot j's begins, whatever the backing length |
| `Slicing.SlotsCover` | audioworker.js:71-82 | No gaps: every index below `bufferCount*buflen` of a long-enough backing array lies in slot `x / buflen` |
| `Slicing.TwoSlots` | audioworker.js:71-82 | Two 128-sample slots over a 256-sample channel are exactly `[0,128)` and `[128,256)` |
| `AudioProcessor.Processor.constructor` | example/audioprocessor.js:2-11 | The port comes from `options._port`; `ticks = 0`, `resume = true`, nothing posted |
| `AudioProcessor.Processor.OnMessage` | example/audioprocessor.js:4-8 | `resume` becomes false iff the data is the string "stop"; any other data leaves it; nothing sets it back to true |
| `AudioProcessor.Processor.Process` | example/audioprocessor.js:13-34 | One tick. Output 0 channels 0 and 1 start with a copy of input 0 channel 0, and their later samples are unchanged. The farewell is posted iff `resume` is false. `resume` is returned. The invariant `0 <= ticks < 1000` holds, with liveness notices counting the completed cycles |
| `AudioProcessor.Processor.Advance` | example/audioprocessor.js:21-25 | The counter increments; on reaching 1000 it posts "audioprocessor is alive." and resets to 0 |
| `AudioProcessor.Processor.Farewell` | example/audioprocessor.js:29-31 | A call made while stopped posts exactly "Bye Bye! from audioprocessor." |
| `AudioProcessor.CopyToBoth` | example/audioprocessor.js:27-28 | Both outputs begin with the input's samples and keep their later samples, even when the arrays alias |
| `AudioProcessor.SetAtStart` | example/audioprocessor.js:27 | `set(src, 0)` overwrites exactly the first `|src|` samples with `src` |
| `AudioProcessor.Tick` | example/audioprocessor.js:21-25 | The notice fires exactly when the incremented counter reaches 1000, and then the counter is 0; the step keeps the counter in `[0, 1000)` |
| `AudioProcessor.TickCycle` | example/audioprocessor.js:21-25 | From a counter t in `[0,1000)`, n calls leave it at `(t+n) % 1000` and post `(t+n) / 1000` liveness notices |
| `AudioProcessor.AliveOncePerCycle` | example/audioprocessor.js:20-25 | Any 1000 consecutive calls post exactly one liveness notice and return the counter to where it was |
| `ConsoleHistory.ConsoleJS.constructor` | example/console.js:105-109 | Empty history and cursor -1 |
| `ConsoleHistory.StepBack` | example/console.js:205-212 | An entry is returned iff one sits at cursor-1, and then the cursor is there; otherwise the cursor is restored and `{command:""}` is returned. The cursor stays in range |
| `ConsoleHistory.StepNext` | example/console.js:222-229 | The same, stepping forward |
| `ConsoleHistory.ConsoleJS.Back` | example/console.js:205-212 | `back` moves the cursor and returns as `StepBack` says; the history is not modified |
| `ConsoleHistory.ConsoleJS.Next` | example/console.js:222-229 | `next` moves the cursor and returns as `StepNext` says; the history is not modified |
| `ConsoleHistory.ConsoleJS.OnKeyDown` | example/console.js:160-191 | Ctrl-Up / Ctrl-Down recall through `back` / `next` and show the command. Enter without Shift appends `{command, date}`, sets the cursor to the new length and clears the input. Other keys change nothing. The cursor stays in `[-1, len]`, and in `[0, len]` once an entry exists |
| `ConsoleHistory.BackRecallsRecent` | example/console.js:205-212 | After Enter, the k-th Ctrl-Up recalls the k-th most recent command |
| `ConsoleHistory.BackStopsAtOldest` | example/console.js:205-212 | Past the oldest command, Ctrl-Up stays on it and yields the empty command |
| `ConsoleHistory.NextUndoesBack` | example/console.js:205-229 | Ctrl-Down undoes a Ctrl-Up that found an entry below the newest one |
| `ConsoleHistory.NormalizeOptions` | example/console.js:134-144 | Accepted iff the argument is a truthy non-object or an object literal with a truthy selector. A non-object is wrapped as `{selector: options}`. Otherwise "options.selector is required" is thrown |
| `ConsoleHistory.ElementArgumentRefused` | example/console.js:117-144 | A DOM element passed directly has no `selector` and is refused, although the comment above `init` lists it |
| `ConsoleHistory.NormalizeOptionsDocumented` | example/console.js:117-120 | The documented handling: accepted iff the argument is a truthy non-object, a DOM element, or an object literal with a truthy selector. An element becomes `{selector: element}`; every other argument is handled exactly as `NormalizeOptions` handles it |

## Left out

- Script loading itself (`importScripts`) and the `eval(ctor.name)` lookup of `parameterDescriptors` are dynamic. An imported script is modelled by the `registerProcessor` calls it makes, and the descriptor by a field of the class.
- AudioWorker.WorkerScope.Import: models only a script that loads and runs to completion, so it always posts `load`. In the source a script that fails to load or throws makes `importScripts` throw out of the handler (audioworker.js:62-63): no `load` is posted, and only the registrations made before the failure remain.
- `postMessage`, `MessagePort`, `e.ports[0]` and the `onmessage` wiring are transport. Outbound messages are an outbox sequence; inbound messages are method calls; ports are identifiers.
- The `instanceof AudioWorkletProcessor` test is modelled as a boolean of the class: "extends the base".
- Typed-array semantics are not modelled: `new Float32Array(x)` copies an ordinary array but aliases an ArrayBuffer, and sample values are floats. Views are index ranges over identified backing arrays. Samples in the example processor are opaque 32-bit patterns that are only copied.
- `ctors` is a plain object in the source, so inherited names such as "toString" look registered. The model's registry is a map without inherited keys.
- The model does not cover what user processor code does when it runs. `process` is recorded with its buses in a call log, its return value is discarded as in the source, and the `params` argument the handler never passes is absent.
- Options carry only `samplesPerBuffer` and `_port`; other fields the host sends are passed through untouched in the source and are not modelled.
- `createProcessor` messages without an `options` object or without a `bus` object throw a TypeError at the first property read; the model's argument types always carry both.
- `AudioProcessor.Processor.Process` requires that input port 0 has a channel 0 and output port 0 has channels 0 and 1, each at least as long as the input channel. Where one is missing the source throws, at different points:
  - a missing input port 0 throws at example/audioprocessor.js:15 and a missing output port 0 at :17, both before the tick is counted at :21;
  - a missing input channel 0 or output channel 0, or an output channel 0 shorter than the input, throws at the first `set` call at :27, after the tick;
  - a missing output channel 1, or one shorter than the input, throws at the second `set` call at :28, after the tick and after output channel 0 has been overwritten.
- AudioProcessor.Processor.constructor: requires `options._port` to be present. The source installs a handler on `this.port` at example/audioprocessor.js:4, right after the base constructor, so a construction without a port throws a TypeError and builds no processor; that failing construction is not modelled.
- AudioWorker.New: assumes that a subclass of the base passes the options it received on to the base constructor (`super(options)`), as the example processor does. The base copies `_port` from whatever it is given (audioworker.js:41): a subclass calling `super()` throws a TypeError, and one passing other options gets another port. `AudioWorker.ConstructOutcome` and `AudioWorker.WorkerScope.CreateProcessor` promise that the instance carries the given port under the same assumption.
- `samplesPerBuffer` is a natural number in the model. In the source a negative value would make `subarray` count its bounds from the end of the array, and a fractional one would be truncated; neither case is representable here.
- A processor class without a static `parameterDescriptors`, such as the example `Processor`, is announced in the source with `descriptor: undefined` (audioworker.js:17-19). The model's descriptor is a sequence, so such a class is represented with the empty sequence `[]`, which the source would announce differently.
- Console.js's console-method overriding, DOM element lookup (`_els`), rendering, `eval` of the entered command, `focus`, and the listener wiring are UI and I/O. `Date` is a parameter.
- `back` and `next` act on the module's single console instance rather than on `this`; the model has one console object, so the two coincide.
- Concurrency: the worker runs each message to completion on one thread, so there is nothing to model.

## Findings

| source | as written | input that shows it | evidently intended | confidence | as-written member | corrected member |
|---|---|---|---|---|---|---|
| audioworker.js:29-35 | Both error paths of `constructOnWorker` build their notice from `nodeID`, which is declared nowhere, so they throw a ReferenceError before posting | `createProcessor` for a name that was never registered | Post `{type:"state", node, state:"error"}` for the requesting node, then throw NotSupported or InvalidState | not executed; the identifier is bound nowhere in the worker script | `AudioWorker.ConstructAsWritten` | `AudioWorker.ConstructOutcome` |
| example/console.js:117-143 | The comment above `init` lists a DOM element as a valid argument, but an element is an object without a `selector` field, so the code throws "options.selector is required" | `init(document.body)` | Take the element as the selector, as for a query string | not executed; the documentation and the code at :134-143 disagree on the element case | `ConsoleHistory.ElementArgumentRefused` | `ConsoleHistory.NormalizeOptionsDocumented` |
