# ourthings-react queue engine in Dafny

This project models the command-queue engine of ourthings-react. It covers five things:

- the `Queue` object: the live table of command chains, prepared queues, registers, memory and its durable copy;
- the `Memory` item;
- the `Queueable` base class, with its `start` wrapper that rejects unknown commands and contains exceptions;
- the built-in `Internals` queueable, whose commands drive the engine itself;
- the enumerations of `Define`.

The whole engine state is the datatype `Engine.State`, and each engine operation is a pure step function on it (`Engine.Process`, `Engine.Finish`, `Engine.Execute`, …). The class `Queue.Queue` keeps the same data in mutable fields. Each of its methods is proved to move its abstract state `Abs()` exactly as the matching step function does, and to keep `Valid()`. The lemmas in the `*_props.dfy` files prove what the steps promise:

- dispatch eligibility, and the idempotence of a pass;
- the four outcomes of `finished`;
- how submission fills the table;
- the Permanent-memory round trip through the durable store;
- the register round trip;
- the head split of the command parser.

`Queueable.Queueable` is the base class. Each `Internals` command is a pure "edit" of the engine state (`Internals.SetMemoryEdit`, …) that either returns or throws. The methods on the queueable object are proved to follow the edit and then the base class's `finished`, and `Internals.Start` is proved to follow `Internals.Handle`.

Modelling choices:

- **Values.** JavaScript values are the datatype `Values.Value`. Truthiness, `===`, `indexOf`, `String(v)` and `Object.assign` are written out. `Object.assign` copies an object's fields and an array's or string's indices into an object, and overwrites the leading elements of an array with an array's or string's elements. Two arrays or objects are never `===`, because every stored value is its own JSON copy.
- **Statements.** Free-code statements (`queueStatement`, `eval`, `ifqueue`) are evaluated by a parameter `Evaluator` of the engine. It returns `None` when the code throws. `execute` propagates such a throw to its caller (`Engine.ExecuteThrows`), and so do the `execute` and `ifqueue` commands and the catch branch of `start`. `eval` and `ifqueue` catch a throw of their own statement. The dispatch pass counts a throwing statement as false; see "## Left out".
- **Timers.** Dispatch through `setTimeout` is not modelled as a call. Every pass instead returns the keys it started, in the order it started them (`started` of `Queue.Queue.QueueProcess`, `Queue.Queue.Finished`, …).
- **Durable store.** The cookie jar is the `index` and `store` fields. A record is `Missing`, `Garbled` (it does not decode) or `Intact`.
- **Memory order.** Memory keeps its names in insertion order (`names`), which is the order in which `for…in` visits them.
- **Inherited names.** The engine's tables (`queueables`, `prepare`, memory) are plain objects, so a lookup under a name such as `toString` or `constructor` finds an `Object.prototype` member (`Values.ObjectProperties`). The model follows the code wherever that changes the outcome: `execute` of such a name throws, a pass skips an entry for such a queueable without a report, `checkQueueable` (and so the constructor) never boots one, `toggleMemory` of one succeeds, and `pushMemory` of one throws.
- **Queueable references.** The engine sees a queueable only as a `Capability` (its `ready` flag and its command names).

Behaviours of the code a reader might not expect, which the model keeps:

- `finished` on an entry that is not RUNNING still overwrites its `error` field (`FinishProps.FinishNotRunning`).
- A submitted Instant entry gets no pid at submission. Its pid is set to its table key when it is first dispatched (`DispatchProps.LaunchDetails`).
- `memory(pid, value)` never syncs the durable store, even for a Permanent mode (`MemoryProps.WriteMemoryFound`).
- `_loadMemoryPerms` stops at the first record that does not decode. It keeps the items restored before that record and skips the rest (`MemoryProps.RestoreStopsAtCorrupt`).
- `deleteMemory` drops the name from the index but leaves the item's own record in the store (`MemoryProps.DeleteMemoryUnindexes`).

## Model

| member | source | states |
|---|---|---|
| Values.IndexOf | src/ourthings-react/Memory.js:46 | -1 iff no element is strictly equal to the value; otherwise the index of the first strictly equal element |
| Values.OwnFields | src/ourthings-react/Queue.js:170 | the properties Object.assign copies: an object's own fields, an array's elements and a string's characters under their index keys, and nothing for other values |
| Values.IndexFields | src/ourthings-react/Queue.js:170 | the first n elements under the keys "0"…"n-1", and no other key |
| Values.NatToStringInjective | src/ourthings-react/Queue.js:170 | distinct indices have distinct keys, so no element overwrites another |
| Values.Overlay | src/ourthings-react/Queue.js:170 | an array takes the source's elements at the leading indices and keeps the rest; its length is the larger of the two |
| Values.Assign | src/ourthings-react/Queue.js:169-170 | into an object: the union of keys, where the source's own properties win and the target's other keys are kept; into an array: an array's or string's elements overwrite the leading elements; otherwise the target is kept |
| Memory.ToggleAdvances | src/ourthings-react/Memory.js:43-52 | a value first listed before the last position moves to the next candidate |
| Memory.ToggleWraps | src/ourthings-react/Memory.js:43-52 | a value first listed at the last position wraps to the first candidate |
| Memory.ToggleUnlisted | src/ourthings-react/Memory.js:43-52 | an unlisted value moves to the first candidate, or to undefined when the list is empty |
| Memory.Memory.constructor | src/ourthings-react/Memory.js:23-28 | the item holds exactly the given pid, mode, origin and value |
| Memory.Memory.Get | src/ourthings-react/Memory.js:34-36 | returns the current value and changes nothing |
| Memory.Memory.Toggle | src/ourthings-react/Memory.js:43-52 | returns the prior value, moves the value to its next candidate, and keeps pid, mode and origin |
| Memory.Memory.Store | src/ourthings-react/Memory.js:59-66 | the stored snapshot carries exactly the item's four fields |
| Engine.Find | src/ourthings-react/Queue.js:353-363 | -1 iff the name is absent; otherwise the index of its first occurrence |
| Engine.PartialProcess | src/ourthings-react/Queue.js:191-260 | a pass visiting keys below n keeps the key set and leaves every key at or above n unchanged |
| Engine.StartedKeys | src/ourthings-react/Queue.js:191-260 | the keys started are exactly the dispatchable keys below n, in strictly ascending order |
| Engine.SubmitAll | src/ourthings-react/Queue.js:116-150 | submission only adds keys, never lowers the counter, and touches nothing but the table, counter and templates |
| Engine.KeepNames | src/ourthings-react/Queue.js:453-462 | keeps exactly the listed names that are still in memory, and keeps them distinct |
| Engine.PermNames | src/ourthings-react/Queue.js:380-393 | the index lists exactly the Permanent names, each once |
| Engine.SetMemory | src/ourthings-react/Queue.js:321-330 | setMemory changes nothing but memory and the durable store |
| Engine.DeleteMemory | src/ourthings-react/Queue.js:370-374 | deleteMemory changes nothing but memory and the durable store |
| Engine.AddRegister | src/ourthings-react/Queue.js:337-346 | adds the name once: the list stays duplicate-free, grows by one only if the name was absent, and keeps its prefix |
| Engine.RemoveRegister | src/ourthings-react/Queue.js:353-363 | splices the name out: exactly the other names remain, and the length drops by one iff the name was present |
| Engine.Before | src/ourthings-react/Queue.js:564 | the text before the first occurrence of a character, which it does not contain; None iff the character is absent |
| EngineProps.LookupStable | src/ourthings-react/Queue.js:267-275 | once found, scanning further keys returns the same entry |
| EngineProps.LookupFindsKey | src/ourthings-react/Queue.js:267-275 | on a sound table, the lookup finds an entry iff the pid is a key whose entry has been dispatched, and then returns that entry |
| EngineProps.LookupBelow | src/ourthings-react/Queue.js:267-275 | the scan below n depends only on the entries under keys below n |
| EngineProps.PartialLaunches | src/ourthings-react/Queue.js:191-260 | a partial pass launches exactly the dispatchable entries below n |
| EngineProps.PartialDone | src/ourthings-react/Queue.js:191-260 | the loop over all keys below the counter yields the whole pass |
| EngineProps.ProcessTableOk | src/ourthings-react/Queue.js:191-260 | a pass keeps the table sound |
| EngineProps.PermNamesSnoc | src/ourthings-react/Queue.js:380-393 | one more name joins the index iff it is Permanent |
| EngineProps.SyncRecordsSnoc | src/ourthings-react/Queue.js:380-393 | one more name gets a record iff it is Permanent |
| DispatchProps.ProcessEligibility | src/ourthings-react/Queue.js:191-260 | an ADDED entry becomes RUNNING iff its queueable is known and ready, its register is set and its statement holds; all other entries are untouched |
| DispatchProps.LaunchDetails | src/ourthings-react/Queue.js:191-260 | a launched entry gets its key as pid and the timer `queueTimer \|\| 10`; everything else is unchanged |
| DispatchProps.UnfoundCount | src/ourthings-react/Queue.js:191-260 | one diagnostic per ADDED entry whose queueable is unknown and not an inherited name |
| DispatchProps.UnfoundNames | src/ourthings-react/Queue.js:191-260 | each diagnostic names the queueable of an ADDED entry that is neither known nor an inherited name |
| DispatchProps.StartedIsDispatchable | src/ourthings-react/Queue.js:191-260 | a pass starts exactly the dispatchable keys, each once, in ascending order |
| DispatchProps.ProcessIdempotent | src/ourthings-react/Queue.js:191-260 | a second pass leaves the table unchanged and starts nothing; its only effect is to append the unknown-queueable diagnostics once more |
| DispatchProps.UnfoundAfterPass | src/ourthings-react/Queue.js:191-260 | a pass leaves the set of entries with an unknown queueable as it was, so the next pass reports the same ones |
| DispatchProps.NothingStarts | src/ourthings-react/Queue.js:191-260 | with nothing dispatchable, nothing starts |
| DispatchProps.ProcessWf | src/ourthings-react/Queue.js:191-260 | a pass keeps the engine invariant |
| DispatchProps.ProcessKeepsActive | src/ourthings-react/Queue.js:191-260 | a pass does not change the set of entries that are neither finished nor in error |
| DispatchProps.ErrorIsSticky | src/ourthings-react/Queue.js:191-260 | an ERROR entry is never dispatched again |
| SubmitProps.SubmitAllTable | src/ourthings-react/Queue.js:116-150 | exactly the Instant commands enter the table, in order under fresh consecutive keys, ADDED with no pid; earlier entries are kept |
| SubmitProps.SubmitAllPrepare | src/ourthings-react/Queue.js:116-150 | the last command preparing a name becomes its template; other templates are kept |
| SubmitProps.SubmitAllWf | src/ourthings-react/Queue.js:116-150 | submission keeps the engine invariant |
| SubmitProps.SubmitOneWf | src/ourthings-react/Queue.js:116-150 | one submitted command keeps the engine invariant |
| SubmitProps.ExecuteUnknown | src/ourthings-react/Queue.js:159-182 | a name that is not a template submits nothing; execute throws iff the name is inherited, and otherwise reports it unless the call is silent |
| SubmitProps.ExecuteGated | src/ourthings-react/Queue.js:159-182 | a template whose statement fails changes nothing and starts nothing; execute throws iff the statement's evaluation threw |
| SubmitProps.ExecuteRuns | src/ourthings-react/Queue.js:159-182 | a runnable template throws, changing nothing, iff json is passed and the template's json is undefined or null; otherwise it submits one Instant clone under the next key with the merged json, and the clone replaces the template |
| SubmitProps.ExecuteKeepsKeys | src/ourthings-react/Queue.js:159-182 | execute never removes a live entry |
| FinishProps.FinishNotRunning | src/ourthings-react/Queue.js:497-551 | on an entry that is not RUNNING only the error text changes, and the stop is reported |
| FinishProps.FinishError | src/ourthings-react/Queue.js:497-551 | FIN_ERROR puts the entry in ERROR with its error text, keeps everything else, and reports it |
| FinishProps.FinishAdvance | src/ourthings-react/Queue.js:497-551 | OK with links left shifts the first link in, shortens the chain by one, keeps the pid and re-queues the entry |
| FinishProps.FinishDone | src/ourthings-react/Queue.js:497-551 | OK at the end of the chain prunes the entry and drops exactly its pid's Garbage items |
| FinishProps.FinishWf | src/ourthings-react/Queue.js:497-551 | every outcome of finished keeps the engine invariant |
| FinishProps.AdvanceWf | src/ourthings-react/Queue.js:497-551 | advancing a chain and running a pass keeps the invariant |
| FinishProps.DoneWf | src/ourthings-react/Queue.js:497-551 | finishing, collecting and pruning keeps the invariant |
| FinishProps.CollectNamesOk | src/ourthings-react/Queue.js:453-462 | cleanMemory keeps the names consistent with memory |
| FinishProps.PruneOk | src/ourthings-react/Queue.js:481-487 | pruning FINISHED entries gives a sound table |
| MemoryProps.WriteMemoryFound | src/ourthings-react/Queue.js:283-299 | memory(pid, v) stores v under the entry's memory name and mode, owned by the pid, without syncing |
| MemoryProps.WriteMemoryUnknown | src/ourthings-react/Queue.js:283-299 | an unknown pid stores nothing, and is reported unless it is -1 |
| MemoryProps.SyncRecordsSpec | src/ourthings-react/Queue.js:380-393 | exactly the Permanent items get a record, each holding its item |
| MemoryProps.SyncIndexesPermanent | src/ourthings-react/Queue.js:380-393 | the index lists the Permanent items once each, each is recorded intact, and other records are untouched |
| MemoryProps.SetMemoryStores | src/ourthings-react/Queue.js:321-330 | stores a user item (owner -1, Garbage by default); only a Permanent write syncs, and it indexes the item |
| MemoryProps.PutNamesOk | src/ourthings-react/Queue.js:321-330 | storing an item keeps the names consistent with memory |
| MemoryProps.DeleteMemoryUnindexes | src/ourthings-react/Queue.js:370-374 | deleting an item takes it out of memory and the index; its record remains |
| MemoryProps.RestoreStopsAtCorrupt | src/ourthings-react/Queue.js:399-414 | restore stops at the first record that is missing or corrupt |
| MemoryProps.RestoreAll | src/ourthings-react/Queue.js:399-414 | restoring intact records adds each named item and keeps the others |
| MemoryProps.RestoreNames | src/ourthings-react/Queue.js:399-414 | restored names are appended in index order, and the store is untouched |
| MemoryProps.LoadAfterSync | src/ourthings-react/Queue.js:380-414 | after a sync, a fresh engine restores exactly the Permanent items, in order |
| MemoryProps.LoadAfterSyncItems | src/ourthings-react/Queue.js:380-414 | the pointwise round trip: which items come back, and with what contents |
| MemoryProps.SyncRestorable | src/ourthings-react/Queue.js:380-414 | after a sync, the index names every Permanent item once, each with an intact record of itself |
| RegisterProps.RegisterRoundTrip | src/ourthings-react/Queue.js:337-363 | deleting a freshly set register restores the list |
| RegisterProps.AddRegisterIdempotent | src/ourthings-react/Queue.js:337-346 | setting a register twice is the same as setting it once |
| RegisterProps.RemoveRegisterAbsent | src/ourthings-react/Queue.js:353-363 | deleting an absent register changes nothing |
| RegisterProps.RegistersWf | src/ourthings-react/Queue.js:337-363 | both register operations keep the invariant |
| RegisterProps.SetRegisterReleases | src/ourthings-react/Queue.js:337-346 | setting a register dispatches the entries waiting only on it |
| RegisterProps.DeleteRegisterHolds | src/ourthings-react/Queue.js:353-363 | deleting a register holds back the entries waiting on it |
| ParseProps.BeforeFirst | src/ourthings-react/Queue.js:564 | the text before the first separator is the prefix that lacks it |
| ParseProps.ParseHeadCommand | src/ourthings-react/Queue.js:564-566 | `q.c(…)` parses to queueable q and command c |
| ParseProps.ParseHeadBare | src/ourthings-react/Queue.js:564-566 | `q(…)` parses to queueable q with no command |
| ParseProps.ParseHeadNoCall | src/ourthings-react/Queue.js:564 | text without '(' does not parse |
| ParseProps.DefaultRunKinds | src/ourthings-react/Queue.js:598 | a given queueRun is kept; otherwise Event at the top and Sub below; Instant only when given |
| ParseProps.NoInstants | src/ourthings-react/Queue.js:598 | commands whose queueRun was defaulted include no Instant one |
| ParseProps.DefaultedNotQueued | src/ourthings-react/Queue.js:116-150 | submitting commands whose queueRun was defaulted leaves the table and the counter as they were: they only become templates |
| Queue.Queue.ValidWf | src/ourthings-react/Queue.js:20-96 | a valid queue's abstract state satisfies the engine invariant |
| Queue.Queue.constructor | src/ourthings-react/Queue.js:20-96 | all listed queueables except inherited names are booted and ready; table, templates, registers and memory start empty |
| Queue.Queue.CheckQueueable | src/ourthings-react/Queue.js:99-108 | returns true iff the queueable was known or the name is inherited, and boots it otherwise |
| Queue.Queue.Submit | src/ourthings-react/Queue.js:116-150 | one command of commandsQueue, as SubmitOne |
| Queue.Queue.CommandsQueue | src/ourthings-react/Queue.js:116-150 | submits all commands and runs one pass; returns the keys that pass started |
| Queue.Queue.Visit | src/ourthings-react/Queue.js:191-260 | one loop step: launches the key iff it is dispatchable, and reports it iff its queueable is unknown and not an inherited name |
| Queue.Queue.QueueProcess | src/ourthings-react/Queue.js:191-260 | performs one pass and returns the keys it started, in order |
| Queue.Queue.Pass | src/ourthings-react/Queue.js:191-260 | the loop over all keys below the counter |
| Queue.Queue.Execute | src/ourthings-react/Queue.js:159-182 | throws exactly as ExecuteThrows says (an inherited name, a throwing statement, or json merged into an undefined or null template json), changing nothing; otherwise returns true iff the template exists and its statement holds; follows execute |
| Queue.Queue.FindQueueByPid | src/ourthings-react/Queue.js:267-275 | on a valid queue, finds an entry iff the pid is a dispatched key, and returns that entry |
| Queue.Queue.Put | src/ourthings-react/Queue.js:283-299 | stores the item, and appends a new name last |
| Queue.Queue.WriteMemory | src/ourthings-react/Queue.js:283-299 | follows memory(pid, value); returns whether the pid was found |
| Queue.Queue.SetMemory | src/ourthings-react/Queue.js:321-330 | follows setMemory and returns true |
| Queue.Queue.Forget | src/ourthings-react/Queue.js:370-374 | removes the item and its name |
| Queue.Queue.DeleteMemory | src/ourthings-react/Queue.js:370-374 | follows deleteMemory and returns true |
| Queue.Queue.UpdateMemoryPerms | src/ourthings-react/Queue.js:380-393 | writes the index and records of the Permanent items |
| Queue.Queue.SyncScan | src/ourthings-react/Queue.js:380-393 | the loop computes the Permanent names and their records |
| Queue.Queue.LoadMemoryPerms | src/ourthings-react/Queue.js:399-414 | restores what the index names, stopping at the first corrupt record |
| Queue.Queue.CleanMemory | src/ourthings-react/Queue.js:453-462 | drops exactly the pid's Garbage items |
| Queue.Queue.CollectScan | src/ourthings-react/Queue.js:453-462 | the loop keeps exactly the items that are not the owner's Garbage |
| Queue.Queue.IsWork | src/ourthings-react/Queue.js:468-476 | counts the entries that are neither FINISHED nor ERROR |
| Queue.Queue.CleanQueue | src/ourthings-react/Queue.js:481-487 | deletes exactly the FINISHED entries |
| Queue.Queue.Finished | src/ourthings-react/Queue.js:497-551 | follows finished and returns the keys its pass started |
| Queue.Queue.SetRegister | src/ourthings-react/Queue.js:337-346 | adds the register, runs a pass, and returns the keys it started |
| Queue.Queue.DeleteRegister | src/ourthings-react/Queue.js:353-363 | splices the register out, runs a pass, and returns the keys it started |
| Queueable.RejectedEndsInError | src/ourthings-react/Queueable.js:77-79 | an unknown command puts the entry in ERROR with "No such command [c]", reports it, and changes nothing else |
| Queueable.ContainedEndsInError | src/ourthings-react/Queueable.js:66-76 | a throw stores generalErrorMessage as a Session item and keeps the invariant; if generalError's statement throws too, the table and reports are untouched and the entry stays RUNNING; otherwise generalError runs and the entry ends in ERROR with "Queue [c] errored: m" |
| Queueable.StartUnknown | src/ourthings-react/Queueable.js:40-79 | a name the queueable lacks: an unknown name ends in ERROR, a throwing inherited method is contained, a quiet inherited method changes nothing so the entry stalls RUNNING; the invariant is kept |
| Queueable.ExecuteKeepsRunning | src/ourthings-react/Queue.js:159-182 | execute leaves a RUNNING entry, memory and the invariant alone |
| Queueable.Queueable.constructor | src/ourthings-react/Queueable.js:20-22 | a new queueable is not ready |
| Queueable.Queueable.Init | src/ourthings-react/Queueable.js:29-32 | attaches the queue and becomes ready |
| Queueable.Queueable.Finished | src/ourthings-react/Queueable.js:88-95 | forwards to the engine unless the pid is -1 |
| Queueable.Queueable.Set | src/ourthings-react/Queueable.js:97-100 | follows memory(pid, value) |
| Queueable.Queueable.Reject | src/ourthings-react/Queueable.js:77-79 | follows the unknown-command path |
| Queueable.Queueable.Contain | src/ourthings-react/Queueable.js:66-76 | follows the catch path |
| Queueable.Queueable.Start | src/ourthings-react/Queueable.js:40-80 | rejects an unknown command, contains a throw or a throwing inherited method, and otherwise leaves the body's effect |
| Queueable.Queueable.StartMissing | src/ourthings-react/Queueable.js:42-79 | a name the queueable lacks follows StartStep: contained when a throwing inherited method, nothing for a quiet one, rejected otherwise |
| Internals.CommandOf | src/ourthings-react/Queueable.js:42 | a name selects a command iff it is one of the fourteen command names |
| Internals.Executed | src/ourthings-react/Queueable/Internals.js:27 | a body's call of execute throws iff ExecuteThrows holds, with the ExecuteError text and nothing changed; live entries are never removed |
| Internals.ExecuteEdit | src/ourthings-react/Queueable/Internals.js:25-29 | throws iff the arguments are nullish or execute throws (which includes an inherited name), and a throw changes nothing; live entries are never removed |
| Internals.RunEdit | src/ourthings-react/Queueable/Internals.js:40-43 | always throws, and changes nothing |
| Internals.EvalEdit | src/ourthings-react/Queueable/Internals.js:54-66 | a throw changes nothing; only memory and the durable store change |
| Internals.IfQueueEdit | src/ourthings-react/Queueable/Internals.js:79-95 | a throw changes nothing; live entries are never removed |
| Internals.SetMemoryEdit | src/ourthings-react/Queueable/Internals.js:109-113 | a throw changes nothing; only memory and the durable store change |
| Internals.ToggleMemoryEdit | src/ourthings-react/Queueable/Internals.js:124-127 | a throw changes nothing; only memory and the durable store change |
| Internals.MergeMemoryEdit | src/ourthings-react/Queueable/Internals.js:130-136 | a throw changes nothing; only memory and the durable store change |
| Internals.PushMemoryEdit | src/ourthings-react/Queueable/Internals.js:151-167 | a throw changes nothing; only memory and the durable store change |
| Internals.SetRegisterEdit | src/ourthings-react/Queueable/Internals.js:177-181 | a throw changes nothing; the table's keys are kept |
| Internals.DeleteRegisterEdit | src/ourthings-react/Queueable/Internals.js:192-196 | a throw changes nothing; the table's keys are kept |
| Internals.DeleteMemoryEdit | src/ourthings-react/Queueable/Internals.js:210-213 | a throw changes nothing; only memory and the durable store change |
| Internals.ConsoleEdit | src/ourthings-react/Queueable/Internals.js:249-252 | the engine state never changes |
| Internals.Edit | src/ourthings-react/Queueable/Internals.js:25-252 | no command body changes anything when it throws, and none removes a live entry |
| Internals.ModeArgNames | src/ourthings-react/Queueable/Internals.js:109-113 | each mode name selects its mode; a falsy mode means the default |
| Internals.PushedToggleCounts | src/ourthings-react/Queueable/Internals.js:157-164 | a toggle removes one occurrence of a listed primitive, or adds it once; the counts of other values are unchanged |
| Internals.PushedToggleTwice | src/ourthings-react/Queueable/Internals.js:157-164 | toggling an unlisted primitive twice gives the array back |
| Internals.PushedCompound | src/ourthings-react/Queueable/Internals.js:158 | toggling an array or object always appends it |
| Internals.PushMemoryStores | src/ourthings-react/Queueable/Internals.js:151-167 | pushMemory on an inherited name that is not in memory throws and changes nothing; otherwise it stores the pushed array as a user item with the given mode |
| Internals.ToggleMemoryFlips | src/ourthings-react/Queueable/Internals.js:124-127 | flips the truthiness of the item's value, and keeps its other fields and all other items |
| Internals.ToggleMemoryMissing | src/ourthings-react/Queueable/Internals.js:124-127 | toggling a missing item changes nothing, and returns iff the name is inherited; otherwise it throws |
| Internals.ToggleMemoryTwice | src/ourthings-react/Queueable/Internals.js:124-127 | toggling a boolean item twice gives memory back |
| Internals.MergeMemoryOverwrites | src/ourthings-react/Queueable/Internals.js:130-136 | overwrites exactly the given keys and keeps the other keys; a second merge changes nothing |
| Internals.MergeMemoryThrows | src/ourthings-react/Queueable/Internals.js:130-136 | merging into a missing item or a primitive throws and changes nothing |
| Internals.IfQueueThrowIsFalse | src/ourthings-react/Queueable/Internals.js:82-93 | a statement that throws takes the else path, and the command throws iff that execute throws |
| Internals.EditKeepsRunning | src/ourthings-react/Queueable/Internals.js:25-252 | no command body touches a RUNNING entry or breaks the invariant |
| Internals.ExecuteEditKeepsRunning | src/ourthings-react/Queueable/Internals.js:25-29 | execute keeps a RUNNING entry and the invariant |
| Internals.IfQueueKeepsRunning | src/ourthings-react/Queueable/Internals.js:79-95 | ifqueue keeps a RUNNING entry and the invariant |
| Internals.RegisterEditKeepsRunning | src/ourthings-react/Queueable/Internals.js:177-196 | the register commands keep a RUNNING entry and the invariant |
| Internals.MemoryOnlyWf | src/ourthings-react/Queue.js:321-374 | a memory-only change with consistent names keeps the invariant |
| Internals.EvalEditWf | src/ourthings-react/Queueable/Internals.js:54-66 | eval keeps the invariant |
| Internals.SetMemoryEditWf | src/ourthings-react/Queueable/Internals.js:109-113 | setMemory keeps the invariant |
| Internals.ToggleMemoryEditWf | src/ourthings-react/Queueable/Internals.js:124-127 | toggleMemory keeps the invariant |
| Internals.MergeMemoryEditWf | src/ourthings-react/Queueable/Internals.js:130-136 | mergeMemory keeps the invariant |
| Internals.PushMemoryEditWf | src/ourthings-react/Queueable/Internals.js:151-167 | pushMemory keeps the invariant |
| Internals.DeleteMemoryEditWf | src/ourthings-react/Queueable/Internals.js:210-213 | deleteMemory keeps the invariant |
| Internals.OpFinishesEntry | src/ourthings-react/Queueable/Internals.js:25-252 | a body that returns finishes its entry with FIN_OK exactly once: the chain ends or advances by one link |
| Internals.HandleUnknown | src/ourthings-react/Queueable.js:40-79 | start with a name that is not a command keeps the invariant: ERROR for an unknown name, containment for a throwing inherited method, a stalled RUNNING entry for a quiet one |
| Internals.HandleOutcome | src/ourthings-react/Queueable.js:40-80 | start with a command keeps the invariant; a throw leaves ERROR unless generalError's statement throws too; a return advances or ends the chain |
| Internals.Execute | src/ourthings-react/Queueable/Internals.js:25-29 | follows ExecuteEdit, then finishes the entry |
| Internals.Call | src/ourthings-react/Queueable/Internals.js:25-29 | a body ending with a call of execute follows Executed, then finishes the entry unless it threw |
| Internals.Run | src/ourthings-react/Queueable/Internals.js:40-43 | throws before changing anything |
| Internals.Eval | src/ourthings-react/Queueable/Internals.js:54-66 | follows EvalEdit, then finishes the entry |
| Internals.IfQueue | src/ourthings-react/Queueable/Internals.js:79-95 | follows IfQueueEdit, then finishes the entry |
| Internals.SetMemory | src/ourthings-react/Queueable/Internals.js:109-113 | follows SetMemoryEdit, then finishes the entry |
| Internals.ToggleMemory | src/ourthings-react/Queueable/Internals.js:124-127 | follows ToggleMemoryEdit, then finishes the entry |
| Internals.MergeMemory | src/ourthings-react/Queueable/Internals.js:130-136 | follows MergeMemoryEdit, then finishes the entry |
| Internals.PushMemory | src/ourthings-react/Queueable/Internals.js:151-167 | follows PushMemoryEdit, then finishes the entry |
| Internals.SetRegister | src/ourthings-react/Queueable/Internals.js:177-181 | follows SetRegisterEdit, then finishes the entry |
| Internals.DeleteRegister | src/ourthings-react/Queueable/Internals.js:192-196 | follows DeleteRegisterEdit, then finishes the entry |
| Internals.DeleteMemory | src/ourthings-react/Queueable/Internals.js:210-213 | follows DeleteMemoryEdit, then finishes the entry |
| Internals.Idle | src/ourthings-react/Queueable/Internals.js:223-252 | nop, debug and console finish at once; console throws on nullish arguments |
| Internals.Dispatch | src/ourthings-react/Queueable.js:67 | `self[command](pid, json)` follows that command's operation |
| Internals.Start | src/ourthings-react/Queueable.js:40-80 | start on this queueable follows Handle |
| Engine.Process | src/ourthings-react/Queue.js:191-260 | no contract of its own: DispatchProps.ProcessEligibility, LaunchDetails, StartedIsDispatchable, UnfoundCount, UnfoundNames, ProcessIdempotent and ProcessWf state what a pass does |
| Engine.SubmitOne | src/ourthings-react/Queue.js:116-150 | no contract of its own: SubmitProps.SubmitAllTable, SubmitAllPrepare and SubmitOneWf state what submission does |
| Engine.CommandsQueue | src/ourthings-react/Queue.js:116-150 | no contract of its own: submission then one pass; Queue.Queue.CommandsQueue follows it |
| Engine.ExecuteThrows | src/ourthings-react/Queue.js:159-182 | no contract of its own: SubmitProps.ExecuteUnknown, ExecuteGated and ExecuteRuns state when execute throws |
| Engine.Execute | src/ourthings-react/Queue.js:159-182 | no contract of its own: SubmitProps.ExecuteUnknown, ExecuteGated, ExecuteRuns, ExecuteKeepsKeys and Queueable.ExecuteKeepsRunning state what execute does |
| Engine.WriteMemory | src/ourthings-react/Queue.js:283-299 | no contract of its own: MemoryProps.WriteMemoryFound and WriteMemoryUnknown state what memory(pid, value) does |
| Engine.Sync | src/ourthings-react/Queue.js:380-393 | no contract of its own: MemoryProps.SyncRecordsSpec, SyncIndexesPermanent and SyncRestorable state what the sync writes |
| Engine.Restore | src/ourthings-react/Queue.js:399-414 | no contract of its own: MemoryProps.RestoreStopsAtCorrupt, RestoreAll and RestoreNames state what a restore brings back |
| Engine.LoadPerms | src/ourthings-react/Queue.js:399-414 | no contract of its own: MemoryProps.LoadAfterSync and LoadAfterSyncItems state the round trip through the durable store |
| Engine.Collect | src/ourthings-react/Queue.js:453-462 | no contract of its own: FinishProps.FinishDone and CollectNamesOk state what cleanMemory drops and keeps |
| Engine.Prune | src/ourthings-react/Queue.js:481-487 | no contract of its own: FinishProps.PruneOk and FinishDone state what cleanQueue deletes |
| Engine.Advance | src/ourthings-react/Queue.js:520-535 | no contract of its own: FinishProps.FinishAdvance states the shift of the next link |
| Engine.Finish | src/ourthings-react/Queue.js:497-551 | no contract of its own: FinishProps.FinishNotRunning, FinishError, FinishAdvance, FinishDone and FinishWf state its four outcomes |
| Engine.ParseHead | src/ourthings-react/Queue.js:564-566 | no contract of its own: ParseProps.ParseHeadCommand, ParseHeadBare and ParseHeadNoCall state the head split |
| Engine.DefaultRun | src/ourthings-react/Queue.js:598 | no contract of its own: ParseProps.DefaultRunKinds, NoInstants and DefaultedNotQueued state the default and its consequence |
| Memory.ToggleNext | src/ourthings-react/Memory.js:43-52 | no contract of its own: Memory.ToggleAdvances, ToggleWraps and ToggleUnlisted state the cycle |
| Queueable.Done | src/ourthings-react/Queueable.js:88-95 | no contract of its own: Queueable.Queueable.Finished follows it, and Internals.OpFinishesEntry states its effect after a body |
| Queueable.Rejected | src/ourthings-react/Queueable.js:77-79 | no contract of its own: Queueable.RejectedEndsInError states its effect |
| Queueable.Contained | src/ourthings-react/Queueable.js:66-76 | no contract of its own: Queueable.ContainedEndsInError states its effect |
| Queueable.StartStep | src/ourthings-react/Queueable.js:40-80 | no contract of its own: Queueable.StartUnknown, Internals.HandleUnknown and Internals.HandleOutcome state its effect |
| Internals.ModeArg | src/ourthings-react/Queueable/Internals.js:109-113 | no contract of its own: Internals.ModeArgNames states how a mode argument is read |
| Internals.Pushed | src/ourthings-react/Queueable/Internals.js:151-167 | no contract of its own: Internals.PushedToggleCounts, PushedToggleTwice and PushedCompound state the array it builds |
| Internals.Op | src/ourthings-react/Queueable/Internals.js:25-252 | no contract of its own: Internals.Edit and OpFinishesEntry state what a command body and its finish do |
| Internals.Handle | src/ourthings-react/Queueable.js:40-80 | no contract of its own: Internals.HandleUnknown and HandleOutcome state what start does on this queueable |

## Left out

- Websockets, the DOM helpers (`getElement`, `show`, `menu`, …), `prettyCommandObject`, `urlToJson` and `browserClasses`: these are not part of the engine.
- Timers: the `setTimeout` dispatch of `queueProcess` and its synchronous variant are not modelled as calls. A pass returns the keys it started, and the caller is expected to call `start` on each.
- Readiness: asynchronous readiness of a queueable is not modelled. Every queueable becomes ready in `init`.
- Statements: `eval` of `queueStatement`, of `eval` and of `ifqueue` is an oracle over memory. Side effects of the evaluated code are not modelled, and neither is `eval`'s own write of `json.name` into its arguments.
- Cookies: their encoding (base64 and URI escaping), their expiry, the `OT_` prefix and the `domain` option are abstracted to records that are `Missing`, `Garbled` or `Intact`.
- `deepCopy`: this JSON round trip is the identity on the value model. Functions and `undefined` fields inside arguments are not represented.
- `commandParse`: only the head split and the `queueRun` default are modelled. The following are not: JSON parsing of the argument and option literals, the `ucid` generation, the recursive parse of nested chains, and the regex's refusal to match across a newline.
- `setStack` and the per-entry `stack` are carried but never written; nothing in the core reads them.
- Diagnostics: console output, the FIN_WARNING log line and the report texts are abstracted to the `Report` log.
- Numbers are integers: floating point and `NaN` are not modelled.
- Names are modelled by their string form (`String(v)`). A memory or register name that is not a string is therefore identified with its string.
- Pid keys: JavaScript object keys are strings. Pid keys are modelled as naturals, and a `finished` call with a string pid is not distinguished.
- Memory enumeration order: integer-like memory names enumerate first in JavaScript. The model keeps plain insertion order.
- Memory objects: the queue's memory holds a snapshot of each Memory object rather than a shared reference. `toggleMemory` and `mergeMemory` mutate the object in place; the model replaces the item with an updated snapshot, and aliasing of Memory objects is not modelled.
- Exceptions are modelled by their message text. The TypeError texts and the text of a throwing statement (`Engine.ExecuteError`) are stand-ins for the messages the runtime gives.
- `mergeMemory` with a string or array `values` enumerates indices in JavaScript. Here such values write nothing. Merging into an array value is also treated as writing nothing.
- Internals.ModeArg: an unrecognised truthy mode string is stored and treated as Session. The model stores it as Session.
- Queueable.Queueable.Start: the effects of a generic queueable's own commands are not modelled, only how its body ended. Internals.Start gives the full effect for the built-in queueable.
- Queueable.StartStep: the base-class methods `init`, `start`, `finished` and `set` also pass the `typeof self[command] === 'function'` test, and calling one with `(pid, json)` re-points the queue, recurses into `start`, finishes with `json` as the mode, or writes memory. The model rejects these names as unknown. The inherited `Object.prototype` methods are modelled (`Queueable.QuietInherited`, `Queueable.ThrowingInherited`).
- ProcessEligibility: the `eval` of `queueStatement` in `queueProcess` (Queue.js:219) has no `try`. A throwing statement aborts the whole pass, and the exception reaches the caller of `queueProcess`. The model counts it as a false statement, skips that entry and finishes the pass, so the entries after it may be started here but not in the code.
- QueueProcess: for the same reason, a pass that meets a throwing statement starts, in the code, only the entries before it and then throws; `Queue.Queue.QueueProcess`, `Engine.Process` and `Engine.Holds` do not model that abort, and neither do the passes inside `commandsQueue`, `finished`, `setRegister` and `deleteRegister`.
- Values.Assign: an object merged into an array template writes its index-like keys and `length` in JavaScript; the model keeps the array. A primitive template is kept as it is: JSON turns the wrapper back into the primitive, and a string template given index keys throws in strict mode, which is not modelled.
- Queue.Queue.Finished: the source throws on a pid that is not in the table. The model requires a live pid.
- Queue.Queue.constructor: `queueablesList` is given as command-name sets. The status, `runningPid` and language fields are not modelled, and the durable store is a parameter standing for the browser's cookies.
- Inherited names written to: a `setMemory`, `memory(pid, value)` or prepared queue under the name `__proto__` replaces the object's prototype in JavaScript. The model stores it as an ordinary entry.
- Internals.ToggleMemoryEdit: `toggleMemory` of an inherited name that is not in memory writes `value` onto the shared `Object.prototype` member, which every later lookup sees. The model returns without changing anything.
- Links without `options` are taken to have `{}`. Values of `error` that are `undefined` are modelled as the empty text.
