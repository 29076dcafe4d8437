# Large-batch write coordinator

A Dafny model of `WriteLargeBatch`, the coordinator of the `android-firebase` library.
It accepts any number of document writes (set, update, delete) and spreads them over
Firestore write batches of at most 500 operations each (`MAX_BATCH_WRITES`). It keeps an
ordered, append-only list of (batch, counter) pairs. It opens a new pair only when the
last one is full. On commit it submits every batch in list order and returns one task
that waits on all of them.

Files and modules:

- `wrappers.dfy` (`Wrappers`): `Option` and `Result`. A thrown exception becomes a `Failure` result: the coordinator's `IllegalStateException` is `AlreadyCommitted`, and the store client's `IllegalArgumentException` for update arguments that are not field/value pairs is `StoreRejected`.
- `writes.dfy` (`Writes`): the write entries of the recording overloads. Documents, payloads, set options and field paths are opaque values. It also states what the store client is assumed to demand of update arguments passed as field/value pairs.
- `partition.dfy` (`Partition`): the capacity constant and `Chunks`, the reference split of a write sequence into runs of 500. It also has `Place`, the one-write-at-a-time allocation policy. The lemmas prove that the policy builds exactly `Chunks`, and they give the batch count and the position of each write.
- `tasks.dfy` (`Tasks`): what the coordinator assumes of the task library's `whenAll`.
- `large_batch.dfy` (`LargeBatch`): the class `WriteLargeBatch`. Its fields are `batches`, `committed` and `internalTasks`, as in `WriteLargeBatch.kt`, plus a ghost `recorded` holding every accepted write in call order. Its methods are:
  - the constructor, `CheckForCommit` and `GetAvailableBatch`;
  - `BufferWrite`, the store's buffering of one write, and `StoreUpdate`, the store's update-by-pairs call;
  - `Record`, which every recording overload delegates to, and the eight overloads;
  - `RecordPairs`, which the pair-taking update overloads delegate to, and `UpdatePairsAsWritten`, those overloads exactly as written (see Findings);
  - `Commit` and the corrected `CommitOnce`.

  The module also holds the value-level invariant `WellFormed`, the aggregate's `Outcome`, and the lemmas about them.

Each store-native `WriteBatch` is modelled by its operation log. A list entry is the value
`SubBatch(writes, count)`: `writes` is the batch's log and `count` is the pair's counter.
`GetAvailableBatch` and `BufferWrite` reassign the `batches` field in place; `Commit` reassigns `internalTasks`. A batch's handle is
its index in the list. Indices never change, because the list only grows.

The commit flag is kept as `WriteLargeBatch.kt` has it. `Commit` never sets `committed`, so
`Commit` can be called again. Each call appends another full round of tasks to
`internalTasks`, and the returned aggregate waits on every task accumulated so far
(`WriteLargeBatch.kt:101` passes the whole list). `CommitOnce` is the corrected commit.
It sets the flag and refuses a second call (see Findings).

The KDoc of `checkForCommit` (`WriteLargeBatch.kt:36-39`) says a committed batch can no longer be
used. The code never makes that so, and the model follows the code. In the model, which leaves out the
store batch's own commit guard, a task of an earlier commit that failed also fails every later commit's
aggregate, because `WriteLargeBatch.kt:101` passes the whole task list (`CommitOutcome`).

## Model

| member | source | states |
|---|---|---|
| `LargeBatch.WriteLargeBatch.constructor` | android-firebase/src/main/kotlin/io/blushine/android/firebase/WriteLargeBatch.kt:14-21 | starts with exactly one entry, whose log is empty and whose counter is 0; the commit flag is false, there are no tasks, and the invariant holds |
| `LargeBatch.WriteLargeBatch.CheckForCommit` | android-firebase/src/main/kotlin/io/blushine/android/firebase/WriteLargeBatch.kt:40-44 | reports `AlreadyCommitted` exactly when the commit flag is set, and changes nothing |
| `LargeBatch.WriteLargeBatch.GetAvailableBatch` | android-firebase/src/main/kotlin/io/blushine/android/firebase/WriteLargeBatch.kt:27-34 | when the last counter is 500, appends a fresh entry and counts one write against it; otherwise raises only the last counter by one; returns the handle of the last entry; leaves earlier entries unchanged |
| `LargeBatch.WriteLargeBatch.BufferWrite` | android-firebase/src/main/kotlin/io/blushine/android/firebase/WriteLargeBatch.kt:48 | appends the write to the log of the batch with the given handle and changes no other entry |
| `LargeBatch.WriteLargeBatch.Record` | android-firebase/src/main/kotlin/io/blushine/android/firebase/WriteLargeBatch.kt:46-49 | on a committed coordinator, fails with `AlreadyCommitted` and changes nothing; otherwise returns the coordinator itself and appends the write to the recorded sequence; the list grows by at most one entry, and only when the last entry was full; entries before the old last one are untouched; the counters sum to one more; the invariant holds |
| `LargeBatch.WriteLargeBatch.Set` | android-firebase/src/main/kotlin/io/blushine/android/firebase/WriteLargeBatch.kt:46-50 | records a set of a field map; same guard, placement and chaining as `Record` |
| `LargeBatch.WriteLargeBatch.SetWithOptions` | android-firebase/src/main/kotlin/io/blushine/android/firebase/WriteLargeBatch.kt:52-56 | records a set of a field map with set options, as `Record` |
| `LargeBatch.WriteLargeBatch.SetObject` | android-firebase/src/main/kotlin/io/blushine/android/firebase/WriteLargeBatch.kt:58-62 | records a set of a plain object, as `Record` |
| `LargeBatch.WriteLargeBatch.SetObjectWithOptions` | android-firebase/src/main/kotlin/io/blushine/android/firebase/WriteLargeBatch.kt:64-68 | records a set of a plain object with set options, as `Record` |
| `LargeBatch.WriteLargeBatch.Update` | android-firebase/src/main/kotlin/io/blushine/android/firebase/WriteLargeBatch.kt:70-74 | records an update from a field map, as `Record` |
| `LargeBatch.WriteLargeBatch.UpdateField` | android-firebase/src/main/kotlin/io/blushine/android/firebase/WriteLargeBatch.kt:76-80 | corrected form, with the trailing pairs spread: as `RecordPairs` with the caller's trailing values as the store's arguments, so the update is recorded as by `Record` exactly when they come in pairs |
| `LargeBatch.WriteLargeBatch.UpdateFieldPath` | android-firebase/src/main/kotlin/io/blushine/android/firebase/WriteLargeBatch.kt:82-86 | corrected form, with the trailing pairs spread: as `RecordPairs` with the caller's trailing values as the store's arguments, so the update is recorded as by `Record` exactly when they come in pairs |
| `LargeBatch.WriteLargeBatch.StoreUpdate` | android-firebase/src/main/kotlin/io/blushine/android/firebase/WriteLargeBatch.kt:78 | (assumption about the store client) buffers the write in the given batch exactly when the trailing arguments come in pairs; otherwise rejects the call and changes nothing |
| `LargeBatch.WriteLargeBatch.RecordPairs` | android-firebase/src/main/kotlin/io/blushine/android/firebase/WriteLargeBatch.kt:76-86 | on a committed coordinator, fails with `AlreadyCommitted` and changes nothing; otherwise takes the counter step and hands the trailing arguments to the store; when the store accepts them, the effect and invariant are those of `Record`; when it rejects them, fails with `StoreRejected`, records nothing, and leaves the last counter one above the writes buffered in its batch; the flag and the tasks never change |
| `LargeBatch.WriteLargeBatch.UpdatePairsAsWritten` | android-firebase/src/main/kotlin/io/blushine/android/firebase/WriteLargeBatch.kt:76-86 | as written: `RecordPairs` with the unspread array as the store's one argument; the commit flag and the tasks never change; on a committed coordinator, fails with `AlreadyCommitted` and changes nothing else; otherwise the counter step is taken, the store rejects the array, the call fails with `StoreRejected`, nothing is recorded, and the last counter is one above the writes buffered in its batch |
| `Writes.UnspreadRejected` | android-firebase/src/main/kotlin/io/blushine/android/firebase/WriteLargeBatch.kt:78 | an array of pairs passed on without the spread operator is one trailing argument, which the store rejects whatever the pairs are |
| `LargeBatch.ReserveOutrunsLog` | android-firebase/src/main/kotlin/io/blushine/android/firebase/WriteLargeBatch.kt:27-34 | the counter step alone leaves the last counter one above its batch's writes and the earlier entries unchanged |
| `LargeBatch.UnspreadUpdateAsWritten` | android-firebase/src/main/kotlin/io/blushine/android/firebase/WriteLargeBatch.kt:76-80 | as written, a pair-taking update on a fresh coordinator is refused, while its batch's counter says 1 and the batch holds 0 writes |
| `LargeBatch.SpreadUpdateCorrected` | android-firebase/src/main/kotlin/io/blushine/android/firebase/WriteLargeBatch.kt:76-80 | with the pairs spread, the same update on a fresh coordinator is accepted exactly when the trailing values come in pairs; its counter says 1, and the batch holds 1 write when accepted and 0 otherwise |
| `LargeBatch.WriteLargeBatch.Delete` | android-firebase/src/main/kotlin/io/blushine/android/firebase/WriteLargeBatch.kt:88-92 | records a delete, as `Record` |
| `LargeBatch.WriteLargeBatch.Commit` | android-firebase/src/main/kotlin/io/blushine/android/firebase/WriteLargeBatch.kt:94-102 | appends exactly one task per entry to the earlier tasks, in list order, each carrying its batch's handle and log; returns the aggregate over all tasks; leaves the list, the counters, the recorded writes and the commit flag unchanged |
| `LargeBatch.WriteLargeBatch.CommitOnce` | android-firebase/src/main/kotlin/io/blushine/android/firebase/WriteLargeBatch.kt:36-44 | corrected commit: if already committed, fails with `AlreadyCommitted` and submits nothing; otherwise submits as `Commit` does; afterwards the flag is set |
| `LargeBatch.RecordPreserves` | android-firebase/src/main/kotlin/io/blushine/android/firebase/WriteLargeBatch.kt:27-34 | an accepted recording step keeps the invariant with the new write appended to the recorded sequence; the new logs are the allocation policy applied to the old logs; the list grows by one exactly when the last counter was 500; only the tail changes; the total count rises by one |
| `LargeBatch.WellFormedIsChunks` | android-firebase/src/main/kotlin/io/blushine/android/firebase/WriteLargeBatch.kt:15-34 | after N accepted writes, when no store call was rejected, the logs are the runs of 500 of the writes in call order, and there are max(1, ceil(N/500)) entries |
| `LargeBatch.WellFormedCounters` | android-firebase/src/main/kotlin/io/blushine/android/firebase/WriteLargeBatch.kt:27-34 | after N accepted writes, when no store call was rejected, every counter is within [0, 500], every entry but the last holds exactly 500, and the counters sum to N |
| `LargeBatch.CommitRound` | android-firebase/src/main/kotlin/io/blushine/android/firebase/WriteLargeBatch.kt:94-99 | when no store call was rejected, one commit round after N accepted writes has max(1, ceil(N/500)) tasks; task i submits batch i; the tasks' logs, joined in order, give back every recorded write exactly once, in call order |
| `LargeBatch.RecordAfterCommitAsWritten` | android-firebase/src/main/kotlin/io/blushine/android/firebase/WriteLargeBatch.kt:16-44 | as written, a write after a commit is accepted, and a second commit submits batch 0 again: the aggregate waits on `[Submitted(0, []), Submitted(0, [w])]` |
| `LargeBatch.RecordAfterCommitOnce` | android-firebase/src/main/kotlin/io/blushine/android/firebase/WriteLargeBatch.kt:40-44 | with the corrected commit, a write after the commit is refused, and so is a second commit |
| `Partition.ChunksPartition` | android-firebase/src/main/kotlin/io/blushine/android/firebase/WriteLargeBatch.kt:27-34 | the reference split has the coordinator's shape: at least one part, none above 500, all but the last full, and the last empty only when it is alone; joining the parts gives back the input |
| `Partition.ChunksCount` | android-firebase/src/main/kotlin/io/blushine/android/firebase/WriteLargeBatch.kt:27-34 | N writes give max(1, ceil(N/500)) parts |
| `Partition.ChunkPosition` | android-firebase/src/main/kotlin/io/blushine/android/firebase/WriteLargeBatch.kt:27-34 | write k (from 0) is in part k / 500, at position k % 500; so write 501 is the first write of the second part |
| `Partition.PartitionIsChunks` | android-firebase/src/main/kotlin/io/blushine/android/firebase/WriteLargeBatch.kt:27-34 | any split with the coordinator's shape that joins back to s is the reference split of s |
| `Partition.PlacePreserves` | android-firebase/src/main/kotlin/io/blushine/android/firebase/WriteLargeBatch.kt:27-34 | one allocation step keeps the shape, and the joined logs gain exactly the new write at the end |
| `Partition.PlaceChunks` | android-firebase/src/main/kotlin/io/blushine/android/firebase/WriteLargeBatch.kt:27-34 | applying the allocation policy to the reference split of s, with one more write x, gives the reference split of s + [x] |
| `LargeBatch.CommitOutcome` | android-firebase/src/main/kotlin/io/blushine/android/firebase/WriteLargeBatch.kt:94-101 | the aggregate a commit returns, over the earlier tasks plus one submission per entry, succeeds exactly when every earlier task and every new submission succeeds |
| `Tasks.WhenAllCompletion` | android-firebase/src/main/kotlin/io/blushine/android/firebase/WriteLargeBatch.kt:101 | (assumption about the task library) the aggregate succeeds iff every submission succeeds; when it fails, its failure is a real submission failure, and every submission before it succeeded |

## Left out

- The Firestore SDK is not part of this model. This covers what a write batch does with payloads, set options, field paths and object mapping, and what submitting a batch does on the network. Each write is only an opaque log entry, and a submission is only a `Submitted(handle, log)` token.
- The store batch's own commit guard is not modelled. `RecordAfterCommitAsWritten` shows only the coordinator's behaviour. In the program, the store's guard changes three things:
  - A write after a commit into a last batch that is not full throws from the store's buffering call (`WriteLargeBatch.kt:48` and the like). The counter has already been raised at line 32.
  - A second `commit()` throws at batch 0's `commit()` (line 97) before line 98 adds any task.
  - A write after a commit slips through only when the last batch is full. Lines 28-29 then open a fresh batch, and no later commit ever reaches it.
- The invariant `count == |writes|` assumes that every store call succeeds. `WriteLargeBatch.kt:32` raises the counter before the store call (line 48 and the like), so a store call that throws leaves the counter one above the batch's writes. `RecordPairs` models this for rejected update arguments, and then promises no invariant; the other store errors are not modelled.
- `LargeBatch.WriteLargeBatch.RecordPairs`: after a rejected call, the model takes no further call, because every other method requires the invariant, which no longer holds. In the program, a caller can catch the exception and go on, and the counters then drift from the logs. For example, `update(d, "a", 1)` (rejected as written, and caught) followed by 500 `set`s leaves batch 0 sealed at counter 500 with 499 writes, and the 500th `set` opens batch 1. So 500 accepted writes give 2 entries, not 1, and the counters sum to 501. `WellFormedIsChunks`, `WellFormedCounters` and `CommitRound` hold only while no store call has been rejected. That every counter stays within [0, 500] holds in the program in every state, but the model proves it only for states that satisfy the invariant.
- `LargeBatch.WriteLargeBatch.UpdateField`: it models the call with the trailing pairs spread, as evidently intended, not the unspread array of line 78 (see Findings); `UpdatePairsAsWritten` models that array. The store's pairs rule is an assumption about the store client, whose code is not part of this model.
- `LargeBatch.WriteLargeBatch.UpdateFieldPath`: it models the call with the trailing pairs spread, as evidently intended, not the unspread array of line 84 (see Findings); `UpdatePairsAsWritten` models that array. The store's pairs rule is an assumption about the store client, as for `UpdateField`.
- `Tasks.WhenAllCompletion`: asynchronous completion is the task library's. It is stated here as an assumption about that library and is not connected to the store. The library waits for every task and wraps the failure in an exception of its own; here the aggregate fails with the first failed submission's error, in list order, because completion timing is not modelled.
- The store-client constructor parameter is dropped. Its `batch()` call is modelled as a fresh, empty operation log.
- The mutable pairs and the batch objects are modelled as values in a `seq` field, not as heap objects. They never leave the coordinator, so no aliasing is lost. A handle is the entry's index.
- Exceptions are modelled as `Result` values.
- The one-line `FirebaseFirestore.largeBatch()` factory (`WriteLargeBatch.kt:105-107`) is left out; the constructor covers it.
- `FirebaseAuth.kt` and `FirebaseSignInEvent.kt` are left out. They are platform sign-in glue and a plain event record, with no logic of the coordinator's.
- Concurrent use is not modelled; the coordinator is single-threaded.

## Findings

| source | as written | input that shows it | evidently intended | confidence | as-written member | corrected member |
|---|---|---|---|---|---|---|
| android-firebase/src/main/kotlin/io/blushine/android/firebase/WriteLargeBatch.kt:16 | the coordinator's own guard never fires: `commited` starts false and is never assigned again, so the check at lines 40-44 passes; the coordinator accepts writes after `commit()`, and a second `commit()` submits the same batches again (the store's own guard is not modelled) | `commit()`, then `set(d, m)`, then `commit()` | `commit()` sets the flag; later recording calls and commits fail with `IllegalStateException` | high; not executed | `LargeBatch.RecordAfterCommitAsWritten` | `LargeBatch.WriteLargeBatch.CommitOnce` |
| android-firebase/src/main/kotlin/io/blushine/android/firebase/WriteLargeBatch.kt:78 | `moreFieldsAndValues` is passed without the spread operator, so the store receives the array as one trailing argument and rejects the call; the counter has already been raised at line 32; the same holds at line 84 | `update(d, "a", 1, "b", 2)` | `*moreFieldsAndValues`, so the store receives the field/value pairs | high; not executed | `LargeBatch.UnspreadUpdateAsWritten` | `LargeBatch.WriteLargeBatch.UpdateField` |
