/**
 * The large-batch write coordinator: it records any number of writes, spreads them
 * over store-native batches of at most MaxBatchWrites writes each, and on commit
 * submits every batch in list order.
 *
 * Each list entry pairs a store-native batch with the number of writes routed to it.
 * The store-native batch is modelled by its operation log, so an entry is a value
 * `SubBatch(writes, count)`; the list is a field the methods reassign. A batch's
 * handle is its position in the list, which never changes since the list only grows.
 */
module LargeBatch {
  import opened Wrappers
  import opened Writes
  import opened Partition
  import opened Tasks

  /**
   * The exceptions a recording call can end with: the coordinator's own guard once it
   * is committed, or the store client's argument error for trailing update arguments
   * that do not come in field/value pairs.
   */
  datatype BatchError = AlreadyCommitted | StoreRejected

  /** One list entry: the log of a store-native batch and its write counter. */
  datatype SubBatch = SubBatch(writes: seq<Write>, count: nat)

  /** The pending result of submitting one batch: its handle and the writes it carries. */
  datatype Task = Submitted(batch: nat, writes: seq<Write>)

  /** The aggregate result returned by commit, waiting on every listed task. */
  datatype Aggregate = WhenAll(tasks: seq<Task>)

  function Logs(bs: seq<SubBatch>): seq<seq<Write>>
  {
    seq(|bs|, i requires 0 <= i < |bs| => bs[i].writes)
  }

  function TaskWrites(ts: seq<Task>): seq<seq<Write>>
  {
    seq(|ts|, i requires 0 <= i < |ts| => ts[i].writes)
  }

  /** One submission per entry, in list order. */
  function Submissions(bs: seq<SubBatch>): seq<Task>
  {
    seq(|bs|, i requires 0 <= i < |bs| => Submitted(i, bs[i].writes))
  }

  /** The sum of all counters. */
  function TotalCount(bs: seq<SubBatch>): nat
  {
    if bs == [] then 0 else TotalCount(bs[..|bs| - 1]) + bs[|bs| - 1].count
  }

  /**
   * The coordinator's invariant, for the list `bs` after the writes `recorded`:
   * every counter counts its batch's writes, the logs have the shape of a partition,
   * and joined in list order they give back the writes in call order.
   */
  predicate WellFormed(bs: seq<SubBatch>, recorded: seq<Write>)
  {
    && (forall i | 0 <= i < |bs| :: bs[i].count == |bs[i].writes|)
    && IsPartition(Logs(bs))
    && Flatten(Logs(bs)) == recorded
  }

  lemma {:induction false} TotalCountIsLength(bs: seq<SubBatch>)
    requires forall i | 0 <= i < |bs| :: bs[i].count == |bs[i].writes|
    ensures TotalCount(bs) == |Flatten(Logs(bs))|
    decreases |bs|
  {
    if bs != [] {
      var n := |bs| - 1;
      assert Logs(bs[..n]) == Logs(bs)[..n];
      TotalCountIsLength(bs[..n]);
    }
  }

  /**
   * After any sequence of recording calls: the logs are the reference partition of the
   * writes, so there are max(1, ceil(N / MaxBatchWrites)) entries.
   */
  lemma WellFormedIsChunks(bs: seq<SubBatch>, recorded: seq<Write>)
    requires WellFormed(bs, recorded)
    ensures Logs(bs) == Chunks(recorded)
    ensures |bs| == BatchCount(|recorded|)
  {
    PartitionIsChunks(Logs(bs), recorded);
    ChunksCount(recorded);
  }

  /**
   * After any sequence of recording calls: every counter is within [0, MaxBatchWrites],
   * every entry but the last is full, and the counters add up to the number of writes.
   */
  lemma WellFormedCounters(bs: seq<SubBatch>, recorded: seq<Write>)
    requires WellFormed(bs, recorded)
    ensures forall i | 0 <= i < |bs| :: bs[i].count <= MaxBatchWrites
    ensures forall i | 0 <= i < |bs| - 1 :: bs[i].count == MaxBatchWrites
    ensures TotalCount(bs) == |recorded|
  {
    TotalCountIsLength(bs);
    assert forall i | 0 <= i < |bs| :: bs[i].count == |Logs(bs)[i]|;
  }

  /**
   * One commit round submits every entry exactly once, in list order, and together
   * the submissions carry every recorded write once, in call order.
   */
  lemma CommitRound(bs: seq<SubBatch>, recorded: seq<Write>)
    requires WellFormed(bs, recorded)
    ensures |Submissions(bs)| == BatchCount(|recorded|)
    ensures forall i | 0 <= i < |bs| :: Submissions(bs)[i].batch == i
    ensures Flatten(TaskWrites(Submissions(bs))) == recorded
  {
    WellFormedIsChunks(bs, recorded);
    assert TaskWrites(Submissions(bs)) == Logs(bs);
  }

  /** The list after the counter step: a fresh entry when the last one is full, then the last counter raised. */
  function Reserve(bs: seq<SubBatch>): seq<SubBatch>
    requires |bs| >= 1
  {
    var grown := if bs[|bs| - 1].count == MaxBatchWrites then bs + [SubBatch([], 0)] else bs;
    var last := |grown| - 1;
    grown[last := grown[last].(count := grown[last].count + 1)]
  }

  /** The list after one accepted recording call: the counter step, then the write buffered in the last entry. */
  function AfterRecord(bs: seq<SubBatch>, w: Write): seq<SubBatch>
    requires |bs| >= 1
  {
    var reserved := Reserve(bs);
    var last := |reserved| - 1;
    reserved[last := reserved[last].(writes := reserved[last].writes + [w])]
  }

  /**
   * The counter step on its own leaves the last counter one above the number of writes
   * buffered in the last entry, and every other entry as it was.
   */
  lemma ReserveOutrunsLog(bs: seq<SubBatch>, recorded: seq<Write>)
    requires WellFormed(bs, recorded)
    ensures |Reserve(bs)| >= 1
    ensures Reserve(bs)[|Reserve(bs)| - 1].count == |Reserve(bs)[|Reserve(bs)| - 1].writes| + 1
    ensures Reserve(bs)[..|bs| - 1] == bs[..|bs| - 1]
  {
  }

  /**
   * What one accepted recording call does to the list: `w` is placed by the allocation
   * policy, the list grows by at most one entry and only when the last entry was full,
   * the entries before the old last one are untouched, and the counters add up to one more.
   */
  predicate RecordStep(before: seq<SubBatch>, after: seq<SubBatch>, w: Write)
  {
    && |before| >= 1
    && after == AfterRecord(before, w)
    && Logs(after) == Place(Logs(before), w)
    && |before| <= |after| <= |before| + 1
    && (|after| == |before| + 1 <==> before[|before| - 1].count == MaxBatchWrites)
    && after[..|before| - 1] == before[..|before| - 1]
    && TotalCount(after) == TotalCount(before) + 1
  }

  /** An accepted recording call keeps the invariant, with the new write appended. */
  lemma RecordPreserves(bs: seq<SubBatch>, recorded: seq<Write>, w: Write)
    requires WellFormed(bs, recorded)
    ensures WellFormed(AfterRecord(bs, w), recorded + [w])
    ensures RecordStep(bs, AfterRecord(bs, w), w)
  {
    var after := AfterRecord(bs, w);
    var last := |bs| - 1;
    if bs[last].count == MaxBatchWrites {
      var empty: seq<Write> := [];
      assert empty + [w] == [w];
      assert after == bs + [SubBatch([w], 1)];
      assert Logs(after) == Logs(bs) + [[w]];
    } else {
      assert Logs(after) == Logs(bs)[..last] + [Logs(bs)[last] + [w]];
    }
    PlacePreserves(Logs(bs), w);
    WellFormedCounters(bs, recorded);
    WellFormedCounters(after, recorded + [w]);
  }

  /** How an aggregate completes, given how each of its tasks completed. */
  function Outcome(a: Aggregate, done: Task -> Completion): Completion
  {
    WhenAllCompletion(Completions(a.tasks, done))
  }

  function Completions(ts: seq<Task>, done: Task -> Completion): seq<Completion>
  {
    seq(|ts|, i requires 0 <= i < |ts| => done(ts[i]))
  }

  /**
   * The aggregate a commit returns, over the earlier tasks and one submission per entry,
   * succeeds exactly when every one of those tasks succeeds; in this model, which leaves
   * out the store batch's own commit guard, a task of an earlier round that failed also
   * fails every later commit's aggregate.
   */
  lemma CommitOutcome(earlier: seq<Task>, bs: seq<SubBatch>, done: Task -> Completion)
    ensures Outcome(WhenAll(earlier + Submissions(bs)), done) == Succeeded <==>
              && (forall i | 0 <= i < |earlier| :: done(earlier[i]) == Succeeded)
              && (forall i | 0 <= i < |bs| :: done(Submitted(i, bs[i].writes)) == Succeeded)
  {
    var ts := earlier + Submissions(bs);
    var results := Completions(ts, done);
    assert Outcome(WhenAll(ts), done) == WhenAllCompletion(results);
    assert forall i | 0 <= i < |earlier| :: results[i] == done(earlier[i]);
    assert forall i | 0 <= i < |bs| :: results[|earlier| + i] == done(Submitted(i, bs[i].writes));
    assert forall i | |earlier| <= i < |results| ::
      results[i] == done(Submitted(i - |earlier|, bs[i - |earlier|].writes));
  }

  class WriteLargeBatch {
    var batches: seq<SubBatch>
    var committed: bool
    var internalTasks: seq<Task>
    /** Every write recorded so far, in call order. */
    ghost var recorded: seq<Write>

    ghost predicate Valid()
      reads this
    {
      WellFormed(batches, recorded)
    }

    /** Starts with one empty entry and the commit flag cleared. */
    constructor ()
      ensures Valid()
      ensures batches == [SubBatch([], 0)]
      ensures !committed && internalTasks == [] && recorded == []
    {
      batches := [SubBatch([], 0)];
      committed := false;
      internalTasks := [];
      recorded := [];
      assert Logs([SubBatch([], 0)]) == [[]];
      FlattenSingle<Write>([]);
    }

    /** Fails with AlreadyCommitted exactly when the commit flag is set. */
    method CheckForCommit() returns (e: Option<BatchError>)
      ensures e == None <==> !committed
      ensures e.Some? ==> e.value == AlreadyCommitted
    {
      if committed {
        e := Some(AlreadyCommitted);
      } else {
        e := None;
      }
    }

    /**
     * Opens a new entry only when the last one is full, then counts one more write
     * against the last entry and returns its handle. Earlier entries are untouched.
     */
    method GetAvailableBatch() returns (handle: nat)
      requires Valid()
      modifies this`batches
      ensures handle == |batches| - 1
      ensures batches == Reserve(old(batches))
      ensures old(batches[|batches| - 1].count) == MaxBatchWrites ==>
                batches == old(batches) + [SubBatch([], 1)]
      ensures old(batches[|batches| - 1].count) < MaxBatchWrites ==>
                var last := old(batches[|batches| - 1]);
                batches == old(batches[..|batches| - 1]) + [last.(count := last.count + 1)]
    {
      if batches[|batches| - 1].count == MaxBatchWrites {
        batches := batches + [SubBatch([], 0)];
      }
      var last := |batches| - 1;
      batches := batches[last := batches[last].(count := batches[last].count + 1)];
      handle := last;
    }

    /** Buffers one write in the log of the store-native batch `handle`; no I/O. */
    method BufferWrite(handle: nat, w: Write)
      requires handle < |batches|
      modifies this`batches
      ensures batches == old(batches[handle := batches[handle].(writes := batches[handle].writes + [w])])
    {
      batches := batches[handle := batches[handle].(writes := batches[handle].writes + [w])];
    }

    /**
     * The store client's update call with trailing arguments `args`: it buffers `w` in
     * batch `handle` only when the arguments come in field/value pairs, and otherwise
     * rejects the call and buffers nothing (an assumption about the store client).
     */
    method StoreUpdate(handle: nat, w: Write, args: seq<Value>) returns (accepted: bool)
      requires handle < |batches|
      modifies this`batches
      ensures accepted == PairsAccepted(args)
      ensures accepted ==> batches == old(batches[handle := batches[handle].(writes := batches[handle].writes + [w])])
      ensures !accepted ==> batches == old(batches)
    {
      accepted := PairsAccepted(args);
      if accepted {
        BufferWrite(handle, w);
      }
    }

    /**
     * The effect of one recording call `w` with result `r`: on a committed coordinator,
     * the error and no change; otherwise the coordinator itself is returned, `w` is
     * placed by the allocation policy, the list grows by at most one entry and only
     * when the last entry was full, entries before the old last one are untouched, and
     * the counters add up to one more. The commit flag and the tasks never change.
     */
    twostate predicate Recorded(w: Write, new r: Result<WriteLargeBatch, BatchError>)
      reads this
    {
      && committed == old(committed)
      && internalTasks == old(internalTasks)
      && (old(committed) ==>
            r == Failure(AlreadyCommitted) && batches == old(batches) && recorded == old(recorded))
      && (!old(committed) ==>
            && r == Success(this)
            && recorded == old(recorded) + [w]
            && RecordStep(old(batches), batches, w))
    }

    /** What every recording overload does: check the flag, pick a batch, buffer the write. */
    method Record(w: Write) returns (r: Result<WriteLargeBatch, BatchError>)
      requires Valid()
      modifies this
      ensures Valid() && Recorded(w, r)
    {
      var e := CheckForCommit();
      if e.Some? {
        return Failure(e.value);
      }
      ghost var before := batches;
      RecordPreserves(before, recorded, w);
      var handle := GetAvailableBatch();
      BufferWrite(handle, w);
      assert batches == AfterRecord(before, w);
      recorded := recorded + [w];
      r := Success(this);
    }

    /**
     * The effect of one pair-taking update call `w` whose trailing arguments reach the
     * store as `args`: when the store accepts them, the effect of any recording call;
     * when it rejects them, either the commit error with no change, or, after the counter
     * step has been taken, the store's argument error with the last counter one above the
     * writes buffered in its batch. The commit flag and the tasks never change.
     */
    twostate predicate RecordedPairs(w: Write, args: seq<Value>, new r: Result<WriteLargeBatch, BatchError>)
      reads this
    {
      && committed == old(committed)
      && internalTasks == old(internalTasks)
      && (PairsAccepted(args) ==> WellFormed(batches, recorded) && Recorded(w, r))
      && (!PairsAccepted(args) ==> recorded == old(recorded))
      && (!PairsAccepted(args) && old(committed) ==>
            r == Failure(AlreadyCommitted) && batches == old(batches))
      && (!PairsAccepted(args) && !old(committed) ==>
            && r == Failure(StoreRejected)
            && |old(batches)| >= 1
            && batches == Reserve(old(batches))
            && |batches| >= 1
            && batches[|batches| - 1].count == |batches[|batches| - 1].writes| + 1)
    }

    /**
     * What both pair-taking update overloads do (WriteLargeBatch.kt:76-86): check the
     * flag, take the counter step, then hand the trailing arguments to the store client,
     * which buffers the write only when it accepts them.
     */
    method RecordPairs(w: Write, args: seq<Value>) returns (r: Result<WriteLargeBatch, BatchError>)
      requires Valid()
      modifies this
      ensures RecordedPairs(w, args, r)
    {
      var e := CheckForCommit();
      if e.Some? {
        return Failure(e.value);
      }
      ghost var before := batches;
      RecordPreserves(before, recorded, w);
      ReserveOutrunsLog(before, recorded);
      var handle := GetAvailableBatch();
      var accepted := StoreUpdate(handle, w, args);
      if accepted {
        assert batches == AfterRecord(before, w);
        recorded := recorded + [w];
        r := Success(this);
      } else {
        r := Failure(StoreRejected);
      }
    }

    /**
     * The two pair-taking update overloads as WriteLargeBatch.kt:76-86 write them: the
     * caller's array of pairs reaches the store as one argument, without the spread
     * operator, after the counter step has already been taken. The store rejects the
     * call, so the last counter is left one above the writes buffered in its batch.
     */
    method UpdatePairsAsWritten(doc: DocumentRef, change: UpdateData) returns (r: Result<WriteLargeBatch, BatchError>)
      requires Valid()
      requires change.ByName? || change.ByPath?
      modifies this
      ensures RecordedPairs(UpdateWrite(doc, change), Unspread(change.more), r)
      ensures committed == old(committed) && internalTasks == old(internalTasks)
      ensures recorded == old(recorded)
      ensures old(committed) ==> r == Failure(AlreadyCommitted) && batches == old(batches)
      ensures !old(committed) ==>
                && r == Failure(StoreRejected)
                && |old(batches)| >= 1
                && batches == Reserve(old(batches))
                && batches[|batches| - 1].count == |batches[|batches| - 1].writes| + 1
    {
      UnspreadRejected(change.more);
      r := RecordPairs(UpdateWrite(doc, change), Unspread(change.more));
    }

    method Set(doc: DocumentRef, data: map<string, Value>) returns (r: Result<WriteLargeBatch, BatchError>)
      requires Valid()
      modifies this
      ensures Valid() && Recorded(SetWrite(doc, FieldMap(data), None), r)
    {
      r := Record(SetWrite(doc, FieldMap(data), None));
    }

    method SetWithOptions(doc: DocumentRef, data: map<string, Value>, options: SetOptions)
      returns (r: Result<WriteLargeBatch, BatchError>)
      requires Valid()
      modifies this
      ensures Valid() && Recorded(SetWrite(doc, FieldMap(data), Some(options)), r)
    {
      r := Record(SetWrite(doc, FieldMap(data), Some(options)));
    }

    method SetObject(doc: DocumentRef, pojo: Value) returns (r: Result<WriteLargeBatch, BatchError>)
      requires Valid()
      modifies this
      ensures Valid() && Recorded(SetWrite(doc, Pojo(pojo), None), r)
    {
      r := Record(SetWrite(doc, Pojo(pojo), None));
    }

    method SetObjectWithOptions(doc: DocumentRef, pojo: Value, options: SetOptions)
      returns (r: Result<WriteLargeBatch, BatchError>)
      requires Valid()
      modifies this
      ensures Valid() && Recorded(SetWrite(doc, Pojo(pojo), Some(options)), r)
    {
      r := Record(SetWrite(doc, Pojo(pojo), Some(options)));
    }

    method Update(doc: DocumentRef, data: map<string, Value>) returns (r: Result<WriteLargeBatch, BatchError>)
      requires Valid()
      modifies this
      ensures Valid() && Recorded(UpdateWrite(doc, UpdateMap(data)), r)
    {
      r := Record(UpdateWrite(doc, UpdateMap(data)));
    }

    method UpdateField(doc: DocumentRef, field: string, value: Value, more: seq<Value>)
      returns (r: Result<WriteLargeBatch, BatchError>)
      requires Valid()
      modifies this
      ensures RecordedPairs(UpdateWrite(doc, ByName(field, value, more)), more, r)
    {
      r := RecordPairs(UpdateWrite(doc, ByName(field, value, more)), more);
    }

    method UpdateFieldPath(doc: DocumentRef, path: FieldPath, value: Value, more: seq<Value>)
      returns (r: Result<WriteLargeBatch, BatchError>)
      requires Valid()
      modifies this
      ensures RecordedPairs(UpdateWrite(doc, ByPath(path, value, more)), more, r)
    {
      r := RecordPairs(UpdateWrite(doc, ByPath(path, value, more)), more);
    }

    method Delete(doc: DocumentRef) returns (r: Result<WriteLargeBatch, BatchError>)
      requires Valid()
      modifies this
      ensures Valid() && Recorded(DeleteWrite(doc), r)
    {
      r := Record(DeleteWrite(doc));
    }

    /**
     * Submits every entry's batch, in list order, appending one task per entry to the
     * tasks of earlier commits, and returns the aggregate over all tasks so far. As in
     * WriteLargeBatch.kt, the commit flag is left as it was, so commit can be called again.
     */
    method Commit() returns (all: Aggregate)
      requires Valid()
      modifies this`internalTasks
      ensures Valid()
      ensures internalTasks == old(internalTasks) + Submissions(batches)
      ensures all == WhenAll(internalTasks)
    {
      var i := 0;
      while i < |batches|
        invariant 0 <= i <= |batches|
        invariant internalTasks == old(internalTasks) + Submissions(batches)[..i]
      {
        internalTasks := internalTasks + [Submitted(i, batches[i].writes)];
        i := i + 1;
      }
      all := WhenAll(internalTasks);
    }

    /**
     * Commit as the guard of WriteLargeBatch.kt:36-44 intends it: a second call fails with
     * AlreadyCommitted and submits nothing; the first sets the commit flag.
     */
    method CommitOnce() returns (r: Result<Aggregate, BatchError>)
      requires Valid()
      modifies this`internalTasks, this`committed
      ensures Valid()
      ensures committed
      ensures old(committed) ==> r == Failure(AlreadyCommitted) && internalTasks == old(internalTasks)
      ensures !old(committed) ==>
                internalTasks == old(internalTasks) + Submissions(batches) && r == Success(WhenAll(internalTasks))
    {
      var e := CheckForCommit();
      if e.Some? {
        return Failure(e.value);
      }
      var all := Commit();
      committed := true;
      r := Success(all);
    }
  }

  /**
   * As written, commit leaves the flag cleared: a write recorded after a commit is
   * accepted, and the next commit submits the same batch a second time.
   */
  method RecordAfterCommitAsWritten(w: Write) returns (accepted: bool, submitted: seq<Task>)
    ensures accepted
    ensures submitted == [Submitted(0, []), Submitted(0, [w])]
  {
    var empty: seq<Write> := [];
    assert empty + [w] == [w];
    assert Reserve([SubBatch([], 0)]) == [SubBatch([], 1)];
    assert AfterRecord([SubBatch([], 0)], w) == [SubBatch([w], 1)];
    assert Submissions([SubBatch([], 0)]) == [Submitted(0, [])];
    assert Submissions([SubBatch([w], 1)]) == [Submitted(0, [w])];
    var b := new WriteLargeBatch();
    var first := b.Commit();
    assert b.internalTasks == [Submitted(0, [])];
    assert b.batches == [SubBatch([], 0)] && !b.committed;
    var r := b.Record(w);
    assert r == Success(b) && b.batches == AfterRecord([SubBatch([], 0)], w);
    accepted := r.Success?;
    assert b.batches == [SubBatch([w], 1)];
    var second := b.Commit();
    assert b.internalTasks == [Submitted(0, [])] + [Submitted(0, [w])];
    submitted := second.tasks;
  }

  /** With the commit flag set by commit, both a later write and a second commit are refused. */
  method RecordAfterCommitOnce(w: Write) returns (accepted: bool, recommitted: bool)
    ensures !accepted
    ensures !recommitted
  {
    var b := new WriteLargeBatch();
    var first := b.CommitOnce();
    var r := b.Record(w);
    accepted := r.Success?;
    var second := b.CommitOnce();
    recommitted := second.Success?;
  }

  /**
   * As written, a pair-taking update on a fresh coordinator is rejected by the store,
   * yet its batch's counter already says one write while the batch holds none.
   */
  method UnspreadUpdateAsWritten(doc: DocumentRef, field: string, value: Value, more: seq<Value>)
    returns (accepted: bool, counted: nat, buffered: nat)
    ensures !accepted
    ensures counted == 1 && buffered == 0
  {
    assert Reserve([SubBatch([], 0)]) == [SubBatch([], 1)];
    var b := new WriteLargeBatch();
    var r := b.UpdatePairsAsWritten(doc, ByName(field, value, more));
    accepted := r.Success?;
    counted := b.batches[0].count;
    buffered := |b.batches[0].writes|;
  }

  /**
   * With the pairs spread, the same update reaches the store as the caller's pairs: it is
   * buffered, with the counter matching the batch, exactly when the trailing values come in
   * pairs; a caller's odd count is still the store's argument error, counted but not buffered.
   */
  method SpreadUpdateCorrected(doc: DocumentRef, field: string, value: Value, more: seq<Value>)
    returns (accepted: bool, counted: nat, buffered: nat)
    ensures accepted <==> PairsAccepted(more)
    ensures counted == 1
    ensures buffered == if accepted then 1 else 0
  {
    var w := UpdateWrite(doc, ByName(field, value, more));
    var empty: seq<Write> := [];
    assert empty + [w] == [w];
    assert Reserve([SubBatch([], 0)]) == [SubBatch([], 1)];
    assert AfterRecord([SubBatch([], 0)], w) == [SubBatch([w], 1)];
    var b := new WriteLargeBatch();
    var r := b.UpdateField(doc, field, value, more);
    accepted := r.Success?;
    counted := b.batches[0].count;
    buffered := |b.batches[0].writes|;
  }
}
