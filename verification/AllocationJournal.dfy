/** The allocation journal (runner/allocation_usage.py): receipts written once, permanent
    quarantine, three in-memory indexes over durable files, and a Pod deletion that waits
    for harvested output. */
module AllocationJournal {
  import opened Common
  import opened Rotation
  import opened AllocationEvidence
  import opened PodDeletion
  import opened NewestWork
  import Ops = OperationJournal

  // ---------- files and the operations they belong to ----------

  /** The file's origin is the operation that created the Pod. */
  predicate Roots(j: Joint, uid: Id) {
    uid in j.files && At(j, j.files[uid].operation, uid) && EpochOf(j.runner, j.files[uid].operation) == j.files[uid].epoch
  }

  ghost predicate Rooted(j: Joint) {
    forall uid {:trigger Roots(j, uid)} :: uid in j.files ==> Roots(j, uid)
  }

  lemma WorkKeepsRoots(j: Joint, step: Ops.Step, uid: Id)
    requires Kept(j) && Ops.Possible(j.runner, step) && Roots(j, uid)
    ensures Roots(Worked(j, step), uid)
  {
    var op := j.files[uid].operation;
    assert Placed(j, op);
    FollowsStays(j.runner, step, op, j.newest[uid]);
  }

  /** A file keeps its origin, and a new one has it from the operation that it is opened for. */
  lemma {:induction false} StepKeepsRooted(j: Joint, step: Step)
    requires Kept(j) && Rooted(j) && Possible(j, step)
    requires forall uid :: uid in j.files ==>
               uid in Next(j, step).files && SameIdentity(j.files[uid], Next(j, step).files[uid])
    requires step.Open? ==> step.file.operation == step.operation && step.file.epoch == EpochOf(j.runner, step.operation)
    ensures Rooted(Next(j, step))
  {
    var k := Next(j, step);
    forall uid | uid in k.files ensures Roots(k, uid) {
      if uid in j.files {
        assert Roots(j, uid);
        if step.Work? {
          WorkKeepsRoots(j, step.step, uid);
        }
      }
    }
  }

  /** A step that saves one file. */
  ghost predicate SavesFile(j: Joint, uid: Id, a: Allocation, step: Step) {
    && (uid in j.files ==> Evolves(j.files[uid], a))
    && Possible(j, step) && !Reopening(j, step) && Next(j, step).files == j.files[uid := a]
    && (step.Open? ==> step.file.operation == step.operation && step.file.epoch == EpochOf(j.runner, step.operation))
  }

  lemma SavedJoint(j: Joint, uid: Id, a: Allocation, step: Step)
    requires Kept(j) && Rooted(j) && SavesFile(j, uid, a, step)
    ensures Kept(Next(j, step)) && Rooted(Next(j, step))
  {
    StepKeepsAll(j, step);
    StepKeepsRooted(j, step);
  }

  /** How an observation that makes `a` of the file moves the joint machine. */
  function Seeing(j: Joint, record: Operation, uid: Id, a: Allocation): (step: Step) {
    if uid !in j.files then Open(uid, record.id, a)
    else if SameTask(j.files[uid], a) then Keep(uid, a) else Observe(uid, record.id, a)
  }

  /** The record is the journal's, and the Pod is the one its operation runs in. A Pod
      without a file is seen for the first time, through the operation that created it. */
  ghost predicate Linked(j: Joint, record: Operation, uid: Id) {
    && record.id in j.runner.ops && record.epoch == EpochOf(j.runner, record.id)
    && if uid in j.files then At(j, record.id, uid)
       else record.id !in j.pods && uid !in j.pods.Values && !j.runner.ops[record.id].record.bound.Session?
            && !j.runner.ops[record.id].sandbox.NoPod?
  }

  /** What the file is before the observation: as saved, or opened for the creating operation. */
  ghost predicate KnownAs(j: Joint, record: Operation, uid: Id, known: Allocation) {
    if uid in j.files then known == j.files[uid]
    else known.operation == record.id && known.epoch == record.epoch && Current(known, record.id, record.epoch) && !known.cleanupReady
  }

  lemma SeeingSaves(j: Joint, known: Allocation, record: Operation, uid: Id, a: Allocation)
    requires Linked(j, record, uid) && KnownAs(j, record, uid, known)
    requires Evolves(known, a) && Retasked(known, a, record)
    ensures SavesFile(j, uid, a, Seeing(j, record, uid, a))
  {
  }

  lemma StartSaves(j: Joint, step: Ops.Step, uid: Id)
    requires Possible(j, Work(step)) && !Ops.ReopeningStep(j.runner, step) && Begins(j, step) == Some(uid)
    ensures var op := Starts(j.runner, step).value;
            SavesFile(j, uid, Begun(j.files[uid], op, EpochOf(Ops.Next(j.runner, step), op)), Work(step))
  {
  }

  // ---------- the journal ----------

  class Journal {
    /** A Pod's containers are fixed by its spec. */
    const containersOf: Id -> seq<int>
    var files: Files
    var pending: seq<Id>
    var watch: seq<Id>
    var incomplete: set<Id>
    var cursor: nat
    /** These files beside the operations they belong to, and the deletions asked for. */
    ghost var joint: Joint
    ghost var history: seq<Files>

    /** The durable part alone: it also holds in the middle of a request and after a crash. */
    ghost predicate Durable()
      reads this`files, this`history, this`joint
    {
      && IsHistory(history, containersOf) && history[|history| - 1] == files
      && joint.files == files && Kept(joint) && Rooted(joint)
    }

    /** Between requests the indexes are exactly what a startup scan would build. */
    ghost predicate Valid()
      reads this
    {
      Durable() && Indexed(files, Indexes(pending, watch, incomplete))
    }

    constructor (containersOf: Id -> seq<int>)
      ensures Valid() && files == map[] && this.containersOf == containersOf && joint == Initial()
    {
      this.containersOf := containersOf;
      files, pending, watch, incomplete, cursor := map[], [], [], {}, 0;
      joint, history := Initial(), [map[]];
    }

    /** A restart: memory is rebuilt from the files. */
    method InitializeAllocations()
      requires Durable()
      modifies this`pending, this`watch, this`incomplete, this`cursor
      ensures Valid() && cursor == 0
    {
      var x := Scan(files);
      pending, watch, incomplete, cursor := x.pending, x.watch, x.incomplete, 0;
    }

    /** One durable save, which is a step of the joint machine. */
    method Save(uid: Id, a: Allocation, ghost step: Step)
      requires Durable() && FileOk(uid, containersOf(uid), a) && SavesFile(joint, uid, a, step)
      modifies this`files, this`history, this`joint
      ensures Durable() && files == old(files)[uid := a] && history == old(history) + [files]
      ensures joint == Next(old(joint), step)
    {
      SavedJoint(joint, uid, a, step);
      HistorySaved(history, containersOf, uid, a);
      joint, files := Next(joint, step), files[uid := a];
      history := history + [files];
    }

    /** The operations move on beside the files, as long as none starts in a Pod. */
    ghost method Advance(step: Ops.Step)
      requires Valid() && Possible(joint, Work(step)) && !Ops.ReopeningStep(joint.runner, step)
      requires Begins(joint, step).None?
      modifies this`joint
      ensures Valid() && joint == Next(old(joint), Work(step))
    {
      StepKeepsAll(joint, Work(step));
      StepKeepsRooted(joint, Work(step));
      joint := Next(joint, Work(step));
    }

    /** The indexes agree with `a` about one allocation whose file is about to be saved. */
    ghost predicate Listed(uid: Id, a: Allocation)
      reads this
    {
      ListedAs(files, Indexes(pending, watch, incomplete), uid, a)
    }

    /** A save together with the entry it adds to or discards from the incomplete set. */
    method SaveMarked(uid: Id, a: Allocation, marked: bool, ghost step: Step)
      requires Durable() && Listed(uid, a) && FileOk(uid, containersOf(uid), a)
      requires SavesFile(joint, uid, a, step) && (marked <==> Incomplete(a))
      modifies this`files, this`history, this`joint, this`incomplete
      ensures joint == Next(old(joint), step)
      ensures Valid() && files == old(files)[uid := a] && history == old(history) + [files]
    {
      MarkedIndexes(files, Indexes(pending, watch, incomplete), uid, a);
      incomplete := if marked then incomplete + {uid} else incomplete - {uid};
      Save(uid, a, step);
    }

    /** A save that no index depends on. */
    method SaveQuiet(uid: Id, a: Allocation, ghost step: Step)
      requires Valid() && FileOk(uid, containersOf(uid), a) && SavesFile(joint, uid, a, step)
      requires uid in files && a.acknowledged == files[uid].acknowledged
      requires a.released == files[uid].released && (Incomplete(a) <==> Incomplete(files[uid]))
      modifies this`files, this`history, this`joint
      ensures Valid() && files == old(files)[uid := a] && history == old(history) + [files] && joint == Next(old(joint), step)
    {
      PendingKept(files, pending, uid, a);
      WatchKept(files, watch, uid, a);
      IncompleteKept(files, incomplete, uid, a);
      Save(uid, a, step);
    }

    /** And that leaves the Pod's work alone. */
    method SaveKept(uid: Id, a: Allocation)
      requires Valid() && FileOk(uid, containersOf(uid), a)
      requires uid in files && Evolves(files[uid], a) && a.acknowledged == files[uid].acknowledged
      requires a.released == files[uid].released && (Incomplete(a) <==> Incomplete(files[uid]))
      requires SameTask(files[uid], a)
      modifies this`files, this`history, this`joint
      ensures joint == old(joint).(files := files)
      ensures Valid() && files == old(files)[uid := a] && history == old(history) + [files]
    {
      SaveQuiet(uid, a, Keep(uid, a));
    }

    /** The finalizer is off or the Pod is gone: nothing more is watched. */
    method Release(uid: Id)
      requires Valid() && uid in files && files[uid].receipt.Some? && !files[uid].quarantined
      modifies this`files, this`history, this`joint, this`watch
      ensures joint == old(joint).(files := files)
      ensures Valid() && files == old(files)[uid := old(files)[uid].(released := true)]
      ensures history == old(history) + [files]
    {
      ReleasedIndexes(files, Indexes(pending, watch, incomplete), uid);
      watch := Remove(watch, uid);
      Save(uid, files[uid].(released := true), Keep(uid, files[uid].(released := true)));
    }

    method MarkAcknowledged(uid: Id)
      requires Valid() && uid in files && CanDeliver(files[uid])
      modifies this`files, this`history, this`joint, this`pending
      ensures joint == old(joint).(files := files)
      ensures Valid() && files == old(files)[uid := old(files)[uid].(acknowledged := true)]
      ensures history == old(history) + [files]
    {
      AcknowledgedIndexes(files, Indexes(pending, watch, incomplete), uid);
      pending := Remove(pending, uid);
      Save(uid, files[uid].(acknowledged := true), Keep(uid, files[uid].(acknowledged := true)));
    }

    method QuarantineAllocation(uid: Id, a: Allocation, ghost step: Step)
      requires Durable() && Listed(uid, a) && FileOk(uid, containersOf(uid), a)
      requires SavesFile(joint, uid, a.(quarantined := true, pending := true), step)
      modifies this`files, this`history, this`joint, this`incomplete
      ensures joint == Next(old(joint), step)
      ensures Valid() && files == old(files)[uid := a.(quarantined := true, pending := true)]
      ensures old(history) <= history
    {
      var b := a.(quarantined := true, pending := true);
      assert Listed(uid, b) && FileOk(uid, containersOf(uid), b);
      SaveMarked(uid, b, true, step);
    }

    method ApplyObservation(known: Allocation, record: Operation, tenant: Option<int>, pod: Pod) returns (r: Result<bool>)
      requires Durable() && Listed(pod.uid, known) && FileOk(pod.uid, containersOf(pod.uid), known)
      requires pod.containers == containersOf(pod.uid) && !known.quarantined
      requires Linked(joint, record, pod.uid) && KnownAs(joint, record, pod.uid, known)
      modifies this`files, this`history, this`joint, this`incomplete
      ensures Valid() && old(history) <= history && pod.uid in files
      ensures var step := Seeing(old(joint), record, pod.uid, files[pod.uid]);
              Possible(old(joint), step) && joint == Next(old(joint), step)
      ensures r.Ok? <==> Consistent(known, record, tenant, pod)
      ensures r.Err? ==> Quarantined(old(files), files, pod.uid)
      ensures r.Ok? ==> pod.uid in files && files == old(files)[pod.uid := files[pod.uid]]
                        && Assessed(known, files[pod.uid], record, pod)
    {
      var a;
      a, r := Assess(known, record, tenant, pod);
      if r.Err? {
        QuarantineSeen(known, a, record, pod.uid);
      } else {
        SaveSeen(known, a, record, pod.uid, r.value);
      }
    }

    method QuarantineSeen(known: Allocation, a: Allocation, record: Operation, uid: Id)
      requires Durable() && Listed(uid, a) && FileOk(uid, containersOf(uid), a)
      requires Linked(joint, record, uid) && KnownAs(joint, record, uid, known)
      requires Evolves(known, a.(quarantined := true, pending := true)) && Retasked(known, a, record)
      modifies this`files, this`history, this`joint, this`incomplete
      ensures Valid() && old(history) <= history && files == old(files)[uid := a.(quarantined := true, pending := true)]
      ensures var step := Seeing(old(joint), record, uid, files[uid]); Possible(old(joint), step) && joint == Next(old(joint), step)
    {
      ghost var b := a.(quarantined := true, pending := true);
      SeeingSaves(joint, known, record, uid, b);
      QuarantineAllocation(uid, a, Seeing(joint, record, uid, b));
    }

    method SaveSeen(known: Allocation, a: Allocation, record: Operation, uid: Id, marked: bool)
      requires Durable() && Listed(uid, a) && FileOk(uid, containersOf(uid), a) && (marked <==> Incomplete(a))
      requires Linked(joint, record, uid) && KnownAs(joint, record, uid, known)
      requires Evolves(known, a) && Retasked(known, a, record)
      modifies this`files, this`history, this`joint, this`incomplete
      ensures Valid() && old(history) <= history && files == old(files)[uid := a]
      ensures var step := Seeing(old(joint), record, uid, files[uid]); Possible(old(joint), step) && joint == Next(old(joint), step)
    {
      SeeingSaves(joint, known, record, uid, a);
      SaveMarked(uid, a, marked, Seeing(joint, record, uid, a));
    }

    /** The first observation of a Pod opens its file. */
    method OpenAllocation(record: Operation, origin: Operation, pod: Pod) returns (r: Result<bool>)
      requires Valid() && pod.containers == containersOf(pod.uid) && pod.uid !in files && origin.tenant.Some?
      requires Linked(joint, record, pod.uid) && origin.id == record.id && origin.epoch == record.epoch
      modifies this`files, this`history, this`joint, this`pending, this`watch, this`incomplete
      ensures Valid() && old(history) <= history && pod.uid in files
      ensures var step := Open(pod.uid, record.id, files[pod.uid]);
              Possible(old(joint), step) && joint == Next(old(joint), step)
      ensures r.Ok? <==> Consistent(FirstSight(origin.tenant.value, record, origin, pod), record, origin.tenant, pod)
      ensures r.Err? ==> Quarantined(old(files), files, pod.uid)
      ensures r.Ok? ==> pod.uid in files && files == old(files)[pod.uid := files[pod.uid]]
      ensures r.Ok? ==> Assessed(FirstSight(origin.tenant.value, record, origin, pod), files[pod.uid], record, pod)
    {
      var uid, first := pod.uid, FirstSight(origin.tenant.value, record, origin, pod);
      OpenedIndexes(files, Indexes(pending, watch, incomplete), uid, first);
      pending, watch, incomplete := Insert(pending, uid), Insert(watch, uid), incomplete + {uid};
      r := ApplyObservation(first, record, origin.tenant, pod);
    }

    /** A Pod that is not the one its operation created: the bound allocation, if known, is suspect. */
    method QuarantineBound(bound: Option<Id>)
      requires Valid()
      modifies this`files, this`history, this`joint, this`incomplete
      ensures joint == old(joint).(files := files)
      ensures Valid() && old(history) <= history
      ensures Suspected(old(files), files, bound)
    {
      if bound.Some? && bound.value in files {
        var a := files[bound.value];
        QuarantineAllocation(bound.value, a, Keep(bound.value, a.(quarantined := true, pending := true)));
      }
    }

    /** Takes in one provider observation of a Pod. Errors leave every file as it was,
        except that the allocation whose evidence contradicts itself is quarantined. */
    method ObserveAllocation(record: Operation, origin: Operation, pod: Pod) returns (r: Result<bool>)
      requires Valid() && pod.containers == containersOf(pod.uid)
      requires OriginMatches(record, origin, pod) ==> Linked(joint, record, pod.uid)
      requires pod.uid !in files ==> origin.id == record.id && origin.epoch == record.epoch
      modifies this`files, this`history, this`joint, this`pending, this`watch, this`incomplete
      ensures joint.runner == old(joint.runner) && joint.deletions == old(joint.deletions)
      ensures joint.pods == old(joint.pods) || (pod.uid !in old(files) && joint.pods == old(joint.pods)[record.id := pod.uid])
      ensures Valid() && old(history) <= history && old(files).Keys <= files.Keys
      ensures r.Ok? <==> OriginMatches(record, origin, pod)
                         && if pod.uid in old(files) then !old(files)[pod.uid].quarantined
                                                          && Consistent(old(files)[pod.uid], record, record.tenant, pod)
                            else origin.tenant.Some?
      ensures !OriginMatches(record, origin, pod) ==>
                Suspected(old(files), files, if origin.podUid.Some? then origin.podUid else record.podUid)
      ensures OriginMatches(record, origin, pod) ==> Observed(old(files), files, record, origin, pod, r.Ok?)
    {
      var same := SameOrigin(record, origin, pod);
      if same {
        r := ObserveSame(record, origin, pod);
      } else {
        QuarantineBound(if origin.podUid.Some? then origin.podUid else record.podUid);
        r := Err("allocation origin identity changed");
      }
    }

    method ObserveSame(record: Operation, origin: Operation, pod: Pod) returns (r: Result<bool>)
      requires Valid() && pod.containers == containersOf(pod.uid) && OriginMatches(record, origin, pod)
      requires Linked(joint, record, pod.uid) && (pod.uid !in files ==> origin.id == record.id && origin.epoch == record.epoch)
      modifies this`files, this`history, this`joint, this`pending, this`watch, this`incomplete
      ensures joint.runner == old(joint.runner) && joint.deletions == old(joint.deletions)
      ensures joint.pods == old(joint.pods) || (pod.uid !in old(files) && joint.pods == old(joint.pods)[record.id := pod.uid])
      ensures Valid() && old(history) <= history
      ensures r.Ok? <==> if pod.uid in old(files) then !old(files)[pod.uid].quarantined
                                                       && Consistent(old(files)[pod.uid], record, record.tenant, pod)
                         else origin.tenant.Some?
      ensures Observed(old(files), files, record, origin, pod, r.Ok?)
    {
      if pod.uid !in files {
        if origin.tenant.None? {
          return Err("native allocation usage context unavailable");
        }
        FirstIsConsistent(record, origin, pod);
        r := OpenAllocation(record, origin, pod);
      } else if files[pod.uid].quarantined {
        r := Err("allocation evidence quarantined");
      } else {
        r := ApplyObservation(files[pod.uid], record, record.tenant, pod);
      }
    }

    /** One page of deliverable receipts, and the cursor of the next one. */
    method AllocationReceipts(after: nat, limit: int) returns (r: Result<(seq<Receipt>, nat, nat)>)
      requires Valid()
      ensures r.Err? <==> !(1 <= limit <= 64)
      ensures r.Ok? ==> r.value.1 == NextAfter(Page(pending, after, limit), limit) && r.value.2 == |incomplete|
      ensures r.Ok? ==> r.value.0 == Deliverable(files, Page(pending, after, limit))
      ensures r.Ok? ==>
                var ids := Page(pending, after, limit);
                && (forall uid :: uid in ids && Billable(files[uid]) ==> files[uid].receipt.value in r.value.0)
                && (forall receipt :: receipt in r.value.0 ==>
                      exists uid :: uid in ids && Billable(files[uid]) && files[uid].receipt == Some(receipt))
    {
      if !(1 <= limit <= 64) {
        return Err("allocation page limit");
      }
      var ids := Page(pending, after, limit);
      PageListed(pending, after, limit);
      var receipts := Collect(files, ids);
      DeliversExactly(files, ids);
      r := Ok((receipts, NextAfter(ids, limit), |incomplete|));
    }

    /** Equal receipts have equal digests and, SHA-256 being injective here, only those. */
    method AcknowledgeAllocation(uid: Id, receipt: Receipt) returns (ok: bool)
      requires Valid()
      modifies this`files, this`history, this`joint, this`pending
      ensures joint == old(joint).(files := files)
      ensures Valid() && old(history) <= history
      ensures ok <==> uid in old(files) && Billable(old(files)[uid]) && old(files)[uid].receipt == Some(receipt)
      ensures files == if ok then old(files)[uid := old(files)[uid].(acknowledged := true)] else old(files)
    {
      if uid !in files || !CanDeliver(files[uid]) || files[uid].receipt.value != receipt {
        return false;
      }
      MarkAcknowledged(uid);
      ok := true;
    }

    /** An operation starts in the Pod: `step` is its start, which takes place only if the
        file is there. The operation is now the Pod's work, whatever was it before, and the
        permission to delete the Pod is withdrawn. */
    method BeginAllocationWork(uid: Id, operation: int, epoch: int, ghost step: Ops.Step) returns (ok: bool)
      requires Valid() && Possible(joint, Work(step)) && !Ops.ReopeningStep(joint.runner, step)
      requires Starts(joint.runner, step) == Some(operation) && epoch == EpochOf(Ops.Next(joint.runner, step), operation)
      requires uid in files ==> Begins(joint, step) == Some(uid)
      modifies this`files, this`history, this`joint
      ensures Valid() && old(history) <= history && (ok <==> uid in old(files))
      ensures joint == if ok then Next(old(joint), Work(step)) else old(joint)
      ensures files == if ok then old(files)[uid := old(files)[uid].(workOperation := operation, workEpoch := epoch,
                                                                       cleanupReady := false, idleCleanupReady := false)]
                       else old(files)
    {
      if uid !in files {
        return false;
      }
      StartSaves(joint, step, uid);
      SaveQuiet(uid, Begun(files[uid], operation, epoch), Work(step));
      ok := true;
    }

    /** Only the harvest of the current work gives the permission to delete the Pod. The
        caller has just saved the operation's output. */
    method AllocationHarvested(uid: Id, operation: int, epoch: int, idle: bool)
      requires Valid() && operation in joint.runner.ops
      requires joint.runner.ops[operation].record.harvested && joint.runner.ops[operation].record.epoch == epoch
      modifies this`files, this`history, this`joint
      ensures Valid() && old(history) <= history
      ensures joint == old(joint).(files := files)
      ensures files == if uid in old(files) && Current(old(files)[uid], operation, epoch)
                       then old(files)[uid := old(files)[uid].(cleanupReady := true, idleCleanupReady := idle)] else old(files)
      ensures joint == if uid in old(files) && Current(old(files)[uid], operation, epoch)
                       then Next(old(joint), Report(uid, operation, idle)) else old(joint)
    {
      if uid !in files || files[uid].workOperation != operation || files[uid].workEpoch != epoch {
        return;
      }
      SaveReported(uid, operation, idle);
    }

    method SaveReported(uid: Id, operation: int, idle: bool)
      requires Valid() && Possible(joint, Report(uid, operation, idle))
      modifies this`files, this`history, this`joint
      ensures Valid() && old(history) <= history && joint == Next(old(joint), Report(uid, operation, idle))
    {
      SaveQuiet(uid, files[uid].(cleanupReady := true, idleCleanupReady := idle), Report(uid, operation, idle));
    }

    /** Asks for the Pod's deletion, which succeeds or fails, and takes the finalizer off once
        there is a receipt. The deletion is asked for exactly when nothing bars it, and then
        the work it names is harvested. */
    method CloseAllocation(bound: Option<Id>, deleteOk: bool, patchOk: bool)
      requires Valid()
      modifies this`files, this`history, this`joint, this`watch, this`incomplete
      ensures Valid() && old(history) <= history && joint.runner == old(joint.runner)
      ensures bound.None? ==> files == old(files) && joint.deletions == old(joint.deletions)
      ensures bound.Some? ==> Closed(bound.value, old(files), files, deleteOk && patchOk)
      ensures bound.Some? && MayDelete(old(files), bound.value) ==>
                var a, b := old(files)[bound.value], files[bound.value];
                && b.stopRequested && b.receipt == a.receipt
                && (b.released <==> a.released || (a.receipt.Some? && deleteOk && patchOk))
                && (a.receipt.None? ==> b.pending)
      ensures bound.Some? ==>
                joint.deletions == old(joint.deletions) + if MayDelete(old(files), bound.value)
                                              then [Deletion(bound.value, old(files)[bound.value].workOperation, false)] else []
    {
      if bound.Some? && bound.value in files && !files[bound.value].quarantined {
        CloseKnown(bound.value, deleteOk && patchOk);
      }
    }

    method CloseKnown(uid: Id, cleaned: bool)
      requires Valid() && uid in files && !files[uid].quarantined
      modifies this`files, this`history, this`joint, this`watch, this`incomplete
      ensures Valid() && old(history) <= history && joint.runner == old(joint.runner)
      ensures Closed(uid, old(files), files, cleaned)
      ensures joint.deletions == old(joint.deletions) + if old(files)[uid].cleanupReady
                                            then [Deletion(uid, old(files)[uid].workOperation, false)] else []
    {
      ClosedInTwo(uid, files, cleaned);
      RequestStop(uid);
      if files[uid].cleanupReady {
        FinishClose(uid, cleaned);
      }
    }

    ghost method Deletes(uid: Id)
      requires Valid() && MayDelete(files, uid)
      modifies this`joint
      ensures Valid() && joint == Next(old(joint), Delete(uid))
    {
      StepKeepsAll(joint, Delete(uid));
      StepKeepsRooted(joint, Delete(uid));
      joint := Next(joint, Delete(uid));
    }

    method RequestStop(uid: Id)
      requires Valid() && uid in files
      modifies this`files, this`history, this`joint
      ensures joint == old(joint).(files := files)
      ensures Valid() && files == old(files)[uid := old(files)[uid].(stopRequested := true)]
      ensures old(history) <= history
    {
      SaveKept(uid, files[uid].(stopRequested := true));
    }

    method FinishClose(uid: Id, cleaned: bool)
      requires Valid() && uid in files && !files[uid].quarantined && files[uid].cleanupReady
      modifies this`files, this`history, this`joint, this`watch, this`incomplete
      ensures Valid() && old(history) <= history && joint.runner == old(joint.runner)
      ensures files == old(files)[uid := CleanedUp(old(files)[uid], cleaned)]
      ensures joint.deletions == old(joint.deletions) + [Deletion(uid, old(files)[uid].workOperation, false)]
    {
      Deletes(uid);
      SaveCleaned(uid, cleaned);
    }

    method SaveCleaned(uid: Id, cleaned: bool)
      requires Valid() && uid in files && !files[uid].quarantined
      modifies this`files, this`history, this`joint, this`watch, this`incomplete
      ensures Valid() && old(history) <= history && joint == old(joint).(files := files)
      ensures files == old(files)[uid := CleanedUp(old(files)[uid], cleaned)]
    {
      var a := files[uid];
      if a.receipt.None? {
        SaveMarked(uid, a.(pending := true), true, Keep(uid, a.(pending := true)));
      } else if cleaned {
        Release(uid);
      } else {
        SaveKept(uid, a);
      }
    }

    /** The terminal save of an operation with its harvested output. */
    ghost method Completes(operation: Ops.Op, status: Ops.Status)
      requires Valid() && operation in joint.runner.ops
      requires Ops.Enabled(joint.runner.ops[operation], Ops.ByOutcome(Ops.Complete(status))) && !Behind(joint, operation)
      modifies this`joint
      ensures Valid() && joint == old(joint).(runner := joint.runner) && DoneNow(joint.runner, operation)
      ensures EpochOf(joint.runner, operation) == old(EpochOf(joint.runner, operation))
    {
      ThreadStep(joint, operation, Ops.ByOutcome(Ops.Complete(status)));
      Advance(Ops.Happen(operation, Ops.ByOutcome(Ops.Complete(status))));
    }

    /** The end of a Python operation's thread: its terminal save with harvested output, the
        report, and the Pod's deletion unless the Pod stays frozen for its session. The Pod is
        deleted exactly if it is not quarantined and this operation, or another that is
        harvested, is its current work. */
    method Conclude(uid: Id, operation: int, epoch: int, frozen: bool, ghost status: Ops.Status, deleteOk: bool, patchOk: bool)
      requires Valid() && operation in joint.runner.ops && EpochOf(joint.runner, operation) == epoch
      requires Ops.Enabled(joint.runner.ops[operation], Ops.ByOutcome(Ops.Complete(status))) && !Behind(joint, operation)
      modifies this`files, this`history, this`joint, this`watch, this`incomplete
      ensures Valid() && old(history) <= history && DoneNow(joint.runner, operation)
      ensures joint.deletions == old(joint.deletions) +
                if !frozen && uid in old(files) && !old(files)[uid].quarantined
                   && (Current(old(files)[uid], operation, epoch) || old(files)[uid].cleanupReady)
                then [Deletion(uid, old(files)[uid].workOperation, false)] else []
    {
      Completes(operation, status);
      AllocationHarvested(uid, operation, epoch, frozen);
      if !frozen {
        CloseAllocation(Some(uid), deleteOk, patchOk);
      }
    }

    /** Chooses the allocations of one housekeeping pass. */
    method NextPass() returns (ids: seq<Id>)
      requires Valid()
      modifies this`cursor
      ensures Valid()
      ensures ids == Page(watch, old(cursor), HOUSEKEEPING_PAGE) && cursor == NextAfter(ids, HOUSEKEEPING_PAGE)
    {
      ids := Page(watch, cursor, HOUSEKEEPING_PAGE);
      cursor := NextAfter(ids, HOUSEKEEPING_PAGE);
    }

    /** The first locked section of a housekeeping visit: what to compare the answer with. */
    method BeforeRead(uid: Id) returns (seen: Option<Option<int>>)
      requires Valid() && uid in files
      modifies this`files, this`history, this`joint
      ensures joint == old(joint).(files := files)
      ensures Valid() && old(history) <= history && files == old(files)
      ensures seen == if files[uid].quarantined then None else Some(files[uid].version)
    {
      SaveKept(uid, files[uid]);
      seen := if files[uid].quarantined then None else Some(files[uid].version);
    }

    /** The second locked section, with the provider's answer read in between. A snapshot
        older than the file is dropped, so it can neither quarantine nor release. */
    method AfterRead(uid: Id, seen: Option<int>, answer: Option<Pod>, origin: Operation, env: Env)
      requires Valid() && uid in files
      requires answer.Some? ==> answer.value.containers == containersOf(answer.value.uid)
      modifies this`files, this`history, this`joint, this`pending, this`watch, this`incomplete
      ensures Valid() && old(history) <= history && old(files).Keys <= files.Keys
      ensures if old(files)[uid].version != seen then files == old(files) && joint.deletions == old(joint.deletions)
              else Visited(Trail(old(files), old(joint.deletions)), Trail(files, joint.deletions), uid, answer, origin, env)
      ensures joint.deletions == old(joint.deletions) || (uid in files && !files[uid].quarantined && files[uid].cleanupReady
                && joint.deletions == old(joint.deletions) + [Deletion(uid, files[uid].workOperation, false)])
    {
      var a := files[uid];
      if Stale(a, seen) {
        return;
      }
      if answer.None? || answer.value.uid != uid {
        SettleGone(uid);
      } else {
        VisitPresent(uid, answer.value, origin, env);
      }
    }

    /** The Pod is gone or replaced: with a receipt nothing is owed any more, without one the
        evidence is lost and stays listed as incomplete. */
    method SettleGone(uid: Id)
      requires Valid() && uid in files && !files[uid].quarantined
      modifies this`files, this`history, this`joint, this`watch, this`incomplete
      ensures Valid() && old(history) <= history && joint == old(joint).(files := files)
      ensures files == old(files)[uid := if old(files)[uid].receipt.None? then old(files)[uid].(pending := true)
                                        else old(files)[uid].(released := true)]
    {
      var a := files[uid];
      if a.receipt.None? {
        SaveMarked(uid, a.(pending := true), true, Keep(uid, a.(pending := true)));
      } else {
        Release(uid);
      }
    }

    /** The Pod is there: it is observed, and a stop is handed on. */
    method VisitPresent(uid: Id, pod: Pod, origin: Operation, env: Env)
      requires Valid() && uid in files && !files[uid].quarantined && !files[uid].released
      requires pod.uid == uid && pod.containers == containersOf(uid)
      modifies this`files, this`history, this`joint, this`pending, this`watch, this`incomplete
      ensures Valid() && old(history) <= history && old(files).Keys <= files.Keys
      ensures Visited(Trail(old(files), old(joint.deletions)), Trail(files, joint.deletions), uid, Some(pod), origin, env)
      ensures joint.deletions == old(joint.deletions) || (uid in files && !files[uid].quarantined && files[uid].cleanupReady
                && joint.deletions == old(joint.deletions) + [Deletion(uid, files[uid].workOperation, false)])
    {
      assert Roots(joint, uid) && Placed(joint, files[uid].operation);
      var record := RecordOf(uid, files[uid]);
      var r := ObserveAllocation(record, origin, pod);
      if r.Ok? {
        ghost var b := files[uid];
        Follow(uid, pod, env);
        assert Assessed(old(files)[uid], b, record, pod);
      }
    }

    /** One visit, when no other request comes between its two locked sections. */
    method Visit(uid: Id, answer: Option<Pod>, origin: Operation, env: Env)
      requires Valid() && uid in files
      requires answer.Some? ==> answer.value.containers == containersOf(answer.value.uid)
      modifies this`files, this`history, this`joint, this`pending, this`watch, this`incomplete
      ensures Valid() && old(history) <= history && old(files).Keys <= files.Keys
      ensures Visited(Trail(old(files), old(joint.deletions)), Trail(files, joint.deletions), uid, answer, origin, env)
      ensures joint.deletions == old(joint.deletions)
              || (exists op :: joint.deletions == old(joint.deletions) + [Deletion(uid, op, false)])
    {
      var seen := BeforeRead(uid);
      if seen.Some? {
        AfterRead(uid, seen.value, answer, origin, env);
      }
    }

    /** One pass: at most 16 allocations after the cursor are visited in order. Every
        deletion it asks for is of one of them and finds its current work harvested. */
    method AllocationHousekeeping(answer: Id -> Option<Pod>, origin: Id -> Operation, env: Id -> Env)
      returns (ids: seq<Id>, ghost trail: seq<Trail>)
      requires Valid()
      requires forall uid :: answer(uid).Some? ==> answer(uid).value.containers == containersOf(answer(uid).value.uid)
      modifies this`files, this`history, this`joint, this`pending, this`watch, this`incomplete, this`cursor
      ensures Valid() && old(history) <= history
      ensures ids == Page(old(watch), old(cursor), HOUSEKEEPING_PAGE) && cursor == NextAfter(ids, HOUSEKEEPING_PAGE)
      ensures Leads(trail, Trail(old(files), old(joint.deletions)), Trail(files, joint.deletions), ids, answer, origin, env)
      ensures old(joint.deletions) <= joint.deletions
      ensures forall i :: |old(joint.deletions)| <= i < |joint.deletions| ==>
                joint.deletions[i].uid in ids && DoneNow(joint.runner, joint.deletions[i].operation)
      ensures forall i, k :: |old(joint.deletions)| <= i < k < |joint.deletions| ==> joint.deletions[i].uid != joint.deletions[k].uid
    {
      ids := NextPass();
      PageListed(watch, old(cursor), HOUSEKEEPING_PAGE);
      trail := VisitAll(ids, answer, origin, env);
      AskedOnTheWay(trail, ids, answer, origin, env, |ids|);
      assert ids[..|ids|] == ids;
    }

    method VisitAll(ids: seq<Id>, answer: Id -> Option<Pod>, origin: Id -> Operation, env: Id -> Env)
      returns (ghost trail: seq<Trail>)
      requires Valid() && Sorted(ids) && forall i :: 0 <= i < |ids| ==> ids[i] in files
      requires forall uid :: answer(uid).Some? ==> answer(uid).value.containers == containersOf(answer(uid).value.uid)
      modifies this`files, this`history, this`joint, this`pending, this`watch, this`incomplete
      ensures Valid() && old(history) <= history
      ensures Leads(trail, Trail(old(files), old(joint.deletions)), Trail(files, joint.deletions), ids, answer, origin, env)
    {
      trail := [Trail(files, joint.deletions)];
      for n := 0 to |ids|
        invariant Valid() && old(history) <= history && forall i :: 0 <= i < |ids| ==> ids[i] in files
        invariant Leads(trail, Trail(old(files), old(joint.deletions)), Trail(files, joint.deletions), ids[..n], answer, origin, env)
      {
        ghost var before := Trail(files, joint.deletions);
        Visit(ids[n], answer(ids[n]), origin(ids[n]), env(ids[n]));
        LeadsOn(trail, Trail(old(files), old(joint.deletions)), before, Trail(files, joint.deletions), ids, n, answer, origin, env);
        trail := trail + [Trail(files, joint.deletions)];
      }
      assert ids[..|ids|] == ids;
    }

    /** Hands a stop on to the deletion once there is evidence, intent or a finished harvest. */
    method Follow(uid: Id, pod: Pod, env: Env)
      requires Valid() && uid in files
      modifies this`files, this`history, this`joint, this`watch, this`incomplete
      ensures Valid() && old(history) <= history
      ensures if Stopping(old(files)[uid], pod, env)
              then Closed(uid, old(files), files, env.deleteOk && env.patchOk)
                   && joint.deletions == old(joint.deletions) + if MayDelete(old(files), uid)
                                                    then [Deletion(uid, old(files)[uid].workOperation, false)] else []
              else files == old(files) && joint.deletions == old(joint.deletions)
      ensures uid in files && files == old(files)[uid := files[uid]] && SameWork(old(files)[uid], files[uid])
    {
      if Due(files[uid], pod, env) {
        CloseAllocation(Some(uid), env.deleteOk, env.patchOk);
      }
    }
  }

  /** What an observation of a Pod of the right origin makes of the files. If it is taken in,
      the file of the Pod alone changes, or is opened for the operation that created it; if
      not, a contradicted file is quarantined and any other stays. */
  ghost predicate Observed(before: Files, after: Files, record: Operation, origin: Operation, pod: Pod, taken: bool) {
    if !taken then
      if pod.uid in before && !before[pod.uid].quarantined then Quarantined(before, after, pod.uid) else after == before
    else
      && pod.uid in after && after == before[pod.uid := after[pod.uid]]
      && var b := after[pod.uid];
         if pod.uid in before then Assessed(before[pod.uid], b, record, pod)
         else && origin.tenant.Some? && Assessed(FirstSight(origin.tenant.value, record, origin, pod), b, record, pod)
              && b.tenant == origin.tenant.value && b.operation == origin.id && b.area == origin.area && b.epoch == origin.epoch
              && b.podName == pod.name && b.wireDigest == pod.digest && b.workOperation == record.id && b.workEpoch == record.epoch
              && !b.cleanupReady && !b.stopRequested && !b.acknowledged && !b.released
  }

  /** The files and the deletions asked for at one moment. */
  datatype Trail = Trail(files: Files, deletions: seq<Deletion>)

  /** Visits to these Pods in order lead from the first moment to the last. */
  ghost predicate Leads(trail: seq<Trail>, first: Trail, last: Trail, ids: seq<Id>,
                        answer: Id -> Option<Pod>, origin: Id -> Operation, env: Id -> Env)
  {
    && |trail| == |ids| + 1 && trail[0] == first && trail[|ids|] == last
    && forall n :: 0 <= n < |ids| ==> Visits(trail, ids, n, answer, origin, env)
  }

  ghost predicate Visits(trail: seq<Trail>, ids: seq<Id>, n: nat,
                         answer: Id -> Option<Pod>, origin: Id -> Operation, env: Id -> Env)
    requires n < |ids| < |trail|
  {
    Visited(trail[n], trail[n + 1], ids[n], answer(ids[n]), origin(ids[n]), env(ids[n]))
  }

  lemma LeadsOn(trail: seq<Trail>, first: Trail, last: Trail, next: Trail, ids: seq<Id>, n: nat,
                answer: Id -> Option<Pod>, origin: Id -> Operation, env: Id -> Env)
    requires n < |ids| && Leads(trail, first, last, ids[..n], answer, origin, env)
    requires Visited(last, next, ids[n], answer(ids[n]), origin(ids[n]), env(ids[n]))
    ensures Leads(trail + [next], first, next, ids[..n + 1], answer, origin, env)
  {
    var longer, more := trail + [next], ids[..n + 1];
    forall m | 0 <= m < n + 1 ensures Visits(longer, more, m, answer, origin, env) {
      assert m < n ==> Visits(trail, ids[..n], m, answer, origin, env);
    }
  }

  /** One visit asks for at most one deletion, of the Pod visited. */
  lemma VisitAsks(before: Trail, after: Trail, uid: Id, answer: Option<Pod>, origin: Operation, env: Env)
    requires Visited(before, after, uid, answer, origin, env)
    ensures after.deletions == before.deletions || exists op :: after.deletions == before.deletions + [Deletion(uid, op, false)]
  {
  }

  lemma {:induction false} AskedOnTheWay(trail: seq<Trail>, ids: seq<Id>, answer: Id -> Option<Pod>, origin: Id -> Operation, env: Id -> Env, n: nat)
    requires Sorted(ids) && n <= |ids| == |trail| - 1 && forall m :: 0 <= m < |ids| ==> Visits(trail, ids, m, answer, origin, env)
    ensures AskedFor(trail[0].deletions, trail[n].deletions, ids, n)
  {
    if n > 0 {
      AskedOnTheWay(trail, ids, answer, origin, env, n - 1);
      assert Visits(trail, ids, n - 1, answer, origin, env);
      VisitAsks(trail[n - 1], trail[n], ids[n - 1], answer(ids[n - 1]), origin(ids[n - 1]), env(ids[n - 1]));
      OneMoreAsked(trail[0].deletions, trail[n - 1].deletions, trail[n].deletions, ids, n - 1);
    }
  }

  /** The record that housekeeping makes of a file to observe its Pod with. */
  function RecordOf(uid: Id, a: Allocation): (record: Operation) {
    Operation(a.operation, a.operation, a.area, a.epoch, Some(uid), Some(a.tenant), a.podName, a.wireDigest)
  }

  /** What one visit makes of a file and of the log of deletions: nothing of a quarantined or
      released one; a Pod that is gone settles it; a Pod of another origin or with other
      evidence quarantines; any other observation is taken in, and then a stop is handed on. */
  ghost predicate Visited(before: Trail, after: Trail, uid: Id, answer: Option<Pod>, origin: Operation, env: Env) {
    uid in before.files &&
    var a := before.files[uid];
    if a.quarantined || a.released then after == before
    else if answer.None? || answer.value.uid != uid then
      after == before.(files := before.files[uid := if a.receipt.None? then a.(pending := true) else a.(released := true)])
    else
      var record, pod := RecordOf(uid, a), answer.value;
      if !OriginMatches(record, origin, pod) then
        after.deletions == before.deletions
        && Suspected(before.files, after.files, if origin.podUid.Some? then origin.podUid else Some(uid))
      else if !Consistent(a, record, Some(a.tenant), pod) then
        after.deletions == before.deletions && Quarantined(before.files, after.files, uid)
      else exists b :: Assessed(a, b, record, pod) && Handed(before, after, uid, b, pod, env)
  }

  /** What follows on an observation that made `b` of the file. */
  ghost predicate Handed(before: Trail, after: Trail, uid: Id, b: Allocation, pod: Pod, env: Env) {
    if Stopping(b, pod, env) then
      && Closed(uid, before.files[uid := b], after.files, env.deleteOk && env.patchOk)
      && after.deletions == before.deletions + if b.cleanupReady then [Deletion(uid, b.workOperation, false)] else []
    else after == before.(files := before.files[uid := b])
  }

  /** The Pod is to be stopped: its work is billed, a stop was asked for, Kubernetes deletes it,
      or its output is harvested and, if it is kept idle for a session, the node guard has seen
      it stop. An idle Pod of a session that still runs is left alone. */
  predicate Stopping(a: Allocation, pod: Pod, env: Env) {
    || a.receipt.Some? || a.stopRequested || pod.deleting
    || (if a.idleCleanupReady then env.guardStopped else a.cleanupReady)
  }

  /** There is a receipt, and nothing is suspect or missing. */
  predicate Billable(a: Allocation) {
    a.receipt.Some? && !a.quarantined && !a.pending
  }

  lemma {:induction false} DeliversExactly(files: Files, ids: seq<Id>)
    requires forall i :: 0 <= i < |ids| ==> ids[i] in files
    ensures forall uid :: uid in ids && Billable(files[uid]) ==> files[uid].receipt.value in Deliverable(files, ids)
    ensures forall receipt :: receipt in Deliverable(files, ids) ==>
              exists uid :: uid in ids && Billable(files[uid]) && files[uid].receipt == Some(receipt)
    decreases |ids|
  {
    if ids != [] {
      var n := |ids| - 1;
      DeliversExactly(files, ids[..n]);
      assert ids == ids[..n] + [ids[n]];
    }
  }

  /** What Kubernetes and the node guard answer during one visit. */
  datatype Env = Env(guardStopped: bool, deleteOk: bool, patchOk: bool)

  predicate CanDeliver(a: Allocation) {
    a.receipt.Some? && !a.quarantined && !a.pending
  }

  /** The receipts a page delivers, in its order. */
  ghost function Deliverable(files: Files, ids: seq<Id>): (receipts: seq<Receipt>)
    requires forall i :: 0 <= i < |ids| ==> ids[i] in files
  {
    if ids == [] then []
    else
      var last := files[ids[|ids| - 1]];
      Deliverable(files, ids[..|ids| - 1]) + if CanDeliver(last) then [last.receipt.value] else []
  }

  method Collect(files: Files, ids: seq<Id>) returns (receipts: seq<Receipt>)
    requires forall i :: 0 <= i < |ids| ==> ids[i] in files
    ensures receipts == Deliverable(files, ids)
  {
    receipts := [];
    for n := 0 to |ids|
      invariant receipts == Deliverable(files, ids[..n])
    {
      assert ids[..n + 1][..n] == ids[..n];
      var record := files[ids[n]];
      if CanDeliver(record) {
        receipts := receipts + [record.receipt.value];
      }
    }
    assert ids[..|ids|] == ids;
  }

  lemma PageListed(index: seq<Id>, after: nat, limit: nat)
    requires Sorted(index)
    ensures Sorted(Page(index, after, limit)) && forall x :: x in Page(index, after, limit) ==> x in index
  {
  }

  function CleanedUp(a: Allocation, cleaned: bool): (b: Allocation) {
    if a.receipt.None? then a.(pending := true) else if cleaned then a.(released := true) else a
  }

  ghost predicate Closed(uid: Id, before: Files, after: Files, cleaned: bool) {
    if uid !in before || before[uid].quarantined then after == before
    else
      && uid in after && after == before[uid := after[uid]]
      && var a := before[uid].(stopRequested := true);
         after[uid] == if a.cleanupReady then CleanedUp(a, cleaned) else a
  }

  /** Between the two logs, the first `n` of these Pods were asked for at most once each. */
  ghost predicate AskedFor(before: seq<Deletion>, after: seq<Deletion>, ids: seq<Id>, n: nat) {
    && n <= |ids| && before <= after
    && (forall i :: |before| <= i < |after| ==> after[i].uid in ids[..n] && !after[i].direct)
    && forall i, k :: |before| <= i < k < |after| ==> after[i].uid != after[k].uid
  }

  lemma OneMoreAsked(before: seq<Deletion>, after: seq<Deletion>, later: seq<Deletion>, ids: seq<Id>, n: nat)
    requires Sorted(ids) && AskedFor(before, after, ids, n) && n < |ids|
    requires later == after || exists op :: later == after + [Deletion(ids[n], op, false)]
    ensures AskedFor(before, later, ids, n + 1)
  {
  }

  lemma ClosedInTwo(uid: Id, before: Files, cleaned: bool)
    requires uid in before && !before[uid].quarantined
    ensures var stopped := before[uid := before[uid].(stopRequested := true)];
            Closed(uid, before, if before[uid].cleanupReady then stopped[uid := CleanedUp(stopped[uid], cleaned)] else stopped, cleaned)
  {
  }

  /** There is evidence, intent, a deletion under way, a finished non-idle harvest, or an
      idle Pod that the node guard has seen stop. */
  predicate Due(a: Allocation, pod: Pod, env: Env) {
    var stopped := a.idleCleanupReady && a.receipt.None? && env.guardStopped;
    a.receipt.Some? || a.stopRequested || pod.deleting || (a.cleanupReady && !a.idleCleanupReady) || stopped
  }

  /** Neither the work nor the permission to delete nor the evidence changes. */
  predicate SameWork(a: Allocation, b: Allocation) {
    && b.workOperation == a.workOperation && b.cleanupReady == a.cleanupReady
    && b.receipt == a.receipt && b.quarantined == a.quarantined
  }

  predicate Stale(a: Allocation, seen: Option<int>) {
    a.quarantined || a.released || a.version != seen
  }
}
