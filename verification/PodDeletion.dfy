/** When a sandbox Pod may be deleted: the operations of OperationJournal and the
    allocation files run side by side. Accepting an operation into a session's Pod and
    starting the thread of a Python operation make it the Pod's current work, the owner of
    an operation's output reports it harvested (runner/control.py), and the journal asks
    for the Pod's deletion once its current work is reported (runner/allocation_usage.py).
    The thread of a Live preview deletes its Pod itself, and the node guard refuses the
    operations of a Pod that are behind the epoch it is bound to (runner/node_guard.py). */
module PodDeletion {
  import opened Common
  import opened Rotation
  import opened AllocationEvidence
  import Ops = OperationJournal

  /** A Pod deletion the runner asked for, and the work it then counted as current;
      `direct` if a preview's thread asked for it past the journal. */
  datatype Deletion = Deletion(uid: Id, operation: Ops.Op, direct: bool)

  /** `pods` says which Pod an operation runs in, `newest` which operation came last to a
      Pod: the one that created it, or the last one accepted into it. `fence` is the epoch
      that the node guard's record of the Pod's container is bound to. */
  datatype Joint = Joint(runner: Ops.State, files: Files, pods: map<Ops.Op, Id>, newest: map<Id, Ops.Op>,
                         fence: map<Id, int>, deletions: seq<Deletion>)

  datatype Step =
    | Work(step: Ops.Step)
    | Open(uid: Id, operation: Ops.Op, file: Allocation)
    | Observe(uid: Id, operation: Ops.Op, file: Allocation)
    | Keep(uid: Id, file: Allocation)
    | Report(uid: Id, operation: Ops.Op, idle: bool)
    | Delete(uid: Id)
    | Limits(uid: Id, operation: Ops.Op)
    | StopPreview(uid: Id, operation: Ops.Op)

  predicate At(j: Joint, op: Ops.Op, uid: Id) {
    op in j.pods && j.pods[op] == uid
  }

  /** The guard is bound to a greater epoch in the operation's Pod, and refuses its requests. */
  predicate Behind(j: Joint, op: Ops.Op) {
    op in j.pods && j.pods[op] in j.fence && EpochOf(j.runner, op) < j.fence[j.pods[op]]
  }

  /** The thread needs an answer of the node guard for this event: for sending a cell, for
      stopping or freezing it, and for exporting what it left. */
  predicate CallsGuard(e: Ops.Event) {
    match e
    case ByMove(m) => m.Dispatch?
    case ByOutcome(o) => o.StopSeen? || o.Complete? || o.Refuse?
    case ByCall(c) => c.EndHarvest? && !c.harvest.Broken?
    case _ => false
  }

  /** The guard is bound to the operation's epoch in its Pod. */
  predicate Bound(j: Joint, op: Ops.Op) {
    op in j.pods && j.pods[op] in j.fence && EpochOf(j.runner, op) == j.fence[j.pods[op]]
  }

  /** The guard answers nobody who is behind, and a cell is sent only after its operation was
      bound. Admission probes have no file, and the guard is not followed for them. */
  predicate Barred(j: Joint, step: Ops.Step) {
    && step.Happen? && CallsGuard(step.event)
    && (Behind(j, step.op) || (step.event == Ops.ByMove(Ops.Dispatch) && step.op in j.runner.ops && Celled(j.runner.ops[step.op])
                               && !Bound(j, step.op)))
  }

  predicate Celled(l: Ops.Life) {
    l.record.kind.Python? && !l.record.probe
  }

  predicate MayDelete(files: Files, uid: Id) {
    uid in files && !files[uid].quarantined && files[uid].cleanupReady
  }

  /** The report names the file's current work at its epoch. */
  predicate Current(a: Allocation, operation: Ops.Op, epoch: int) {
    a.workOperation == operation && a.workEpoch == epoch
  }

  /** `begin_allocation_work`: whatever was current before, and whatever its epoch. */
  function Begun(a: Allocation, operation: Ops.Op, epoch: int): (b: Allocation) {
    a.(workOperation := operation, workEpoch := epoch, cleanupReady := false, idleCleanupReady := false)
  }

  /** The operation that is accepted into a session's Pod, or whose Python thread is started. */
  ghost function Starts(s: Ops.State, step: Ops.Step): (op: Option<Ops.Op>)
    requires Ops.Possible(s, step)
  {
    match step
    case Accept(op, _, session, _, _) => if session.Some? then Some(op) else None
    case Happen(op, e) =>
      if s.ops[op].pc.None? && Ops.At(Ops.After(s.ops[op], e), Ops.Fresh) && s.ops[op].record.kind.Python?
      then Some(op) else None
    case _ => None
  }

  /** An operation that is accepted into a session's Pod runs there. */
  function Homes(pods: map<Ops.Op, Id>, step: Ops.Step): (homes: map<Ops.Op, Id>) {
    if step.Accept? && step.session.Some? && step.session.value in pods then pods[step.op := pods[step.session.value]] else pods
  }

  predicate Enters(pods: map<Ops.Op, Id>, step: Ops.Step, uid: Id) {
    step.Accept? && step.session.Some? && step.session.value in pods && pods[step.session.value] == uid
  }

  /** The Pod whose current work this step sets: the one that the record of the starting
      operation already names. */
  ghost function Begins(j: Joint, step: Ops.Step): (uid: Option<Id>)
    requires Ops.Possible(j.runner, step)
  {
    var op, homes := Starts(j.runner, step), Homes(j.pods, step);
    if op.Some? && op.value in homes && homes[op.value] in j.files then Some(homes[op.value]) else None
  }

  /** The files after it: `operation` is now the work of that Pod. */
  ghost function FilesAfter(j: Joint, step: Ops.Step): (files: Files)
    requires Ops.Possible(j.runner, step)
  {
    var uid := Begins(j, step);
    if uid.None? then j.files
    else
      var op := Starts(j.runner, step).value;
      j.files[uid.value := Begun(j.files[uid.value], op, EpochOf(Ops.Next(j.runner, step), op))]
  }

  function NewestAfter(j: Joint, step: Ops.Step): (newest: map<Id, Ops.Op>) {
    if step.Accept? && step.session.Some? && step.session.value in j.pods
    then j.newest[j.pods[step.session.value] := step.op] else j.newest
  }

  ghost function Worked(j: Joint, step: Ops.Step): (k: Joint)
    requires Ops.Possible(j.runner, step)
  {
    Joint(Ops.Next(j.runner, step), FilesAfter(j, step), Homes(j.pods, step), NewestAfter(j, step), j.fence, j.deletions)
  }

  function EpochOf(s: Ops.State, op: Ops.Op): (epoch: int) {
    if op in s.ops then s.ops[op].record.epoch else 0
  }

  /** A Pod is first seen through the operation that created it. Later observations move the
      work to an operation of the Pod at a greater epoch, or keep it. Every report follows the
      save of harvested output; none checks the status again. A thread that has found its Pod
      first asks the guard for its limits, which binds the guard to its epoch. A preview's
      thread deletes its Pod while it is still at work, and saves its outcome after that. */
  ghost predicate Possible(j: Joint, step: Step) {
    match step
    case Work(s) => Ops.Possible(j.runner, s) && !Barred(j, s)
    case Open(uid, op, a) =>
      && uid !in j.files && uid !in j.pods.Values && op in j.runner.ops && op !in j.pods
      && !j.runner.ops[op].record.bound.Session? && !j.runner.ops[op].sandbox.NoPod?
      && Current(a, op, EpochOf(j.runner, op)) && !a.cleanupReady
    case Observe(uid, op, a) =>
      && uid in j.files && op in j.pods && j.pods[op] == uid && j.files[uid].workEpoch < EpochOf(j.runner, op)
      && Current(a, op, EpochOf(j.runner, op)) && !a.cleanupReady && (j.files[uid].quarantined ==> a.quarantined)
    case Keep(uid, a) => uid in j.files && SameTask(j.files[uid], a) && (j.files[uid].quarantined ==> a.quarantined)
    case Report(uid, op, _) => op in j.runner.ops && j.runner.ops[op].record.harvested && uid in j.files
                               && Current(j.files[uid], op, EpochOf(j.runner, op))
    case Delete(uid) => MayDelete(j.files, uid)
    case Limits(uid, op) => op in j.runner.ops && At(j, op, uid) && Ops.At(j.runner.ops[op], Ops.Working) && !Behind(j, op)
    case StopPreview(uid, op) => op in j.runner.ops && At(j, op, uid) && uid in j.files
                                 && j.runner.ops[op].record.kind.Serve? && Ops.Busy(j.runner.ops[op])
  }

  ghost function Next(j: Joint, step: Step): (k: Joint)
    requires Possible(j, step)
  {
    match step
    case Work(s) => Worked(j, s)
    case Open(uid, op, a) => j.(files := j.files[uid := a], pods := j.pods[op := uid], newest := j.newest[uid := op])
    case Observe(uid, _, a) => j.(files := j.files[uid := a])
    case Keep(uid, a) => j.(files := j.files[uid := a])
    case Report(uid, _, idle) => j.(files := j.files[uid := j.files[uid].(cleanupReady := true, idleCleanupReady := idle)])
    case Delete(uid) => j.(deletions := j.deletions + [Deletion(uid, j.files[uid].workOperation, false)])
    case Limits(uid, op) => j.(fence := j.fence[uid := EpochOf(j.runner, op)])
    case StopPreview(uid, _) => j.(deletions := j.deletions + [Deletion(uid, j.files[uid].workOperation, true)])
  }

  function Initial(): (j: Joint) {
    Joint(Ops.Initial(), map[], map[], map[], map[], [])
  }

  ghost predicate IsRun(joints: seq<Joint>, steps: seq<Step>) {
    && |joints| == |steps| + 1 && joints[0] == Initial()
    && forall i {:trigger steps[i]} :: 0 <= i < |steps| ==>
         Possible(joints[i], steps[i]) && joints[i + 1] == Next(joints[i], steps[i])
  }

  /** A cancel that reopens a record which is harvested or being harvested. */
  predicate Reopening(j: Joint, step: Step) {
    step.Work? && Ops.ReopeningStep(j.runner, step.step)
  }

  predicate DoneNow(runner: Ops.State, operation: Ops.Op) {
    operation in runner.ops && Ops.Done(runner.ops[operation].record)
  }

  // ---------- deletions wait for the current work ----------

  /** Permission is only ever held for work that is terminal with harvested output, and
      every deletion that the journal asked for so far was of such work. */
  ghost predicate Deserved(j: Joint) {
    && Ops.AllSteady(j.runner)
    && (forall uid {:trigger Earned(j, uid)} :: Earned(j, uid))
    && (forall i :: 0 <= i < |j.deletions| && !j.deletions[i].direct ==> DoneNow(j.runner, j.deletions[i].operation))
  }

  predicate Earned(j: Joint, uid: Id) {
    uid in j.files && j.files[uid].cleanupReady ==> DoneNow(j.runner, j.files[uid].workOperation)
  }

  lemma DoneStays(s: Ops.State, step: Ops.Step, operation: Ops.Op)
    requires Ops.AllSteady(s) && Ops.Possible(s, step) && !Ops.ReopeningStep(s, step) && DoneNow(s, operation)
    ensures DoneNow(Ops.Next(s, step), operation)
  {
    Ops.StepKeepsSteady(s, step);
    Ops.RecordsStep(s, step, operation);
    assert Ops.Steady(Ops.Next(s, step).ops[operation]);
  }

  lemma {:induction false} StepKeeps(j: Joint, step: Step)
    requires Deserved(j) && Possible(j, step) && !Reopening(j, step)
    ensures Deserved(Next(j, step))
  {
    var k := Next(j, step);
    if step.Work? {
      Ops.StepKeepsSteady(j.runner, step.step);
      forall op | DoneNow(j.runner, op) ensures DoneNow(k.runner, op) {
        DoneStays(j.runner, step.step, op);
      }
    }
    forall uid ensures Earned(k, uid) {
      StepKeepsEarned(j, step, uid);
    }
    if step.Delete? {
      assert Earned(j, step.uid);
    }
  }

  lemma StepKeepsEarned(j: Joint, step: Step, uid: Id)
    requires Deserved(j) && Possible(j, step) && !Reopening(j, step)
    ensures Earned(Next(j, step), uid)
  {
    assert Earned(j, uid);
    match step
    case Work(s) =>
      if uid in j.files && DoneNow(j.runner, j.files[uid].workOperation) {
        DoneStays(j.runner, s, j.files[uid].workOperation);
      }
    case Report(_, op, _) =>
      assert Ops.Steady(j.runner.ops[op]);
    case _ =>
  }

  ghost predicate SteadyRun(joints: seq<Joint>, steps: seq<Step>) {
    IsRun(joints, steps) && forall i {:trigger steps[i]} :: 0 <= i < |steps| ==> !Reopening(joints[i], steps[i])
  }

  lemma {:induction false} RunKeeps(joints: seq<Joint>, steps: seq<Step>, n: nat)
    requires SteadyRun(joints, steps) && n < |joints|
    ensures Deserved(joints[n])
  {
    if n > 0 {
      RunKeeps(joints, steps, n - 1);
      StepKeeps(joints[n - 1], steps[n - 1]);
    }
  }

  /** In every joint run in which no cancel reopens a harvest, the journal asks for a Pod's
      deletion only while the operation named as its current work is terminal with harvested
      output, and it stays so. */
  lemma DeletedWhenDone(joints: seq<Joint>, steps: seq<Step>, n: nat, m: nat, uid: Id)
    requires SteadyRun(joints, steps) && n < m < |joints| && steps[n] == Delete(uid)
    ensures uid in joints[n].files && DoneNow(joints[n].runner, joints[n].files[uid].workOperation)
    ensures DoneNow(joints[m].runner, joints[n].files[uid].workOperation)
  {
    RunKeeps(joints, steps, n);
    RunKeeps(joints, steps, m);
    assert Earned(joints[n], uid);
    LogGrows(joints, steps, n + 1, m);
    var entry := Deletion(uid, joints[n].files[uid].workOperation, false);
    assert joints[n + 1].deletions[|joints[n].deletions|] == entry;
    assert joints[m].deletions[|joints[n].deletions|] == entry;
  }

  lemma {:induction false} LogGrows(joints: seq<Joint>, steps: seq<Step>, i: nat, j: nat)
    requires IsRun(joints, steps) && i <= j < |joints|
    ensures joints[i].deletions <= joints[j].deletions
    decreases j
  {
    if i < j {
      LogGrows(joints, steps, i, j - 1);
      assert Possible(joints[j - 1], steps[j - 1]) && joints[j] == Next(joints[j - 1], steps[j - 1]);
    }
  }

  /** A reopening cancel starts the thread of this operation, and makes it the Pod's work. */
  predicate Restarts(j: Joint, op: Ops.Op, uid: Id) {
    && op in j.runner.ops && At(j, op, uid)
    && var l := j.runner.ops[op]; l.record.kind.Python? && !l.record.acknowledged && l.pc.None?
  }

  /** The condition cannot be dropped: a cancel takes the ground from a permission exactly
      if it reopens the work that some file holds permission for and does not start its
      thread there and then: the record is acknowledged, or it has a thread, or the operation
      is not a Python one, or it runs in another Pod. */
  lemma ReopenedExactly(j: Joint, op: Ops.Op, g: Ops.Glimpse)
    requires Deserved(j) && Possible(j, Work(Ops.Happen(op, Ops.ByCancel(g))))
    ensures var step := Ops.Happen(op, Ops.ByCancel(g));
            var k := Next(j, Work(step));
            (exists uid :: MayDelete(k.files, uid) && !DoneNow(k.runner, k.files[uid].workOperation))
            <==> Ops.Reopening(g) && exists uid :: MayDelete(j.files, uid) && j.files[uid].workOperation == op
                                                   && !Restarts(j, op, uid)
  {
    var step := Ops.Happen(op, Ops.ByCancel(g));
    var k := Next(j, Work(step));
    var l := j.runner.ops[op];
    assert Ops.Steady(l);
    Ops.ReopensExactly(l, g);
    forall uid | MayDelete(j.files, uid)
      ensures MayDelete(k.files, uid) && !DoneNow(k.runner, k.files[uid].workOperation)
              <==> Ops.Reopening(g) && j.files[uid].workOperation == op && !Restarts(j, op, uid)
    {
      assert Earned(j, uid);
    }
  }
}
