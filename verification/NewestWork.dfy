/** Newer work in a session's Pod withdraws the permission to delete it (allocation_usage.py).
    This module says when the Pod then waits for that newer work: always, but after an older
    operation of the Pod was started while the newest was not done. */
module NewestWork {
  import opened Common
  import opened Rotation
  import opened AllocationEvidence
  import opened PodDeletion
  import Ops = OperationJournal

  predicate Ranked(s: Ops.State, op: Ops.Op) {
    op in s.ops && !s.ops[op].record.kind.Serve? ==>
      s.ops[op].record.area in s.areas && s.ops[op].record.epoch <= s.areas[s.ops[op].record.area].epoch
  }

  /** In an Area no writer has a greater epoch than the last one accepted. */
  ghost predicate Ordered(s: Ops.State) {
    forall op {:trigger Ranked(s, op)} :: Ranked(s, op)
  }

  /** `b` came to the Pod of `a` after it. */
  predicate Follows(s: Ops.State, a: Ops.Op, b: Ops.Op) {
    && a in s.ops && b in s.ops && s.ops[a].record.area == s.ops[b].record.area
    && s.ops[a].record.kind == s.ops[b].record.kind && s.ops[a].record.epoch <= s.ops[b].record.epoch
  }

  /** A preview has its Pod to itself. */
  predicate Placed(j: Joint, op: Ops.Op) {
    && op in j.pods && j.pods[op] in j.files && j.pods[op] in j.newest
    && Follows(j.runner, op, j.newest[j.pods[op]])
    && (j.runner.ops[op].record.kind.Serve? ==> j.newest[j.pods[op]] == op)
  }

  predicate Filed(j: Joint, uid: Id) {
    && uid in j.files && uid in j.newest && At(j, j.newest[uid], uid) && At(j, j.files[uid].workOperation, uid)
    && j.files[uid].workEpoch == EpochOf(j.runner, j.files[uid].workOperation)
  }

  /** Each Pod has a newest operation that follows all others, and its file names one of them. */
  ghost predicate Homed(j: Joint) {
    && (forall op {:trigger Placed(j, op)} :: op in j.pods ==> Placed(j, op))
    && (forall uid {:trigger Filed(j, uid)} :: uid in j.files ==> Filed(j, uid))
  }

  /** A start of an older operation of the Pod while its newest one is not done. */
  ghost predicate Displaces(j: Joint, step: Step, uid: Id) {
    && step.Work? && Ops.Possible(j.runner, step.step) && Begins(j, step.step) == Some(uid) && uid in j.newest
    && !Enters(j.pods, step.step, uid)
    && Starts(j.runner, step.step) != Some(j.newest[uid]) && !DoneNow(j.runner, j.newest[uid])
  }

  ghost predicate Kept(j: Joint) {
    Ordered(j.runner) && Homed(j) && Deserved(j)
  }

  lemma {:induction false} StepKeepsOrdered(s: Ops.State, step: Ops.Step)
    requires Ordered(s) && Ops.Possible(s, step)
    ensures Ordered(Ops.Next(s, step))
  {
    forall op ensures Ranked(Ops.Next(s, step), op) {
      assert Ranked(s, op);
      if op in s.ops {
        Ops.RecordsStep(s, step, op);
      }
      if step.Accept? && !step.request.kind.Serve? {
        assert Ops.AreaFree(Ops.Records(s), s.areas, step.request);
      }
    }
  }

  /** Moving on, an operation keeps what the order in a Pod depends on. */
  lemma FollowsStays(s: Ops.State, step: Ops.Step, a: Ops.Op, b: Ops.Op)
    requires Ops.Possible(s, step) && Follows(s, a, b)
    ensures Follows(Ops.Next(s, step), a, b)
    ensures EpochOf(Ops.Next(s, step), a) == EpochOf(s, a)
    ensures Ops.Next(s, step).ops[a].record.kind == s.ops[a].record.kind
  {
    Ops.RecordsStep(s, step, a);
    Ops.RecordsStep(s, step, b);
  }

  /** Whoever is accepted into a Pod follows all its operations. */
  lemma EntersLast(j: Joint, step: Ops.Step, op: Ops.Op)
    requires Ordered(j.runner) && Homed(j) && Ops.Possible(j.runner, step) && op in j.pods && Enters(j.pods, step, j.pods[op])
    ensures Follows(Ops.Next(j.runner, step), op, step.op) && !Ops.Next(j.runner, step).ops[op].record.kind.Serve?
  {
    var s, session := j.runner, step.session.value;
    assert Placed(j, op) && Placed(j, session) && Ranked(s, op);
    assert Ops.AreaFree(Ops.Records(s), s.areas, step.request);
  }

  /** The operations of a Pod keep a newest one, be it the one that enters. */
  lemma WorkKeepsPlaced(j: Joint, step: Ops.Step, op: Ops.Op)
    requires Ordered(j.runner) && Homed(j) && Ops.Possible(j.runner, step) && op in j.pods
    ensures Placed(Worked(j, step), op)
  {
    assert Placed(j, op);
    if Enters(j.pods, step, j.pods[op]) {
      EntersLast(j, step, op);
    } else {
      FollowsStays(j.runner, step, op, j.newest[j.pods[op]]);
    }
  }

  lemma EnteredIsPlaced(j: Joint, step: Ops.Step, op: Ops.Op)
    requires Homed(j) && Ops.Possible(j.runner, step) && op in Homes(j.pods, step) && op !in j.pods
    ensures Placed(Worked(j, step), op)
  {
    assert Placed(j, step.session.value);
  }

  lemma WorkKeepsFiled(j: Joint, step: Ops.Step, uid: Id)
    requires Homed(j) && Ops.Possible(j.runner, step) && uid in j.files
    ensures Filed(Worked(j, step), uid)
  {
    assert Filed(j, uid);
    assert Placed(j, j.files[uid].workOperation);
    FollowsStays(j.runner, step, j.files[uid].workOperation, j.newest[uid]);
    if step.Accept? {
      assert step.op !in j.pods by { assert step.op in j.pods ==> Placed(j, step.op); }
    }
  }

  lemma {:induction false} WorkKeepsHomed(j: Joint, step: Ops.Step)
    requires Ordered(j.runner) && Homed(j) && Ops.Possible(j.runner, step)
    ensures Homed(Worked(j, step))
  {
    forall op | op in Homes(j.pods, step) ensures Placed(Worked(j, step), op) {
      if op in j.pods {
        WorkKeepsPlaced(j, step, op);
      } else {
        EnteredIsPlaced(j, step, op);
      }
    }
    forall uid | uid in j.files ensures Filed(Worked(j, step), uid) {
      WorkKeepsFiled(j, step, uid);
    }
  }

  /** A file that is saved again for an operation of its Pod. */
  lemma FileKeepsHomed(j: Joint, uid: Id, a: Allocation)
    requires Homed(j) && uid in j.files && At(j, a.workOperation, uid) && a.workEpoch == EpochOf(j.runner, a.workOperation)
    ensures Homed(j.(files := j.files[uid := a]))
  {
    var k := j.(files := j.files[uid := a]);
    forall op | op in k.pods ensures Placed(k, op) {
      assert Placed(j, op);
    }
    forall other | other in k.files ensures Filed(k, other) {
      assert Filed(j, other);
    }
  }

  lemma OpenKeepsHomed(j: Joint, uid: Id, op: Ops.Op, a: Allocation)
    requires Homed(j) && uid !in j.files && op !in j.pods && op in j.runner.ops
    requires a.workOperation == op && a.workEpoch == EpochOf(j.runner, op)
    ensures Homed(j.(files := j.files[uid := a], pods := j.pods[op := uid], newest := j.newest[uid := op]))
  {
    var k := j.(files := j.files[uid := a], pods := j.pods[op := uid], newest := j.newest[uid := op]);
    forall other | other in k.pods ensures Placed(k, other) {
      assert other != op ==> Placed(j, other);
    }
    forall other | other in k.files ensures Filed(k, other) {
      assert other != uid ==> Filed(j, other);
    }
  }

  lemma {:induction false} StepKeepsHomed(j: Joint, step: Step)
    requires Ordered(j.runner) && Homed(j) && Possible(j, step)
    ensures Homed(Next(j, step))
  {
    match step
    case Work(s) => WorkKeepsHomed(j, s);
    case Open(uid, op, a) => OpenKeepsHomed(j, uid, op, a);
    case Observe(uid, _, a) => FileKeepsHomed(j, uid, a);
    case Keep(uid, a) =>
      assert Filed(j, uid);
      FileKeepsHomed(j, uid, a);
    case Report(uid, _, idle) =>
      assert Filed(j, uid);
      FileKeepsHomed(j, uid, j.files[uid].(cleanupReady := true, idleCleanupReady := idle));
    case _ =>
      var k := Next(j, step);
      forall op | op in k.pods ensures Placed(k, op) {
        assert Placed(j, op);
      }
      forall uid | uid in k.files ensures Filed(k, uid) {
        assert Filed(j, uid);
      }
  }

  lemma {:induction false} StepKeepsAll(j: Joint, step: Step)
    requires Kept(j) && Possible(j, step) && !Reopening(j, step)
    ensures Kept(Next(j, step))
  {
    StepKeepsHomed(j, step);
    StepKeeps(j, step);
    if step.Work? {
      StepKeepsOrdered(j.runner, step.step);
    }
  }

  // ---------- the file stands for the newest work ----------

  predicate StandsFor(j: Joint, uid: Id)
    requires uid in j.files && uid in j.newest
  {
    j.files[uid].workOperation == j.newest[uid] || DoneNow(j.runner, j.newest[uid])
  }

  /** Who starts in a Pod without entering it was there before. */
  lemma StartsInside(j: Joint, step: Ops.Step, uid: Id)
    requires Homed(j) && Ops.Possible(j.runner, step) && Begins(j, step) == Some(uid) && !Enters(j.pods, step, uid)
    ensures step.Happen? && Starts(j.runner, step) == Some(step.op)
  {
    var op := Starts(j.runner, step).value;
    assert op in j.pods ==> Placed(j, op);
  }

  lemma WorkStands(j: Joint, step: Ops.Step, uid: Id)
    requires Kept(j) && Ops.Possible(j.runner, step) && !Ops.ReopeningStep(j.runner, step)
    requires uid in j.files && uid in j.newest && StandsFor(j, uid)
    ensures uid in Worked(j, step).newest && (StandsFor(Worked(j, step), uid) <==> !Displaces(j, Work(step), uid))
  {
    var k := Worked(j, step);
    if Begins(j, step) == Some(uid) && !Enters(j.pods, step, uid) {
      StartsInside(j, step, uid);
    }
    if DoneNow(j.runner, j.newest[uid]) {
      DoneStays(j.runner, step, j.newest[uid]);
    }
  }

  /** A step that reopens no harvest breaks the standing of a file exactly if it starts an
      older operation of the Pod while the newest is not done: `begin_allocation_work`
      compares nothing with the work it replaces. */
  lemma StandsExactly(j: Joint, step: Step, uid: Id)
    requires Kept(j) && Possible(j, step) && !Reopening(j, step)
    requires uid in j.files && uid in j.newest && StandsFor(j, uid)
    ensures uid in Next(j, step).files && uid in Next(j, step).newest
    ensures StandsFor(Next(j, step), uid) <==> !Displaces(j, step, uid)
  {
    match step
    case Work(s) => WorkStands(j, s, uid);
    case Observe(other, op, _) =>
      assert Filed(j, uid) && Placed(j, op);
    case _ =>
  }

  // ---------- when a deletion is early ----------

  /** The event saves harvested output. */
  predicate Harvests(e: Ops.Event) {
    || (e.ByCall? && e.call.EndHarvest? && !e.call.harvest.Broken?)
    || (e.ByOutcome? && (e.outcome.Complete? || e.outcome.Refuse? || e.outcome.Lose?))
    || (e.ByOutcome? && e.outcome.EndPreview? && e.outcome.harvested)
  }

  /** What makes a displacing start good again: the newest operation of the Pod starts there,
      is seen there at a greater epoch or is harvested, or a yet newer one is let in. */
  ghost predicate MakesGood(j: Joint, step: Step, uid: Id) {
    match step
    case Work(s) =>
      Ops.Possible(j.runner, s)
      && (Enters(j.pods, s, uid)
          || (uid in j.newest && ((Begins(j, s) == Some(uid) && Starts(j.runner, s) == Some(j.newest[uid]))
                                  || (s.Happen? && s.op == j.newest[uid] && Harvests(s.event)))))
    case Observe(other, op, _) => other == uid && uid in j.newest && op == j.newest[uid]
    case _ => false
  }

  lemma {:induction false} HarvestsExactly(l: Ops.Life, e: Ops.Event)
    requires Ops.Steady(l) && Ops.Enabled(l, e) && !l.record.harvested
    requires e.ByCancel? ==> !Ops.Reopens(l, e.glimpse)
    ensures Ops.Done(Ops.After(l, e).record) <==> Harvests(e)
  {
    match e
    case ByCancel(_) =>
    case ByCall(_) =>
    case ByMove(m) => MovesHarvestNothing(l, m);
    case ByOutcome(o) => OutcomeHarvests(l, o);
  }

  lemma {:induction false} MovesHarvestNothing(l: Ops.Life, m: Ops.Move)
    ensures Ops.MoveAfter(l, m).record.harvested == l.record.harvested
  {
    match m
    case Persist =>
    case Bind =>
    case Publish =>
    case Run =>
    case _ =>
  }

  lemma {:induction false} OutcomeHarvests(l: Ops.Life, o: Ops.Outcome)
    requires Ops.OutcomeEnabled(l, o) && !l.record.harvested
    ensures Ops.Done(Ops.OutcomeAfter(l, o).record) <==> Harvests(Ops.ByOutcome(o))
  {
  }

  /** An operation that is not done becomes so exactly by an event of its own that harvests. */
  lemma BecomesDoneExactly(s: Ops.State, step: Ops.Step, op: Ops.Op)
    requires Ops.AllSteady(s) && Ops.Possible(s, step) && !Ops.ReopeningStep(s, step) && op in s.ops && !DoneNow(s, op)
    ensures DoneNow(Ops.Next(s, step), op) <==> step.Happen? && step.op == op && Harvests(step.event)
  {
    assert Ops.Steady(s.ops[op]);
    if step.Happen? && step.op == op {
      HarvestsExactly(s.ops[op], step.event);
    }
  }

  lemma WorkMakesGood(j: Joint, step: Ops.Step, uid: Id)
    requires Kept(j) && Ops.Possible(j.runner, step) && !Ops.ReopeningStep(j.runner, step)
    requires uid in j.files && uid in j.newest && !StandsFor(j, uid)
    ensures uid in Worked(j, step).newest && (StandsFor(Worked(j, step), uid) <==> MakesGood(j, Work(step), uid))
  {
    assert Filed(j, uid) && Placed(j, j.newest[uid]);
    if Begins(j, step) == Some(uid) && !Enters(j.pods, step, uid) {
      StartsInside(j, step, uid);
    }
    BecomesDoneExactly(j.runner, step, j.newest[uid]);
  }

  /** While a displacing start lasts, a step ends it exactly if it makes it good. */
  lemma MakesGoodExactly(j: Joint, step: Step, uid: Id)
    requires Kept(j) && Possible(j, step) && !Reopening(j, step)
    requires uid in j.files && uid in j.newest && !StandsFor(j, uid)
    ensures uid in Next(j, step).files && uid in Next(j, step).newest
    ensures StandsFor(Next(j, step), uid) <==> MakesGood(j, step, uid)
  {
    if step.Work? {
      WorkMakesGood(j, step.step, uid);
    }
  }

  /** A displacing start at `k` that nothing has made good before `n`. */
  ghost predicate Lasting(joints: seq<Joint>, steps: seq<Step>, uid: Id, k: nat, n: nat)
    requires n <= |steps| < |joints|
  {
    && k < n && Displaces(joints[k], steps[k], uid)
    && forall m {:trigger steps[m]} :: k < m < n ==> !MakesGood(joints[m], steps[m], uid)
  }

  ghost predicate Unmended(joints: seq<Joint>, steps: seq<Step>, uid: Id, n: nat)
    requires n <= |steps| < |joints|
  {
    exists k: nat :: Lasting(joints, steps, uid, k, n)
  }

  lemma {:induction false} RunKeepsAll(joints: seq<Joint>, steps: seq<Step>, n: nat)
    requires SteadyRun(joints, steps) && n < |joints|
    ensures Kept(joints[n])
  {
    if n > 0 {
      RunKeepsAll(joints, steps, n - 1);
      StepKeepsAll(joints[n - 1], steps[n - 1]);
    }
  }

  lemma LastingStep(joints: seq<Joint>, steps: seq<Step>, uid: Id, k: nat, n: nat)
    requires k < n < |steps| < |joints|
    ensures Lasting(joints, steps, uid, k, n + 1) <==> Lasting(joints, steps, uid, k, n) && !MakesGood(joints[n], steps[n], uid)
  {
    var good := MakesGood(joints[n], steps[n], uid);
    if Lasting(joints, steps, uid, k, n) && !good {
      forall m | k < m < n + 1 ensures !MakesGood(joints[m], steps[m], uid) {
        assert m < n ==> steps[m] == steps[m];
      }
    }
  }

  lemma UnmendedStep(joints: seq<Joint>, steps: seq<Step>, uid: Id, n: nat)
    requires n < |steps| < |joints|
    ensures Unmended(joints, steps, uid, n + 1)
            <==> Displaces(joints[n], steps[n], uid)
                 || (!MakesGood(joints[n], steps[n], uid) && Unmended(joints, steps, uid, n))
  {
    assert Lasting(joints, steps, uid, n, n + 1) <==> Displaces(joints[n], steps[n], uid);
    forall k: nat | k < n
      ensures Lasting(joints, steps, uid, k, n + 1) <==> Lasting(joints, steps, uid, k, n) && !MakesGood(joints[n], steps[n], uid)
    {
      LastingStep(joints, steps, uid, k, n);
    }
    if Unmended(joints, steps, uid, n + 1) {
      var k: nat :| Lasting(joints, steps, uid, k, n + 1);
      assert k < n ==> Lasting(joints, steps, uid, k, n);
    }
    if !MakesGood(joints[n], steps[n], uid) && Unmended(joints, steps, uid, n) {
      var k: nat :| Lasting(joints, steps, uid, k, n);
      assert Lasting(joints, steps, uid, k, n + 1);
    }
  }

  /** The file names another operation than the newest of its Pod, which is not done. */
  predicate Bypassed(j: Joint, uid: Id) {
    uid in j.files && uid in j.newest && !StandsFor(j, uid)
  }

  lemma BypassedStep(j: Joint, step: Step, uid: Id)
    requires Kept(j) && Possible(j, step) && !Reopening(j, step)
    ensures Bypassed(Next(j, step), uid) <==> Displaces(j, step, uid) || (Bypassed(j, uid) && !MakesGood(j, step, uid))
  {
    if uid in j.files {
      assert Filed(j, uid);
      if StandsFor(j, uid) {
        StandsExactly(j, step, uid);
      } else {
        MakesGoodExactly(j, step, uid);
        DisplacedStays(j, step, uid);
      }
    }
  }

  lemma BypassedThen(joints: seq<Joint>, steps: seq<Step>, uid: Id, n: nat)
    requires SteadyRun(joints, steps) && n < |steps|
    ensures Bypassed(joints[n + 1], uid)
            <==> Displaces(joints[n], steps[n], uid) || (Bypassed(joints[n], uid) && !MakesGood(joints[n], steps[n], uid))
  {
    RunKeepsAll(joints, steps, n);
    BypassedStep(joints[n], steps[n], uid);
  }

  /** How the newest work of a Pod comes to be bypassed and ceases to be, all along. */
  ghost predicate BypassedByStep(joints: seq<Joint>, steps: seq<Step>, uid: Id) {
    && |joints| == |steps| + 1 && !Bypassed(joints[0], uid)
    && forall n {:trigger steps[n]} :: 0 <= n < |steps| ==>
         (Bypassed(joints[n + 1], uid)
          <==> Displaces(joints[n], steps[n], uid) || (Bypassed(joints[n], uid) && !MakesGood(joints[n], steps[n], uid)))
  }

  lemma {:induction false} BypassedUnmended(joints: seq<Joint>, steps: seq<Step>, uid: Id, n: nat)
    requires BypassedByStep(joints, steps, uid) && n <= |steps|
    ensures Bypassed(joints[n], uid) <==> Unmended(joints, steps, uid, n)
  {
    if n > 0 {
      BypassedUnmended(joints, steps, uid, n - 1);
      UnmendedStep(joints, steps, uid, n - 1);
    }
  }

  /** In every run that reopens no harvest, the newest work of a Pod is bypassed exactly after
      a displacing start that nothing has made good. */
  lemma BypassedExactly(joints: seq<Joint>, steps: seq<Step>, uid: Id, n: nat)
    requires SteadyRun(joints, steps) && n <= |steps|
    ensures Bypassed(joints[n], uid) <==> Unmended(joints, steps, uid, n)
  {
    forall m | 0 <= m < |steps|
      ensures Bypassed(joints[m + 1], uid)
              <==> Displaces(joints[m], steps[m], uid) || (Bypassed(joints[m], uid) && !MakesGood(joints[m], steps[m], uid))
    {
      BypassedThen(joints, steps, uid, m);
    }
    BypassedUnmended(joints, steps, uid, n);
  }

  /** No step displaces the newest work and makes that good at once. */
  lemma DisplacedStays(j: Joint, step: Step, uid: Id)
    ensures Displaces(j, step, uid) && Ops.AllSteady(j.runner) ==> !MakesGood(j, step, uid)
  {
  }

  /** The step asks for the Pod's deletion. */
  predicate Asks(step: Step, uid: Id) {
    (step.Delete? || step.StopPreview?) && step.uid == uid
  }

  /** What a preview's thread deletes is the Pod of its own, unfinished work. */
  lemma PreviewAlone(j: Joint, uid: Id, op: Ops.Op)
    requires Kept(j) && Possible(j, StopPreview(uid, op))
    ensures uid in j.files && uid in j.newest && j.files[uid].workOperation == op == j.newest[uid] && !DoneNow(j.runner, op)
  {
    assert Filed(j, uid) && Placed(j, op) && Placed(j, j.files[uid].workOperation) && Ops.Steady(j.runner.ops[op]);
  }

  /** In every run that reopens no harvest, a deletion of a Pod outruns its current work, which
      is not yet terminal with harvested output, if and only if the thread of a Live preview
      asks for it. */
  lemma OutrunsExactly(joints: seq<Joint>, steps: seq<Step>, n: nat, uid: Id)
    requires SteadyRun(joints, steps) && n < |steps| && Asks(steps[n], uid)
    ensures uid in joints[n].files
    ensures !DoneNow(joints[n].runner, joints[n].files[uid].workOperation) <==> steps[n].StopPreview?
  {
    RunKeepsAll(joints, steps, n);
    assert Possible(joints[n], steps[n]) && Earned(joints[n], uid);
    if steps[n].StopPreview? {
      PreviewAlone(joints[n], uid, steps[n].operation);
    }
  }

  /** Newer work withdraws the permission until it is harvested too, exactly up to displacing
      starts and previews: in every run that reopens no harvest, a Pod is deleted before the
      last operation that came to it is terminal with harvested output if and only if a
      preview's thread deletes it, or an older operation of the Pod was started while the
      newest was not done and nothing has made that good. */
  lemma EarlyExactly(joints: seq<Joint>, steps: seq<Step>, n: nat, uid: Id)
    requires SteadyRun(joints, steps) && n < |steps| && Asks(steps[n], uid)
    ensures uid in joints[n].newest
    ensures !DoneNow(joints[n].runner, joints[n].newest[uid]) <==> steps[n].StopPreview? || Unmended(joints, steps, uid, n)
  {
    BypassedExactly(joints, steps, uid, n);
    RunKeepsAll(joints, steps, n);
    assert Possible(joints[n], steps[n]) && Earned(joints[n], uid) && Filed(joints[n], uid);
    if steps[n].StopPreview? {
      PreviewAlone(joints[n], uid, steps[n].operation);
    }
  }

  // ---------- what the newest work and the guard's fence do meanwhile ----------

  /** The step makes an operation the Pod's current work. */
  ghost predicate Retasks(j: Joint, step: Step, uid: Id) {
    || (step.Work? && Ops.Possible(j.runner, step.step) && Begins(j, step.step) == Some(uid))
    || (step.Observe? && step.uid == uid)
  }

  ghost predicate NoneRetasks(joints: seq<Joint>, steps: seq<Step>, uid: Id, i: nat, m: nat)
    requires i <= m <= |steps| < |joints|
  {
    forall k {:trigger steps[k]} :: i <= k < m ==> !Retasks(joints[k], steps[k], uid)
  }

  lemma {:induction false} TaskStays(j: Joint, step: Step, uid: Id)
    requires Kept(j) && Possible(j, step) && uid in j.files && !Retasks(j, step, uid)
    ensures var k := Next(j, step);
            && uid in k.files && k.files[uid].workOperation == j.files[uid].workOperation
            && uid in j.newest && uid in k.newest && k.newest[uid] == j.newest[uid]
  {
    assert Filed(j, uid);
  }

  lemma {:induction false} TasksStay(joints: seq<Joint>, steps: seq<Step>, uid: Id, i: nat, m: nat)
    requires SteadyRun(joints, steps) && i <= m <= |steps| && uid in joints[i].files && NoneRetasks(joints, steps, uid, i, m)
    ensures uid in joints[i].newest && uid in joints[m].newest && joints[m].newest[uid] == joints[i].newest[uid]
    ensures uid in joints[m].files && joints[m].files[uid].workOperation == joints[i].files[uid].workOperation
    decreases m
  {
    RunKeepsAll(joints, steps, i);
    assert Filed(joints[i], uid);
    if i < m {
      TasksStay(joints, steps, uid, i, m - 1);
      RunKeepsAll(joints, steps, m - 1);
      TaskStays(joints[m - 1], steps[m - 1], uid);
    }
  }

  /** While a Pod's file names another operation than its newest, the report of the newest
      changes nothing: however it ends, the Pod is not deleted before that other operation is
      done or another start or observation changes the file. */
  lemma NewestAloneNever(joints: seq<Joint>, steps: seq<Step>, uid: Id, i: nat, m: nat, idle: bool)
    requires SteadyRun(joints, steps) && i <= m <= |steps| && uid in joints[i].files && NoneRetasks(joints, steps, uid, i, m)
    requires uid in joints[i].newest && joints[i].files[uid].workOperation != joints[i].newest[uid]
    ensures uid in joints[m].newest && !Possible(joints[m], Report(uid, joints[m].newest[uid], idle))
    ensures !DoneNow(joints[m].runner, joints[i].files[uid].workOperation) ==> !MayDelete(joints[m].files, uid)
  {
    TasksStay(joints, steps, uid, i, m);
    RunKeepsAll(joints, steps, m);
    assert Earned(joints[m], uid);
  }

  /** A Python operation that the guard refuses and whose output is not harvested. */
  predicate Shut(j: Joint, op: Ops.Op) {
    Behind(j, op) && op in j.runner.ops && j.runner.ops[op].record.kind.Python? && !j.runner.ops[op].record.harvested
  }

  lemma {:induction false} ShutLife(l: Ops.Life, e: Ops.Event)
    requires Ops.Enabled(l, e) && l.record.kind.Python? && !l.record.harvested && !CallsGuard(e)
    ensures !Ops.After(l, e).record.harvested
  {
    match e
    case ByCancel(_) =>
    case ByCall(_) =>
    case ByMove(m) => MovesHarvestNothing(l, m);
    case ByOutcome(o) => ShutOutcome(l, o);
  }

  lemma {:induction false} ShutOutcome(l: Ops.Life, o: Ops.Outcome)
    requires Ops.OutcomeEnabled(l, o) && l.record.kind.Python? && !l.record.harvested && !o.Complete? && !o.Refuse?
    ensures !Ops.OutcomeAfter(l, o).record.harvested
  {
    match o
    case Finish =>
    case GiveUp =>
    case _ =>
  }

  lemma {:induction false} ShutStep(j: Joint, step: Step, op: Ops.Op)
    requires Homed(j) && Possible(j, step) && Shut(j, op)
    ensures Shut(Next(j, step), op)
  {
    assert Placed(j, op);
    if step.Work? {
      Ops.RecordsStep(j.runner, step.step, op);
      if step.step.Happen? && step.step.op == op {
        ShutLife(j.runner.ops[op], step.step.event);
      }
    }
  }

  /** The guard's epoch fence is for ever: an operation of a Pod that is behind it, as an older
      one is once a newer one with a greater epoch was bound, is never harvested. */
  lemma {:induction false} BehindFence(joints: seq<Joint>, steps: seq<Step>, op: Ops.Op, i: nat, m: nat)
    requires SteadyRun(joints, steps) && i <= m <= |steps| && Shut(joints[i], op)
    ensures Shut(joints[m], op)
    decreases m
  {
    if i < m {
      BehindFence(joints, steps, op, i, m - 1);
      RunKeepsAll(joints, steps, m - 1);
      ShutStep(joints[m - 1], steps[m - 1], op);
    }
  }

  /** So a start that displaces newer work behind the fence does not delete the Pod early. It
      leaves it without an owner: the Pod is not deleted, whatever its newest operation does,
      until a start or an observation changes its file. */
  lemma FencedNeverDeletes(joints: seq<Joint>, steps: seq<Step>, uid: Id, i: nat, m: nat)
    requires SteadyRun(joints, steps) && i <= m <= |steps| && uid in joints[i].files && NoneRetasks(joints, steps, uid, i, m)
    requires Shut(joints[i], joints[i].files[uid].workOperation)
    ensures !MayDelete(joints[m].files, uid)
  {
    TasksStay(joints, steps, uid, i, m);
    BehindFence(joints, steps, joints[i].files[uid].workOperation, i, m);
    RunKeepsAll(joints, steps, m);
    assert Earned(joints[m], uid);
  }

  // ---------- displacing starts lead to early deletions ----------

  /** Nothing reopens a harvest, and nothing displaces the Pod's newest work. */
  ghost predicate Calm(j: Joint, step: Step, uid: Id) {
    !Reopening(j, step) && !Displaces(j, step, uid)
  }

  /** Permission to delete a Pod whose newest work is not done. */
  predicate Early(j: Joint, uid: Id) {
    MayDelete(j.files, uid) && uid in j.newest && !DoneNow(j.runner, j.newest[uid])
  }

  /** A run and what it has come to. */
  datatype Trace = Trace(joints: seq<Joint>, steps: seq<Step>)

  ghost predicate Runs(t: Trace) {
    IsRun(t.joints, t.steps)
  }

  ghost function Last(t: Trace): (j: Joint)
    requires Runs(t)
  {
    t.joints[|t.steps|]
  }

  ghost function Extended(t: Trace, step: Step): (u: Trace)
    requires Runs(t) && Possible(Last(t), step)
    ensures Runs(u) && Last(u) == Next(Last(t), step)
  {
    Trace(t.joints + [Next(Last(t), step)], t.steps + [step])
  }

  /** `u` goes on from `t` calmly. */
  ghost predicate Continues(t: Trace, u: Trace, uid: Id) {
    && Runs(t) && Runs(u) && t.joints <= u.joints && t.steps <= u.steps
    && forall i {:trigger u.steps[i]} :: |t.steps| <= i < |u.steps| ==> Calm(u.joints[i], u.steps[i], uid)
  }

  lemma Onward(t: Trace, u: Trace, uid: Id, step: Step) returns (v: Trace)
    requires Continues(t, u, uid) && Possible(Last(u), step) && Calm(Last(u), step, uid)
    ensures Continues(t, v, uid) && Last(v) == Next(Last(u), step) && v.steps == u.steps + [step]
  {
    v := Extended(u, step);
    forall i | |t.steps| <= i < |v.steps| ensures Calm(v.joints[i], v.steps[i], uid) {
      if i < |u.steps| {
        assert u.steps[i] == v.steps[i] && u.joints[i] == v.joints[i];
      } else {
        assert step == v.steps[i] && Last(u) == v.joints[i];
      }
    }
    assert t.joints <= u.joints <= v.joints && t.steps <= u.steps <= v.steps;
  }

  /** A thread that is under way starts in no Pod, and the guard answers it. */
  lemma ThreadStep(j: Joint, op: Ops.Op, e: Ops.Event)
    requires op in j.runner.ops && (e.ByMove? || e.ByOutcome?)
    requires j.runner.ops[op].pc.Some? && Ops.Enabled(j.runner.ops[op], e) && !Barred(j, Ops.Happen(op, e))
    ensures Possible(j, Work(Ops.Happen(op, e))) && !Reopening(j, Work(Ops.Happen(op, e)))
    ensures Next(j, Work(Ops.Happen(op, e))) == j.(runner := Ops.Happened(j.runner, op, e))
    ensures forall uid :: !Displaces(j, Work(Ops.Happen(op, e)), uid)
  {
  }

  /** One more thing that the thread of an operation does. */
  lemma Acts(t: Trace, u: Trace, uid: Id, op: Ops.Op, e: Ops.Event) returns (v: Trace)
    requires Continues(t, u, uid) && op in Last(u).runner.ops && (e.ByMove? || e.ByOutcome?)
    requires Last(u).runner.ops[op].pc.Some? && Ops.Enabled(Last(u).runner.ops[op], e)
    requires !Barred(Last(u), Ops.Happen(op, e))
    ensures Continues(t, v, uid) && Last(v).runner.ops == Last(u).runner.ops[op := Ops.After(Last(u).runner.ops[op], e)]
    ensures Last(v) == Last(u).(runner := Last(v).runner)
  {
    ThreadStep(Last(u), op, e);
    v := Onward(t, u, uid, Work(Ops.Happen(op, e)));
  }

  /** The Pod's own container is live. */
  ghost predicate Up(j: Joint, uid: Id) {
    exists op :: At(j, op, uid) && op in j.runner.ops && j.runner.ops[op].sandbox.Live?
  }

  /** The operation's thread finds its Pod, and the node guard has its cell or can take it. */
  predicate Answerable(l: Ops.Life) {
    Ops.Reach(l) && (l.cell || Ops.Waiting(l))
  }

  /** `op` runs as the Pod's current work although the newest is another. */
  predicate Displaced(j: Joint, uid: Id, op: Ops.Op) {
    && uid in j.files && j.files[uid].workOperation == op && !j.files[uid].quarantined
    && uid in j.newest && j.newest[uid] != op && !DoneNow(j.runner, j.newest[uid])
    && op in j.runner.ops && j.files[uid].workEpoch == EpochOf(j.runner, op) && j.runner.ops[op].record.kind.Python?
    && At(j, op, uid) && !Behind(j, op)
  }

  predicate OthersStay(j: Joint, k: Joint, op: Ops.Op) {
    op in k.runner.ops && k.runner.ops == j.runner.ops[op := k.runner.ops[op]] && k.newest == j.newest
  }

  /** One more thing that the thread of the displacing operation does. */
  lemma Serves(t: Trace, u: Trace, uid: Id, op: Ops.Op, e: Ops.Event) returns (v: Trace)
    requires Continues(t, u, uid) && Displaced(Last(u), uid, op) && (e.ByMove? || e.ByOutcome?)
    requires Last(u).runner.ops[op].pc.Some? && Ops.Enabled(Last(u).runner.ops[op], e)
    requires e == Ops.ByMove(Ops.Dispatch) ==> Bound(Last(u), op)
    ensures Continues(t, v, uid) && Displaced(Last(v), uid, op) && OthersStay(Last(u), Last(v), op)
    ensures Bound(Last(u), op) ==> Bound(Last(v), op)
    ensures Last(v).runner.ops[op] == Ops.After(Last(u).runner.ops[op], e)
  {
    v := Acts(t, u, uid, op, e);
    Ops.EventKeepsRecord(Last(u).runner.ops[op], e);
  }

  lemma Found(t: Trace, u: Trace, uid: Id, op: Ops.Op) returns (v: Trace)
    requires Continues(t, u, uid) && Displaced(Last(u), uid, op)
    requires Ops.At(Last(u).runner.ops[op], Ops.Fresh) && Answerable(Last(u).runner.ops[op])
    ensures Continues(t, v, uid) && Displaced(Last(v), uid, op) && OthersStay(Last(u), Last(v), op)
    ensures Ops.At(Last(v).runner.ops[op], Ops.Working) && Answerable(Last(v).runner.ops[op]) && Bound(Last(v), op)
  {
    v := Serves(t, u, uid, op, Ops.ByMove(Ops.Read));
    v := Serves(t, v, uid, op, Ops.ByMove(Ops.Look));
    v := Onward(t, v, uid, Limits(uid, op));
  }

  lemma Resent(t: Trace, u: Trace, uid: Id, op: Ops.Op) returns (v: Trace)
    requires Continues(t, u, uid) && Displaced(Last(u), uid, op)
    requires Ops.At(Last(u).runner.ops[op], Ops.Working) && Answerable(Last(u).runner.ops[op]) && Bound(Last(u), op)
    ensures Continues(t, v, uid) && Displaced(Last(v), uid, op) && OthersStay(Last(u), Last(v), op)
    ensures Ops.At(Last(v).runner.ops[op], Ops.Polling)
  {
    v := Serves(t, u, uid, op, Ops.ByMove(Ops.Run));
    v := Serves(t, v, uid, op, Ops.ByMove(Ops.Dispatch));
  }

  lemma Ended(t: Trace, u: Trace, uid: Id, op: Ops.Op) returns (v: Trace)
    requires Continues(t, u, uid) && Displaced(Last(u), uid, op) && Ops.At(Last(u).runner.ops[op], Ops.Polling)
    ensures Continues(t, v, uid) && Displaced(Last(v), uid, op) && OthersStay(Last(u), Last(v), op)
    ensures Ops.At(Last(v).runner.ops[op], Ops.Proved(false))
  {
    v := Serves(t, u, uid, op, Ops.ByOutcome(Ops.StopSeen(false)));
    v := Serves(t, v, uid, op, Ops.ByOutcome(Ops.Finish));
  }

  lemma Harvested(t: Trace, u: Trace, uid: Id, op: Ops.Op) returns (v: Trace)
    requires Continues(t, u, uid) && Displaced(Last(u), uid, op) && Ops.At(Last(u).runner.ops[op], Ops.Polling)
    ensures Continues(t, v, uid) && Displaced(Last(v), uid, op) && OthersStay(Last(u), Last(v), op)
    ensures Last(v).runner.ops[op].record.harvested
  {
    v := Ended(t, u, uid, op);
    var status := if Last(v).runner.ops[op].record.cancelRequested then Ops.Cancelled else Ops.Failed;
    v := Serves(t, v, uid, op, Ops.ByOutcome(Ops.Complete(status)));
  }

  /** The displacing operation ends, its output is harvested and reported. */
  lemma DisplacedDeletes(t: Trace, uid: Id, op: Ops.Op) returns (v: Trace)
    requires Runs(t) && Displaced(Last(t), uid, op)
    requires Ops.At(Last(t).runner.ops[op], Ops.Fresh) && Answerable(Last(t).runner.ops[op])
    ensures Continues(t, v, uid) && Early(Last(v), uid) && OthersStay(Last(t), Last(v), op)
  {
    v := Found(t, t, uid, op);
    v := Resent(t, v, uid, op);
    v := Harvested(t, v, uid, op);
    v := Onward(t, v, uid, Report(uid, op, false));
  }

  predicate Usable(j: Joint, uid: Id) {
    uid in j.files && !j.files[uid].quarantined
  }

  /** The operation that starts can end and be reported: its Pod is up, and the guard is not
      bound to a greater epoch there. */
  ghost predicate Endable(j: Joint, step: Step, uid: Id) {
    && step.Work? && step.step.Happen? && step.step.op in j.runner.ops && Answerable(j.runner.ops[step.step.op])
    && Up(j, uid) && !Behind(j, step.step.op)
  }

  lemma {:induction false} StartedLife(l: Ops.Life, e: Ops.Event)
    requires Ops.Enabled(l, e) && l.pc.None? && Ops.At(Ops.After(l, e), Ops.Fresh)
    ensures var m := Ops.After(l, e); m.cell == l.cell && m.sandbox == l.sandbox && m.record.bound == l.record.bound
    ensures Answerable(l) ==> Answerable(Ops.After(l, e))
  {
    Ops.EventKeepsRecord(l, e);
  }

  lemma DisplacesSo(t: Trace, step: Step, uid: Id)
    requires Runs(t) && Kept(Last(t)) && Possible(Last(t), step) && !Reopening(Last(t), step)
    requires Displaces(Last(t), step, uid) && Endable(Last(t), step, uid) && Usable(Last(t), uid)
    ensures Displaced(Last(Extended(t, step)), uid, step.step.op)
    ensures var l := Last(Extended(t, step)).runner.ops[step.step.op]; Ops.At(l, Ops.Fresh) && Answerable(l)
  {
    var j := Last(t);
    StartsInside(j, step.step, uid);
    StartedLife(j.runner.ops[step.step.op], step.step.event);
    Ops.EventKeepsRecord(j.runner.ops[step.step.op], step.step.event);
  }

  /** Other displacing starts do lead to early deletions: from every one at the end of a run
      that reopens no harvest, in a Pod that is up and not quarantined, of an operation that the
      guard does not refuse and whose cell it has or can take. */
  lemma DisplacesDeletes(t: Trace, step: Step, uid: Id) returns (u: Trace)
    requires SteadyRun(t.joints, t.steps) && Possible(Last(t), step) && !Reopening(Last(t), step)
    requires Displaces(Last(t), step, uid) && Usable(Last(t), uid) && Endable(Last(t), step, uid)
    ensures Continues(Extended(t, step), u, uid) && Early(Last(u), uid)
  {
    RunKeepsAll(t.joints, t.steps, |t.steps|);
    DisplacesSo(t, step, uid);
    u := DisplacedDeletes(Extended(t, step), uid, step.step.op);
  }
}
