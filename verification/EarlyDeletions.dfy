/** Runs in which a Pod is deleted although work in it is not done: what the conditions of
    PodDeletion and NewestWork shut out does happen. */
module EarlyDeletions {
  import opened Common
  import opened Rotation
  import opened AllocationEvidence
  import opened PodDeletion
  import opened NewestWork
  import Ops = OperationJournal

  /** The file of a Pod that the operation `op` created. */
  function FirstFile(op: Ops.Op): (a: Allocation) {
    Allocation(1, op, 0, 1, op, 1, op, 1, false, false, None, None, None, true, false, false, false, false)
  }

  function Empty(): (t: Trace) {
    Trace([Initial()], [])
  }

  /** What the thread of an operation does changes only its own life. */
  lemma Does(t: Trace, op: Ops.Op, e: Ops.Event) returns (u: Trace)
    requires Continues(Empty(), t, 5) && op in Last(t).runner.ops && (e.ByMove? || e.ByOutcome?) && !Barred(Last(t), Ops.Happen(op, e))
    requires Last(t).runner.ops[op].pc.Some? && Ops.Enabled(Last(t).runner.ops[op], e)
    ensures Continues(Empty(), u, 5) && Last(u).runner.ops == Last(t).runner.ops[op := Ops.After(Last(t).runner.ops[op], e)]
    ensures SameBeside(Last(t), Last(u)) && Last(u).fence == Last(t).fence
  {
    ThreadStep(Last(t), op, e);
    u := Onward(Empty(), t, 5, Work(Ops.Happen(op, e)));
  }

  predicate SameBeside(j: Joint, k: Joint) {
    && k.files == j.files && k.pods == j.pods && k.newest == j.newest && k.deletions == j.deletions
    && k.runner.areas == j.runner.areas && k.runner.starting == j.runner.starting && k.runner.glimpses == j.runner.glimpses
  }

  lemma FirstReads(kind: Ops.Kind) returns (t: Trace)
    ensures Continues(Empty(), t, 5) && Last(t) == Initial().(runner := Last(t).runner)
    ensures Last(t).runner.ops.Keys == {1} && !Last(t).runner.starting
    ensures Last(t).runner.areas == if kind.Serve? then map[] else map[0 := Ops.Slot(1, 1)]
    ensures var l := Last(t).runner.ops[1];
            && Ops.At(l, Ops.Seen(Ops.Accepted)) && l.sandbox.NoPod? && !l.cell
            && l.record == Ops.NewRecord(Ops.Request(0, 1, kind, 10, 10, false), None, false)
  {
    t := Empty();
    t := Onward(Empty(), t, 5, Work(Ops.Accept(1, Ops.Request(0, 1, kind, 10, 10, false), None, false, [])));
    t := Does(t, 1, Ops.ByMove(Ops.Read));
  }

  /** One operation is accepted, and its own Pod comes up. */
  lemma ComesUp(kind: Ops.Kind) returns (t: Trace)
    ensures Continues(Empty(), t, 5) && Last(t) == Initial().(runner := Last(t).runner)
    ensures Last(t).runner.ops.Keys == {1} && !Last(t).runner.starting
    ensures Last(t).runner.areas == if kind.Serve? then map[] else map[0 := Ops.Slot(1, 1)]
    ensures var l := Last(t).runner.ops[1];
            && Ops.At(l, Ops.Working) && l.sandbox.Live? && !l.cell
            && l.record == Ops.NewRecord(Ops.Request(0, 1, kind, 10, 10, false), None, false).(status := Ops.Starting)
  {
    t := FirstReads(kind);
    t := Does(t, 1, Ops.ByMove(Ops.Look));
    t := Does(t, 1, Ops.ByMove(Ops.Persist));
    t := Does(t, 1, Ops.ByMove(Ops.Create(true)));
  }

  // ---------- a preview's own thread ----------

  /** A Live preview is cancelled: its thread deletes the Pod before it saves any outcome. */
  lemma PreviewOutruns() returns (t: Trace)
    ensures SteadyRun(t.joints, t.steps) && t.steps != [] && t.steps[|t.steps| - 1] == StopPreview(5, 1)
    ensures 5 in Last(t).files && Last(t).files[5].workOperation == 1 && !DoneNow(Last(t).runner, 1)
  {
    t := ComesUp(Ops.Serve);
    t := Onward(Empty(), t, 5, Open(5, 1, FirstFile(1)));
    t := Onward(Empty(), t, 5, StopPreview(5, 1));
    CalmIsSteady(t);
  }

  lemma CalmIsSteady(t: Trace)
    requires Continues(Empty(), t, 5)
    ensures SteadyRun(t.joints, t.steps)
  {
    forall i | 0 <= i < |t.steps| ensures !Reopening(t.joints[i], t.steps[i]) {
      assert Calm(t.joints[i], t.steps[i], 5);
    }
  }

  // ---------- a second cancel reopens harvested work ----------

  /** One shell operation whose Pod has a file. */
  predicate OneShell(j: Joint) {
    && j.runner.ops.Keys == {1} && j.runner.ops[1].record.kind.Shell? && j.runner.ops[1].record.epoch == 1 && !j.runner.starting
    && j.files.Keys == {5} && Current(j.files[5], 1, 1) && !j.files[5].quarantined && j.pods == map[1 := 5] && !Behind(j, 1)
  }

  lemma ShellActs(t: Trace, e: Ops.Event) returns (u: Trace)
    requires Runs(t) && OneShell(Last(t)) && Ops.Possible(Last(t).runner, Ops.Happen(1, e))
    ensures Runs(u) && OneShell(Last(u)) && Last(u).runner.ops[1] == Ops.After(Last(t).runner.ops[1], e)
    ensures Last(u).runner.glimpses == Last(t).runner.glimpses && Last(u).files == Last(t).files
  {
    u := Extended(t, Work(Ops.Happen(1, e)));
    Ops.EventKeepsRecord(Last(t).runner.ops[1], e);
  }

  predicate Unproven(r: Ops.Record) {
    !r.confirmed && !r.harvested && !r.acknowledged
  }

  lemma ShellOpened() returns (t: Trace)
    ensures Runs(t) && OneShell(Last(t)) && Ops.At(Last(t).runner.ops[1], Ops.Working) && Ops.Waiting(Last(t).runner.ops[1])
    ensures Last(t).runner.ops[1].record.bound.Unbound? && Last(t).runner.ops[1].sandbox.Live? && Unproven(Last(t).runner.ops[1].record)
  {
    t := ComesUp(Ops.Shell);
    t := Extended(t, Open(5, 1, FirstFile(1)));
    t := Extended(t, Limits(5, 1));
  }

  lemma ShellWrites() returns (t: Trace)
    ensures Runs(t) && OneShell(Last(t)) && Ops.At(Last(t).runner.ops[1], Ops.Working) && Last(t).runner.ops[1].writing
    ensures Last(t).runner.ops[1].record.bound.Unbound? && Last(t).runner.ops[1].sandbox.Live? && Unproven(Last(t).runner.ops[1].record)
  {
    t := ShellOpened();
    t := ShellActs(t, Ops.ByMove(Ops.Publish));
    t := ShellActs(t, Ops.ByMove(Ops.Dispatch));
  }

  /** Cancels have read the operation as uncertain while its Pod still runs. */
  lemma ShellUncertain() returns (t: Trace)
    ensures Runs(t) && OneShell(Last(t)) && Ops.Glimpse(1, Ops.Uncertain, false) in Last(t).runner.glimpses
    ensures var l := Last(t).runner.ops[1]; l.pc.None? && l.record.bound.Unbound? && l.sandbox.Live? && !l.record.acknowledged
  {
    t := ShellWrites();
    t := ShellActs(t, Ops.ByOutcome(Ops.GiveUp));
    t := ShellActs(t, Ops.ByOutcome(Ops.Leave));
    t := Extended(t, Work(Ops.Glance(1)));
  }

  /** The first of them stops it. */
  lemma ShellStops() returns (t: Trace)
    ensures Runs(t) && OneShell(Last(t)) && Ops.Glimpse(1, Ops.Uncertain, false) in Last(t).runner.glimpses
    ensures Ops.At(Last(t).runner.ops[1], Ops.Stopped(false)) && Last(t).runner.ops[1].record.cancelRequested
  {
    t := ShellUncertain();
    t := ShellActs(t, Ops.ByCancel(Ops.Glimpse(1, Ops.Uncertain, false)));
    t := ShellActs(t, Ops.ByMove(Ops.Read));
    t := ShellActs(t, Ops.ByMove(Ops.Look));
    t := ShellActs(t, Ops.ByMove(Ops.Halt));
    t := ShellActs(t, Ops.ByOutcome(Ops.StopSeen(false)));
  }

  lemma ShellHarvested() returns (t: Trace)
    ensures Runs(t) && OneShell(Last(t)) && Ops.Glimpse(1, Ops.Uncertain, false) in Last(t).runner.glimpses
    ensures Last(t).runner.ops[1].record.harvested
  {
    t := ShellStops();
    t := ShellActs(t, Ops.ByOutcome(Ops.Finish));
    t := ShellActs(t, Ops.ByOutcome(Ops.Complete(Ops.Cancelled)));
  }

  /** Its output is harvested and reported, and the second cancel reopens it: the Pod is
      deleted while the operation that it is kept for is being cancelled again. */
  lemma ReopenedDeletes() returns (t: Trace)
    ensures Runs(t) && t.steps != [] && t.steps[|t.steps| - 1] == Delete(5)
    ensures 5 in Last(t).files && !DoneNow(Last(t).runner, Last(t).files[5].workOperation)
  {
    t := ShellHarvested();
    t := Extended(t, Report(5, 1, false));
    t := ShellActs(t, Ops.ByCancel(Ops.Glimpse(1, Ops.Uncertain, false)));
    t := Extended(t, Delete(5));
  }

  // ---------- an older operation of a session is started again ----------

  /** Its Pod is seen and bound. */
  lemma HostOpened() returns (t: Trace)
    ensures Continues(Empty(), t, 5) && Session(Last(t), {1}, 1) && Last(t).runner.areas == map[0 := Ops.Slot(1, 1)]
    ensures var l := Last(t).runner.ops[1]; Ops.At(l, Ops.Working) && l.record.bound.Own? && l.sandbox.Live? && !l.cell && Unproven(l.record)
  {
    t := ComesUp(Ops.Python);
    t := Onward(Empty(), t, 5, Open(5, 1, FirstFile(1)));
    t := Does(t, 1, Ops.ByMove(Ops.Bind));
    t := Onward(Empty(), t, 5, Limits(5, 1));
  }

  /** These operations are in Pod 5, all at epoch 1, and `op` came last. */
  predicate Session(j: Joint, ops: set<Ops.Op>, op: Ops.Op) {
    && j.runner.ops.Keys == ops && j.pods == (map o | o in ops :: 5) && j.fence == map[5 := 1] && j.newest == map[5 := op]
    && j.files.Keys == {5} && !j.files[5].quarantined && Current(j.files[5], op, 1) && !j.runner.starting
    && forall o :: o in ops ==> var r := j.runner.ops[o].record; r.epoch == 1 && r.area == 0 && r.kind.Python?
  }

  /** What the thread of a session's operation does. */
  lemma DoesIn(t: Trace, ops: set<Ops.Op>, op: Ops.Op, e: Ops.Event) returns (u: Trace)
    requires Continues(Empty(), t, 5) && Session(Last(t), ops, op) && op in ops && (e.ByMove? || e.ByOutcome?)
    requires Last(t).runner.ops[op].pc.Some? && Ops.Enabled(Last(t).runner.ops[op], e)
    ensures Continues(Empty(), u, 5) && Session(Last(u), ops, op) && SameBeside(Last(t), Last(u))
    ensures Last(u).runner.ops == Last(t).runner.ops[op := Ops.After(Last(t).runner.ops[op], e)]
  {
    u := Does(t, op, e);
    Ops.EventKeepsRecord(Last(t).runner.ops[op], e);
  }

  /** The host's cell has run, its output is harvested and the Pod is kept frozen for a session. */
  predicate HostRests(j: Joint) {
    1 in j.runner.ops && var l := j.runner.ops[1];
    l.pc.None? && Ops.Done(l.record) && l.record.frozen && l.record.executed && l.record.bound.Own? && l.sandbox.Live? && l.cell
  }

  lemma HostWrites() returns (t: Trace)
    ensures Continues(Empty(), t, 5) && Session(Last(t), {1}, 1) && Last(t).runner.areas == map[0 := Ops.Slot(1, 1)]
    ensures var l := Last(t).runner.ops[1];
            Ops.At(l, Ops.Polling) && l.record.bound.Own? && l.record.executed && l.sandbox.Live? && l.cell && Unproven(l.record)
  {
    t := HostOpened();
    t := DoesIn(t, {1}, 1, Ops.ByMove(Ops.Run));
    t := DoesIn(t, {1}, 1, Ops.ByMove(Ops.Dispatch));
  }

  lemma HostHarvested() returns (t: Trace)
    ensures Continues(Empty(), t, 5) && Session(Last(t), {1}, 1) && HostRests(Last(t)) && Last(t).runner.areas == map[0 := Ops.Slot(1, 1)]
  {
    t := HostWrites();
    t := DoesIn(t, {1}, 1, Ops.ByOutcome(Ops.StopSeen(true)));
    t := DoesIn(t, {1}, 1, Ops.ByOutcome(Ops.Finish));
    t := DoesIn(t, {1}, 1, Ops.ByOutcome(Ops.Complete(Ops.Completed)));
    t := DoesIn(t, {1}, 1, Ops.ByOutcome(Ops.Leave));
  }

  /** A further operation of the session is accepted into the Pod. */
  lemma Enter(t: Trace, ops: set<Ops.Op>, last: Ops.Op, op: Ops.Op) returns (u: Trace)
    requires Continues(Empty(), t, 5) && Session(Last(t), ops, last) && HostRests(Last(t)) && op !in ops && last in ops
    requires Last(t).runner.areas == map[0 := Ops.Slot(1, last)] && Ops.Settled(Last(t).runner.ops[last].record)
    requires forall o :: o in ops && o != 1 ==> Last(t).runner.ops[o].sandbox.NoPod?
    ensures Continues(Empty(), u, 5) && Session(Last(u), ops + {op}, op) && Last(u).runner.areas == map[0 := Ops.Slot(1, op)]
    ensures forall o :: o in ops ==> Last(u).runner.ops[o] == Last(t).runner.ops[o]
    ensures var l := Last(u).runner.ops[op];
            && Ops.At(l, Ops.Fresh) && l.record.bound.Session? && !l.cell && l.sandbox.NoPod?
            && Unproven(l.record)
  {
    var step := Ops.Accept(op, Ops.Request(0, 1, Ops.Python, op, op, false), Some(1), false, [Ops.Pod(1, false)]);
    Enterable(Last(t), ops, last, op);
    u := Onward(Empty(), t, 5, Work(step));
  }

  lemma Enterable(j: Joint, ops: set<Ops.Op>, last: Ops.Op, op: Ops.Op)
    requires Session(j, ops, last) && HostRests(j) && op !in ops && last in ops && 1 in ops
    requires j.runner.areas == map[0 := Ops.Slot(1, last)] && Ops.Settled(j.runner.ops[last].record)
    requires forall o :: o in ops && o != 1 ==> j.runner.ops[o].sandbox.NoPod?
    ensures var step := Ops.Accept(op, Ops.Request(0, 1, Ops.Python, op, op, false), Some(1), false, [Ops.Pod(1, false)]);
            Possible(j, Work(step)) && Calm(j, Work(step), 5)
  {
    var pods := [Ops.Pod(1, false)];
    assert pods[0] in pods;
  }

  /** It finds the Pod and is bound there. */
  lemma Finds(t: Trace, ops: set<Ops.Op>, op: Ops.Op) returns (u: Trace)
    requires Continues(Empty(), t, 5) && Session(Last(t), ops, op) && op in ops
    requires var l := Last(t).runner.ops[op]; Ops.At(l, Ops.Fresh) && l.record.bound.Session?
    ensures Continues(Empty(), u, 5) && Session(Last(u), ops, op) && SameBeside(Last(t), Last(u))
    ensures Last(u).runner.ops == Last(t).runner.ops[op := Last(t).runner.ops[op].(pc := Some(Ops.Working))]
  {
    u := DoesIn(t, ops, op, Ops.ByMove(Ops.Read));
    u := DoesIn(u, ops, op, Ops.ByMove(Ops.Look));
    u := Onward(Empty(), u, 5, Limits(5, op));
  }

  /** It gets its cell and writes. */
  lemma Cell(t: Trace, ops: set<Ops.Op>, op: Ops.Op) returns (u: Trace)
    requires Continues(Empty(), t, 5) && Session(Last(t), ops, op) && op in ops
    requires var l := Last(t).runner.ops[op]; Ops.At(l, Ops.Fresh) && l.record.bound.Session? && !l.cell
    ensures Continues(Empty(), u, 5) && Session(Last(u), ops, op) && SameBeside(Last(t), Last(u))
    ensures Last(u).runner.ops == Last(t).runner.ops[op := Last(u).runner.ops[op]]
    ensures var l, m := Last(t).runner.ops[op], Last(u).runner.ops[op];
            Ops.At(m, Ops.Polling) && m.cell && m.sandbox == l.sandbox && m.record == l.record.(executed := true, status := Ops.Running)
  {
    u := Finds(t, ops, op);
    u := DoesIn(u, ops, op, Ops.ByMove(Ops.Run));
    u := DoesIn(u, ops, op, Ops.ByMove(Ops.Dispatch));
  }

  /** The second operation: its cell ends and the Pod is frozen again, but its output cannot
      be exported, and the outcome stays uncertain. */
  predicate SecondUncertain(j: Joint) {
    2 in j.runner.ops && var l := j.runner.ops[2];
    && l.pc.None? && l.record.bound.Session? && l.cell && l.sandbox.NoPod?
    && l.record.status.Uncertain? && l.record.frozen && Unproven(l.record)
  }

  lemma SecondCell() returns (t: Trace)
    ensures Continues(Empty(), t, 5) && Session(Last(t), {1, 2}, 2) && HostRests(Last(t)) && Last(t).runner.areas == map[0 := Ops.Slot(1, 2)]
    ensures var l := Last(t).runner.ops[2];
            Ops.At(l, Ops.Polling) && l.cell && l.record.bound.Session? && l.sandbox.NoPod? && Unproven(l.record)
  {
    t := HostHarvested();
    t := Enter(t, {1}, 1, 2);
    t := Cell(t, {1, 2}, 2);
  }

  lemma SecondFrozen() returns (t: Trace)
    ensures Continues(Empty(), t, 5) && Session(Last(t), {1, 2}, 2) && HostRests(Last(t)) && Last(t).runner.areas == map[0 := Ops.Slot(1, 2)]
    ensures var l := Last(t).runner.ops[2];
            && Ops.At(l, Ops.Proved(true)) && l.cell && l.record.bound.Session? && l.sandbox.NoPod?
            && l.record.frozen && Unproven(l.record)
  {
    t := SecondCell();
    t := DoesIn(t, {1, 2}, 2, Ops.ByOutcome(Ops.StopSeen(true)));
    t := DoesIn(t, {1, 2}, 2, Ops.ByOutcome(Ops.Finish));
  }

  lemma SecondEnds() returns (t: Trace)
    ensures Continues(Empty(), t, 5) && Session(Last(t), {1, 2}, 2) && HostRests(Last(t)) && SecondUncertain(Last(t))
    ensures Last(t).runner.areas == map[0 := Ops.Slot(1, 2)]
  {
    t := SecondFrozen();
    t := DoesIn(t, {1, 2}, 2, Ops.ByOutcome(Ops.GiveUp));
    t := DoesIn(t, {1, 2}, 2, Ops.ByOutcome(Ops.Leave));
  }

  /** A third one runs in the Pod, and a cancel reads the second one's record. */
  lemma ThirdRuns() returns (t: Trace)
    ensures Continues(Empty(), t, 5) && Session(Last(t), {1, 2, 3}, 3) && HostRests(Last(t)) && SecondUncertain(Last(t))
    ensures var r := Last(t).runner.ops[3].record; r.status.Running? && !r.harvested
    ensures Ops.Glimpse(2, Ops.Uncertain, false) in Last(t).runner.glimpses
  {
    t := SecondEnds();
    t := Enter(t, {1, 2}, 2, 3);
    t := Cell(t, {1, 2, 3}, 3);
    t := Onward(Empty(), t, 5, Work(Ops.Glance(2)));
  }

  /** A cancel of the second operation starts its thread again. It is in time and reopens no
      harvest. The thread stops the shared sandbox, harvests the second operation's output
      and reports it, and the Pod is deleted while the third operation, which came last, is
      recorded as running and nothing of it is harvested. */
  lemma RestartDeletes() returns (t: Trace, k: nat)
    ensures SteadyRun(t.joints, t.steps) && k < |t.steps|
    ensures Displaces(t.joints[k], t.steps[k], 5) && !Ops.LateStep(t.joints[k].runner, t.steps[k].step)
    ensures t.steps[|t.steps| - 1] == Delete(5)
    ensures 5 in Last(t).newest && Last(t).newest[5] == 3 && 3 in Last(t).runner.ops
    ensures Last(t).runner.ops[3].record.status.Running? && !Last(t).runner.ops[3].record.harvested
  {
    var before := ThirdRuns();
    var step := Work(Ops.Happen(2, Ops.ByCancel(Ops.Glimpse(2, Ops.Uncertain, false))));
    var after := Extended(before, step);
    k := |before.steps|;
    t := DisplacedDeletes(after, 5, 2);
    assert t.steps[k] == step && t.joints[k] == Last(before);
    SteadyThrough(before, after, t);
    t := Deleted(t, 5);
  }

  lemma Deleted(t: Trace, uid: Id) returns (u: Trace)
    requires SteadyRun(t.joints, t.steps) && MayDelete(Last(t).files, uid)
    ensures SteadyRun(u.joints, u.steps) && u.steps == t.steps + [Delete(uid)] && t.joints <= u.joints
    ensures Last(u).runner == Last(t).runner && Last(u).newest == Last(t).newest
  {
    u := Extended(t, Delete(uid));
    forall i | 0 <= i < |t.steps| ensures !Reopening(u.joints[i], u.steps[i]) {
      assert t.steps[i] == u.steps[i] && t.joints[i] == u.joints[i];
    }
  }

  /** Two calm stretches with one step between them that reopens no harvest. */
  lemma SteadyThrough(before: Trace, after: Trace, t: Trace)
    requires Continues(Empty(), before, 5) && Continues(after, t, 5)
    requires before.joints <= after.joints && before.steps <= after.steps && |after.steps| == |before.steps| + 1
    requires !Reopening(Last(before), after.steps[|before.steps|])
    ensures SteadyRun(t.joints, t.steps)
  {
    forall i | 0 <= i < |t.steps| ensures !Reopening(t.joints[i], t.steps[i]) {
      if i < |before.steps| {
        assert before.steps[i] == t.steps[i] && before.joints[i] == t.joints[i];
        assert Calm(before.joints[i], before.steps[i], 5);
      } else if i == |before.steps| {
        assert after.steps[i] == t.steps[i] && after.joints[i] == t.joints[i];
      } else {
        assert Calm(t.joints[i], t.steps[i], 5);
      }
    }
  }

  // ---------- a cancel reopens an acknowledged record ----------

  /** The thread of a Python operation ends without a stop proof, and cancels read that. */
  lemma HostUncertain() returns (t: Trace)
    ensures Continues(Empty(), t, 5) && Session(Last(t), {1}, 1) && Ops.Glimpse(1, Ops.Uncertain, false) in Last(t).runner.glimpses
    ensures var l := Last(t).runner.ops[1]; l.pc.None? && l.sandbox.Live? && l.cell && Unproven(l.record)
  {
    t := HostWrites();
    t := DoesIn(t, {1}, 1, Ops.ByOutcome(Ops.GiveUp));
    t := DoesIn(t, {1}, 1, Ops.ByOutcome(Ops.Leave));
    t := Onward(Empty(), t, 5, Work(Ops.Glance(1)));
  }

  /** The first of them starts the thread again. */
  lemma HostStartsAgain() returns (t: Trace)
    ensures Continues(Empty(), t, 5) && Session(Last(t), {1}, 1) && Ops.Glimpse(1, Ops.Uncertain, false) in Last(t).runner.glimpses
    ensures var l := Last(t).runner.ops[1]; Ops.At(l, Ops.Fresh) && l.sandbox.Live? && l.cell && Unproven(l.record) && l.record.cancelRequested
  {
    t := HostUncertain();
    t := Onward(Empty(), t, 5, Work(Ops.Happen(1, Ops.ByCancel(Ops.Glimpse(1, Ops.Uncertain, false)))));
  }

  /** It stops the sandbox. */
  lemma HostStops() returns (t: Trace)
    ensures Continues(Empty(), t, 5) && Session(Last(t), {1}, 1) && Ops.Glimpse(1, Ops.Uncertain, false) in Last(t).runner.glimpses
    ensures var l := Last(t).runner.ops[1]; Ops.At(l, Ops.Stopped(false)) && !l.record.acknowledged && l.record.cancelRequested
  {
    t := HostStartsAgain();
    t := DoesIn(t, {1}, 1, Ops.ByMove(Ops.Read));
    t := DoesIn(t, {1}, 1, Ops.ByMove(Ops.Look));
    t := DoesIn(t, {1}, 1, Ops.ByMove(Ops.Run));
    t := DoesIn(t, {1}, 1, Ops.ByMove(Ops.Dispatch));
    t := DoesIn(t, {1}, 1, Ops.ByOutcome(Ops.StopSeen(false)));
  }

  /** Its output is harvested, and the operation is recorded as cancelled. */
  lemma HostCancelled() returns (t: Trace)
    ensures Continues(Empty(), t, 5) && Session(Last(t), {1}, 1) && Ops.Glimpse(1, Ops.Uncertain, false) in Last(t).runner.glimpses
    ensures var l := Last(t).runner.ops[1]; l.pc.None? && l.record.status.Cancelled? && l.record.harvested && !l.record.acknowledged
  {
    t := HostStops();
    t := DoesIn(t, {1}, 1, Ops.ByOutcome(Ops.Finish));
    t := DoesIn(t, {1}, 1, Ops.ByOutcome(Ops.Complete(Ops.Cancelled)));
    t := DoesIn(t, {1}, 1, Ops.ByOutcome(Ops.Leave));
  }

  /** That is reported, and the caller acknowledges it. */
  lemma HostAcknowledged() returns (t: Trace)
    ensures Continues(Empty(), t, 5) && Session(Last(t), {1}, 1) && Ops.Glimpse(1, Ops.Uncertain, false) in Last(t).runner.glimpses
    ensures MayDelete(Last(t).files, 5)
    ensures var l := Last(t).runner.ops[1]; l.pc.None? && l.record.harvested && l.record.acknowledged
  {
    t := HostCancelled();
    t := Onward(Empty(), t, 5, Report(5, 1, false));
    t := Onward(Empty(), t, 5, Work(Ops.Vouch(1, None)));
    t := Onward(Empty(), t, 5, Work(Ops.Happen(1, Ops.ByCall(Ops.Acknowledge(Ops.Ack(1, false, None))))));
  }

  /** The second cancel then reopens the record of a Python operation and cannot start its
      thread: the Pod's permission stays, and it is deleted while its current work is
      recorded as being cancelled. */
  lemma AcknowledgedDeletes() returns (t: Trace)
    ensures Runs(t) && t.steps != [] && t.steps[|t.steps| - 1] == Delete(5)
    ensures 5 in Last(t).files && Last(t).files[5].workOperation == 1 && 1 in Last(t).runner.ops
    ensures var l := Last(t).runner.ops[1];
            l.record.kind.Python? && l.record.status.Cancelling? && l.pc.None? && Ops.Wedged(l.record)
  {
    t := HostAcknowledged();
    t := Extended(t, Work(Ops.Happen(1, Ops.ByCancel(Ops.Glimpse(1, Ops.Uncertain, false)))));
    t := Extended(t, Delete(5));
  }
}
