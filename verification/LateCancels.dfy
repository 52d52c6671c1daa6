/** Why the theorems of OperationJournal leave out late and reopening cancels, and that
    they leave out nothing else: `cancel` (runner/control.py) reads a record and writes it
    without holding the lock in between. */
module LateCancels {
  import opened Common
  import opened OperationJournal

  /** A run and the state it ends in. */
  datatype Trace = Trace(states: seq<State>, steps: seq<Step>)

  ghost predicate Runs(t: Trace) {
    IsRun(t.states, t.steps)
  }

  ghost function Last(t: Trace): (s: State)
    requires Runs(t)
  {
    t.states[|t.steps|]
  }

  /** `u` continues `t` without a further late cancel. */
  ghost predicate Continues(t: Trace, u: Trace) {
    && Runs(t) && Runs(u) && t.states <= u.states && t.steps <= u.steps
    && forall i {:trigger u.steps[i]} :: |t.steps| <= i < |u.steps| ==> !LateStep(u.states[i], u.steps[i])
  }

  ghost function Extended(t: Trace, step: Step): (u: Trace)
    requires Runs(t) && Possible(Last(t), step)
  {
    Trace(t.states + [Next(Last(t), step)], t.steps + [step])
  }

  lemma ExtendedRuns(t: Trace, step: Step)
    requires Runs(t) && Possible(Last(t), step)
    ensures Runs(Extended(t, step)) && Last(Extended(t, step)) == Next(Last(t), step)
    ensures !LateStep(Last(t), step) ==> Continues(t, Extended(t, step))
  {
  }

  /** One more step after a continuation. */
  lemma Onward(t: Trace, u: Trace, step: Step) returns (v: Trace)
    requires Continues(t, u) && Possible(Last(u), step) && !LateStep(Last(u), step)
    ensures Continues(t, v) && Last(v) == Next(Last(u), step)
  {
    ExtendedRuns(u, step);
    v := Extended(u, step);
  }

  /** One move of an operation's thread after a continuation. */
  lemma Moves(t: Trace, u: Trace, op: Op, m: Move) returns (v: Trace)
    requires Continues(t, u) && op in Last(u).ops && MoveEnabled(Last(u).ops[op], m)
    ensures Continues(t, v) && Last(v).ops == Last(u).ops[op := MoveAfter(Last(u).ops[op], m)]
    ensures Last(v).starting == Last(u).starting
  {
    v := Onward(t, u, Happen(op, ByMove(m)));
  }

  // ---------- from a late cancel to a false stop proof ----------

  /** The operation is recorded as stopped and writes. */
  predicate False(s: State, op: Op) {
    op in s.ops && !s.ops[op].record.kind.Serve? && Proof(s.ops[op].record) && s.ops[op].writing
  }

  predicate Stoppable(s: State, op: Op) {
    op in s.ops && !s.ops[op].record.kind.Serve? && Proof(s.ops[op].record)
  }

  lemma Dispatches(t: Trace, u: Trace, op: Op) returns (v: Trace)
    requires Continues(t, u) && Stoppable(Last(u), op) && At(Last(u).ops[op], Working) && Waiting(Last(u).ops[op])
    ensures Continues(t, v) && False(Last(v), op)
  {
    v := Moves(t, u, op, if Last(u).ops[op].record.kind.Python? then Run else Publish);
    v := Moves(t, v, op, Dispatch);
  }

  lemma Creates(t: Trace, u: Trace, op: Op) returns (v: Trace)
    requires Continues(t, u) && Stoppable(Last(u), op) && !Last(u).ops[op].cell
    requires At(Last(u).ops[op], Missing) || At(Last(u).ops[op], Creating)
    ensures Continues(t, v) && False(Last(v), op)
  {
    v := u;
    if At(Last(u).ops[op], Missing) {
      v := Moves(t, v, op, Persist);
    }
    v := Moves(t, v, op, Create(true));
    v := Dispatches(t, v, op);
  }

  lemma Looks(t: Trace, u: Trace, op: Op) returns (v: Trace)
    requires Continues(t, u) && Stoppable(Last(u), op)
    requires var l := Last(u).ops[op];
             && l.pc.Some? && l.pc.value.Seen? && !l.cell
             && (Waiting(l) || (At(l, Seen(Accepted)) && !Reach(l) && l.record.bound.Unbound?))
    ensures Continues(t, v) && False(Last(v), op)
  {
    var l := Last(u).ops[op];
    v := Moves(t, u, op, Look);
    if Reach(l) {
      v := Dispatches(t, v, op);
    } else {
      v := Creates(t, v, op);
    }
  }

  lemma ReadsAndLooks(t: Trace, u: Trace, op: Op) returns (v: Trace)
    requires Continues(t, u) && Stoppable(Last(u), op) && At(Last(u).ops[op], Fresh) && Waiting(Last(u).ops[op])
    ensures Continues(t, v) && False(Last(v), op)
  {
    v := Moves(t, u, op, Read);
    v := Looks(t, v, op);
  }

  /** A dormant operation's opposite: its thread goes on to a first write. */
  lemma Wakes(t: Trace, op: Op) returns (v: Trace)
    requires Runs(t) && Stoppable(Last(t), op) && !Dormant(Last(t).ops[op])
    requires var l := Last(t).ops[op];
             && (At(l, Seen(Accepted)) || At(l, Missing) || At(l, Creating) ==> !l.cell)
             && (At(l, Seen(Accepted)) ==> !l.record.bound.Own? && l.sandbox.NoPod?)
             && (!l.record.bound.Unbound? ==> l.record.kind.Python?)
             && (At(l, Polling) || (l.pc.Some? && (l.pc.value.Stopped? || l.pc.value.Proved?)) ==> !Waiting(l))
    ensures Continues(t, v) && False(Last(v), op)
  {
    var l := Last(t).ops[op];
    if l.writing {
      v := t;
    } else if At(l, Missing) || At(l, Creating) {
      v := Creates(t, t, op);
    } else if At(l, Working) {
      v := Dispatches(t, t, op);
    } else if At(l, Fresh) {
      v := ReadsAndLooks(t, t, op);
    } else {
      v := Looks(t, t, op);
    }
  }

  /** A reopened record whose Pod waits for its code is resumed by the next start. */
  lemma Resumes(t: Trace, op: Op) returns (v: Trace)
    requires Runs(t) && Stoppable(Last(t), op) && Waiting(Last(t).ops[op])
    requires Last(t).ops[op].record.status.Cancelling? && !Last(t).ops[op].record.acknowledged
    ensures Continues(t, v) && False(Last(v), op)
  {
    v := Onward(t, t, Crash);
    v := Onward(t, v, Happen(op, ByCall(Recover)));
    v := ReadsAndLooks(t, v, op);
  }

  ghost predicate CanBeFalse(t: Trace, op: Op) {
    exists u :: Continues(t, u) && False(Last(u), op)
  }

  /** After any run without late cancels, a further cancel makes it possible that the
      operation writes although it is recorded as stopped, if and only if it is late. */
  lemma LateExactly(t: Trace, op: Op, g: Glimpse)
    requires SafeRun(t.states, t.steps) && Possible(Last(t), Happen(op, ByCancel(g)))
    ensures Runs(Extended(t, Happen(op, ByCancel(g))))
    ensures CanBeFalse(Extended(t, Happen(op, ByCancel(g))), op) <==> Late(Last(t).ops[op], g)
  {
    var step := Happen(op, ByCancel(g));
    var after := Extended(t, step);
    ExtendedRuns(t, step);
    RunIsTruthful(t.states, t.steps, |t.steps|);
    RunKeeps(t.states, t.steps, |t.steps|);
    var l := Last(t).ops[op];
    assert Truthful(l) && Once(l);
    if Late(l, g) {
      var v := LateIsFalse(after, op, l, g);
      assert CanBeFalse(after, op);
    } else {
      forall u | Continues(after, u) ensures !False(Last(u), op) {
        NeverFalse(t, after, u, op);
      }
    }
  }

  lemma LateIsFalse(after: Trace, op: Op, l: Life, g: Glimpse) returns (v: Trace)
    requires Runs(after) && op in Last(after).ops && Last(after).ops[op] == CancelAfter(l, g)
    requires Truthful(l) && Once(l) && Late(l, g)
    ensures Continues(after, v) && False(Last(v), op)
  {
    if g.status.AwaitingFiles? {
      v := Wakes(after, op);
    } else {
      v := Resumes(after, op);
    }
  }

  lemma NeverFalse(t: Trace, after: Trace, u: Trace, op: Op)
    requires SafeRun(t.states, t.steps) && Continues(after, u) && |after.steps| == |t.steps| + 1
    requires t.states <= after.states && t.steps <= after.steps && !LateStep(Last(t), after.steps[|t.steps|])
    ensures !False(Last(u), op)
  {
    forall i | 0 <= i < |u.steps| ensures !LateStep(u.states[i], u.steps[i]) {
      if i <= |t.steps| {
        assert u.steps[i] == after.steps[i] && u.states[i] == after.states[i];
        if i < |t.steps| {
          assert t.steps[i] == u.steps[i] && t.states[i] == u.states[i];
        }
      } else {
        assert !LateStep(u.states[i], u.steps[i]);
      }
    }
    RunIsTruthful(u.states, u.steps, |u.steps|);
    assert op in Last(u).ops ==> Truthful(Last(u).ops[op]);
  }

  // ---------- what late and reopening cancels lead to ----------

  lemma Start() returns (t: Trace)
    ensures Runs(t) && Last(t) == Initial()
  {
    t := Trace([Initial()], []);
  }

  lemma Go(t: Trace, step: Step) returns (u: Trace)
    requires Runs(t) && Possible(Last(t), step)
    ensures Runs(u) && Last(u) == Next(Last(t), step) && t.states <= u.states && |u.steps| == |t.steps| + 1
  {
    ExtendedRuns(t, step);
    u := Extended(t, step);
  }

  /** One event of one operation: only its life changes. */
  lemma Act(t: Trace, op: Op, e: Event) returns (u: Trace)
    requires Runs(t) && Possible(Last(t), Happen(op, e))
    ensures Runs(u) && Last(u).ops == Last(t).ops[op := After(Last(t).ops[op], e)]
    ensures Last(u).glimpses == Last(t).glimpses && Last(u).areas == Last(t).areas && Last(u).starting == Last(t).starting
  {
    u := Go(t, Happen(op, e));
  }

  /** A shell thread that has read `accepted` goes on to create its Pod. */
  lemma Launch(t: Trace, op: Op) returns (u: Trace)
    requires Runs(t) && op in Last(t).ops
    requires var l := Last(t).ops[op];
             At(l, Seen(Accepted)) && l.record.kind.Shell? && l.record.bound.Unbound? && l.sandbox.NoPod? && !l.cell
    ensures Runs(u) && op in Last(u).ops && At(Last(u).ops[op], Working) && Waiting(Last(u).ops[op])
    ensures Last(u).ops == Last(t).ops[op := Last(u).ops[op]] && Last(u).ops[op].sandbox.Live?
    ensures Last(u).ops[op].record == Last(t).ops[op].record.(status := Starting)
    ensures Last(u).glimpses == Last(t).glimpses && Last(u).areas == Last(t).areas && Last(u).starting == Last(t).starting
  {
    u := Act(t, op, ByMove(Look));
    u := Act(u, op, ByMove(Persist));
    u := Act(u, op, ByMove(Create(true)));
  }

  /** It publishes the request, and the command starts to write. */
  lemma Hydrate(t: Trace, op: Op) returns (u: Trace)
    requires Runs(t) && op in Last(t).ops
    requires var l := Last(t).ops[op]; At(l, Working) && l.record.kind.Shell? && Waiting(l)
    ensures Runs(u) && op in Last(u).ops && At(Last(u).ops[op], Working) && Last(u).ops[op].writing && Last(u).ops[op].cell
    ensures Last(u).ops == Last(t).ops[op := Last(u).ops[op]] && Last(u).ops[op].sandbox == Last(t).ops[op].sandbox
    ensures Last(u).ops[op].record == Last(t).ops[op].record.(executed := true)
    ensures Last(u).glimpses == Last(t).glimpses && Last(u).areas == Last(t).areas && Last(u).starting == Last(t).starting
  {
    u := Act(t, op, ByMove(Publish));
    u := Act(u, op, ByMove(Dispatch));
  }

  /** A cancel has read `awaiting_files`, then the inputs are committed and the
      operation's thread reads `accepted`. */
  lemma RaceStarts() returns (t: Trace)
    ensures Runs(t)
    ensures var s := Last(t);
            && s.ops.Keys == {1} && At(s.ops[1], Seen(Accepted)) && s.ops[1].record.bound.Unbound?
            && s.ops[1].record.kind == Shell && s.ops[1].record.area == 0 && s.ops[1].sandbox.NoPod?
            && s.areas == map[0 := Slot(1, 1)] && Glimpse(1, AwaitingFiles, false) in s.glimpses && !s.starting
            && !s.ops[1].cell && s.ops[1].record.epoch == 1
  {
    t := Start();
    t := Go(t, Accept(1, Request(0, 1, Shell, 10, 10, true), None, false, []));
    t := Go(t, Glance(1));
    t := Act(t, 1, ByCall(Commit));
    t := Act(t, 1, ByMove(Read));
  }

  /** The late cancel records the operation as stopped, so a second one is admitted. */
  lemma LateCancelAdmits() returns (t: Trace)
    ensures Runs(t)
    ensures var s := Last(t);
            && s.ops.Keys == {1, 2} && At(s.ops[1], Seen(Accepted)) && At(s.ops[2], Fresh)
            && s.ops[2].record.status == Accepted && s.ops[1].record.bound.Unbound? && s.ops[2].record.bound.Unbound?
            && s.ops[1].record.kind == s.ops[2].record.kind == Shell && s.ops[1].record.area == s.ops[2].record.area
            && s.ops[1].sandbox.NoPod? && s.ops[2].sandbox.NoPod? && !s.ops[1].cell && !s.ops[2].cell
            && s.ops[1].record.epoch < s.ops[2].record.epoch
  {
    t := RaceStarts();
    t := Act(t, 1, ByCancel(Glimpse(1, AwaitingFiles, false)));
    t := Go(t, Accept(2, Request(0, 2, Shell, 20, 20, false), None, false, []));
  }

  /** The first operation writes; the second has come into its Area. */
  lemma LateWrites() returns (t: Trace)
    ensures Runs(t)
    ensures var s := Last(t);
            && s.ops.Keys == {1, 2} && s.ops[1].writing && At(s.ops[2], Seen(Accepted)) && !s.ops[2].cell
            && s.ops[2].record.bound.Unbound? && s.ops[2].sandbox.NoPod?
            && s.ops[1].record.kind == s.ops[2].record.kind == Shell && s.ops[1].record.area == s.ops[2].record.area
  {
    t := LateCancelAdmits();
    t := Launch(t, 1);
    t := Hydrate(t, 1);
    t := Act(t, 2, ByMove(Read));
  }

  /** What a late cancel leads to: two operations that both may write to one Area. */
  lemma LateCancelTwoWriters() returns (t: Trace)
    ensures Runs(t)
    ensures var s := Last(t);
            && 1 in s.ops && 2 in s.ops && s.ops[1].writing && s.ops[2].writing
            && s.ops[1].record.kind == s.ops[2].record.kind == Shell && s.ops[1].record.area == s.ops[2].record.area
  {
    t := LateWrites();
    t := Launch(t, 2);
    t := Hydrate(t, 2);
  }

  lemma ShellReads() returns (t: Trace)
    ensures Runs(t)
    ensures var s := Last(t);
            && s.ops.Keys == {1} && At(s.ops[1], Seen(Accepted)) && s.ops[1].record.kind.Shell?
            && s.ops[1].record.bound.Unbound? && s.ops[1].record.epoch == 1 && s.ops[1].sandbox.NoPod? && !s.ops[1].cell
            && !s.ops[1].record.confirmed && !s.ops[1].record.acknowledged && !s.starting
  {
    t := Start();
    t := Go(t, Accept(1, Request(0, 1, Shell, 10, 10, false), None, false, []));
    t := Act(t, 1, ByMove(Read));
  }

  /** Two cancels have read an operation as uncertain while its Pod still runs. */
  lemma BecomesUncertain() returns (t: Trace)
    ensures Runs(t)
    ensures var s := Last(t);
            && s.ops.Keys == {1} && s.ops[1].pc.None? && s.ops[1].record.status == Uncertain && !s.starting
            && s.ops[1].record.kind == Shell && s.ops[1].record.epoch == 1 && s.ops[1].record.bound.Unbound?
            && s.ops[1].sandbox.Live? && !s.ops[1].record.acknowledged && Glimpse(1, Uncertain, false) in s.glimpses
  {
    t := ShellReads();
    t := Launch(t, 1);
    t := Hydrate(t, 1);
    t := Act(t, 1, ByOutcome(GiveUp));
    t := Act(t, 1, ByOutcome(Leave));
    t := Go(t, Glance(1));
  }

  /** The first of them stops the operation. */
  lemma BecomesStopped() returns (t: Trace)
    ensures Runs(t)
    ensures var s := Last(t);
            && s.ops.Keys == {1} && At(s.ops[1], Stopped(false)) && s.ops[1].record.kind == Shell && s.ops[1].record.epoch == 1
            && s.ops[1].record.cancelRequested
            && s.ops[1].record.bound.Unbound? && Glimpse(1, Uncertain, false) in s.glimpses && !s.starting
  {
    t := BecomesUncertain();
    t := Act(t, 1, ByCancel(Glimpse(1, Uncertain, false)));
    t := Act(t, 1, ByMove(Read));
    t := Act(t, 1, ByMove(Look));
    t := Act(t, 1, ByMove(Halt));
    t := Act(t, 1, ByOutcome(StopSeen(false)));
  }

  /** Its output is harvested. */
  lemma BecomesDone() returns (t: Trace)
    ensures Runs(t)
    ensures var s := Last(t);
            && s.ops.Keys == {1} && Done(s.ops[1].record) && s.ops[1].record.kind == Shell && s.ops[1].record.epoch == 1
            && s.ops[1].record.status == Cancelled && At(s.ops[1], Ending)
            && s.ops[1].record.bound.Unbound? && Glimpse(1, Uncertain, false) in s.glimpses && !s.starting
  {
    t := BecomesStopped();
    t := Act(t, 1, ByOutcome(Finish));
    t := Act(t, 1, ByOutcome(Complete(Cancelled)));
  }

  /** The second then reopens it: harvested for good it is not. */
  lemma ReopenUndoesHarvest() returns (t: Trace, k: nat)
    ensures Runs(t) && k < |t.steps|
    ensures 1 in t.states[k].ops && Done(t.states[k].ops[1].record)
    ensures 1 in Last(t).ops && !Done(Last(t).ops[1].record)
  {
    var done := BecomesDone();
    k := |done.steps|;
    t := Go(done, Happen(1, ByCancel(Glimpse(1, Uncertain, false))));
  }

  lemma PythonReads() returns (t: Trace)
    ensures Runs(t)
    ensures var s := Last(t);
            && s.ops.Keys == {1} && At(s.ops[1], Seen(Accepted)) && s.ops[1].record.kind.Python?
            && s.ops[1].record.bound.Unbound? && s.ops[1].sandbox.NoPod? && !s.ops[1].cell && !s.ops[1].writing
            && !s.ops[1].record.confirmed && !s.ops[1].record.acknowledged && !s.starting
            && Glimpse(1, AwaitingFiles, false) in s.glimpses
  {
    t := Start();
    t := Go(t, Accept(1, Request(0, 1, Python, 10, 10, true), None, false, []));
    t := Go(t, Glance(1));
    t := Act(t, 1, ByCall(Commit));
    t := Act(t, 1, ByMove(Read));
  }

  /** A Python operation is committed after a cancel has read it, and its Pod comes up. */
  lemma PythonComesUp() returns (t: Trace)
    ensures Runs(t)
    ensures var s := Last(t);
            && s.ops.Keys == {1} && At(s.ops[1], Working) && s.ops[1].record.kind.Python? && s.ops[1].sandbox.Live?
            && !s.ops[1].cell && !s.ops[1].writing && !s.ops[1].record.confirmed && !s.ops[1].record.acknowledged && !s.starting
            && Glimpse(1, AwaitingFiles, false) in s.glimpses
  {
    t := PythonReads();
    t := Act(t, 1, ByMove(Look));
    t := Act(t, 1, ByMove(Persist));
    t := Act(t, 1, ByMove(Create(true)));
  }

  /** The other way to be late: the thread gives up before it sends the cell, a second
      cancel reads that, the first one finds the operation dormant and records it as
      stopped, and now the second one would reopen it. */
  lemma ReopeningCanBeLate() returns (t: Trace)
    ensures Runs(t) && Possible(Last(t), Happen(1, ByCancel(Glimpse(1, Uncertain, false))))
    ensures Proof(Last(t).ops[1].record) && Late(Last(t).ops[1], Glimpse(1, Uncertain, false))
  {
    t := PythonComesUp();
    t := Act(t, 1, ByOutcome(GiveUp));
    t := Act(t, 1, ByOutcome(Leave));
    t := Go(t, Glance(1));
    assert !Late(Last(t).ops[1], Glimpse(1, AwaitingFiles, false));
    t := Act(t, 1, ByCancel(Glimpse(1, AwaitingFiles, false)));
  }

  // ---------- a preview in the way ----------

  /** A preview runs in the Area of an idle writer's slot. */
  lemma PreviewRuns() returns (t: Trace)
    ensures Runs(t)
    ensures var s := Last(t);
            && s.ops.Keys == {1} && s.ops[1].record.kind == Serve && s.ops[1].record.area == 0 && s.ops[1].sandbox.Live?
            && s.areas == map[] && !s.starting
  {
    t := Start();
    t := Go(t, Accept(1, Request(0, 1, Serve, 10, 10, false), None, false, []));
    t := Act(t, 1, ByMove(Read));
    t := Act(t, 1, ByMove(Look));
    t := Act(t, 1, ByMove(Persist));
    t := Act(t, 1, ByMove(Create(true)));
  }

  /** The Area is free, and yet no writer is accepted for it. */
  lemma PreviewFences(request: Request, op: Op, session: Option<Op>, probe: bool, pods: seq<Pod>) returns (t: Trace)
    requires request.area == 0 && !request.kind.Serve?
    ensures Runs(t) && AreaFree(Records(Last(t)), Last(t).areas, request)
    ensures !Possible(Last(t), Accept(op, request, session, probe, pods))
  {
    t := PreviewRuns();
  }
}
