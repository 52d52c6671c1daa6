/** Which record a start can never resume, and that one of them keeps the runner from ever
    serving again: an acknowledgement empties the saved request, `start` reads it first, and
    the startup scan lets that failure through (runner/control.py). */
module WedgedRecords {
  import opened Common
  import opened OperationJournal
  import opened LateCancels

  // ---------- which cancel wedges a record ----------

  /** The outcome is acknowledged, or an acknowledgement of it has passed its tests. */
  ghost predicate Given(s: State, op: Op) {
    (op in s.ops && s.ops[op].record.acknowledged) || exists a :: a in s.acks && a.op == op
  }

  /** A cancel that reopens such a record. */
  ghost predicate WedgingStep(s: State, step: Step) {
    step.Happen? && step.event.ByCancel? && Reopening(step.event.glimpse) && Given(s, step.op)
  }

  ghost predicate TidyRun(states: seq<State>, steps: seq<Step>) {
    IsRun(states, steps) && forall i {:trigger steps[i]} :: 0 <= i < |steps| ==> !WedgingStep(states[i], steps[i])
  }

  /** Terminal, without a working thread, and nothing that a cancel would reopen. */
  predicate Quiet(l: Life) {
    Terminal(l.record.status) && !Busy(l) && (l.record.status.Uncertain? ==> l.record.confirmed)
  }

  ghost predicate AllQuiet(s: State) {
    forall op {:trigger Given(s, op)} :: Given(s, op) ==> op in s.ops && Quiet(s.ops[op])
  }

  lemma {:induction false} CallKeepsQuiet(l: Life, c: Call)
    requires Quiet(l) && CallEnabled(l, c)
    ensures Quiet(CallAfter(l, c))
  {
  }

  lemma {:induction false} MoveKeepsQuiet(l: Life, m: Move)
    requires Quiet(l) && MoveEnabled(l, m)
    ensures Quiet(MoveAfter(l, m))
  {
  }

  lemma {:induction false} EventKeepsQuiet(l: Life, e: Event)
    requires Quiet(l) && Enabled(l, e) && !(e.ByCancel? && Reopening(e.glimpse))
    ensures Quiet(After(l, e))
  {
    match e
    case ByCancel(_) =>
    case ByCall(c) => CallKeepsQuiet(l, c);
    case ByMove(m) => MoveKeepsQuiet(l, m);
    case ByOutcome(_) =>
  }

  /** Only the second section of an acknowledgement acknowledges. */
  lemma {:induction false} AcknowledgedBy(l: Life, e: Event)
    requires Enabled(l, e)
    ensures After(l, e).record.acknowledged <==> l.record.acknowledged || (e.ByCall? && e.call.Acknowledge?)
  {
    match e
    case ByCancel(_) =>
    case ByCall(_) =>
    case ByMove(m) => MovesAcknowledgeNothing(l, m);
    case ByOutcome(o) => OutcomesAcknowledgeNothing(l, o);
  }

  lemma {:induction false} MovesAcknowledgeNothing(l: Life, m: Move)
    ensures MoveAfter(l, m).record.acknowledged == l.record.acknowledged
  {
    match m
    case Persist =>
    case Bind =>
    case Publish =>
    case Run =>
    case _ =>
  }

  lemma {:induction false} OutcomesAcknowledgeNothing(l: Life, o: Outcome)
    requires OutcomeEnabled(l, o)
    ensures OutcomeAfter(l, o).record.acknowledged == l.record.acknowledged
  {
    match o
    case StopSeen(_) =>
    case Finish =>
    case Complete(_) =>
    case Refuse =>
    case Lose =>
    case GiveUp =>
    case EndPreview(_, _, _) =>
    case Leave =>
  }

  lemma GivenBefore(s: State, step: Step, op: Op)
    requires Possible(s, step) && Given(Next(s, step), op)
    ensures Given(s, op) || (step.Vouch? && step.op == op)
  {
    if step.Happen? && step.op == op {
      AcknowledgedBy(s.ops[op], step.event);
    }
  }

  lemma {:induction false} StepKeepsQuiet(s: State, step: Step)
    requires AllQuiet(s) && Possible(s, step) && !WedgingStep(s, step)
    ensures AllQuiet(Next(s, step))
  {
    forall op | Given(Next(s, step), op) ensures op in Next(s, step).ops && Quiet(Next(s, step).ops[op]) {
      GivenBefore(s, step, op);
      if step.Happen? && step.op == op {
        EventKeepsQuiet(s.ops[op], step.event);
      }
    }
  }

  lemma {:induction false} RunIsQuiet(states: seq<State>, steps: seq<Step>, n: nat)
    requires TidyRun(states, steps) && n < |states|
    ensures AllQuiet(states[n])
  {
    if n > 0 {
      RunIsQuiet(states, steps, n - 1);
      StepKeepsQuiet(states[n - 1], steps[n - 1]);
    }
  }

  /** In every run in which no cancel reopens an outcome that is acknowledged or about to be,
      every record can be resumed. */
  lemma NeverWedged(states: seq<State>, steps: seq<Step>, n: nat, op: Op)
    requires TidyRun(states, steps) && n < |states| && op in states[n].ops
    ensures !Wedged(states[n].ops[op].record)
  {
    RunIsQuiet(states, steps, n);
    assert states[n].ops[op].record.acknowledged ==> Given(states[n], op);
  }

  /** `u` goes on from `t` without a further such cancel. */
  ghost predicate GoesOn(t: Trace, u: Trace) {
    && Runs(t) && Runs(u) && t.states <= u.states && t.steps <= u.steps
    && forall i {:trigger u.steps[i]} :: |t.steps| <= i < |u.steps| ==> !WedgingStep(u.states[i], u.steps[i])
  }

  ghost predicate WedgedAt(s: State, op: Op) {
    op in s.ops && Wedged(s.ops[op].record)
  }

  ghost predicate CanWedge(t: Trace, op: Op) {
    exists u :: GoesOn(t, u) && WedgedAt(Last(u), op)
  }

  /** After any run without such cancels, a further cancel makes it possible that the record
      can never be resumed, if and only if it is one of them. */
  lemma WedgesExactly(t: Trace, op: Op, g: Glimpse)
    requires TidyRun(t.states, t.steps) && Possible(Last(t), Happen(op, ByCancel(g)))
    ensures Runs(Extended(t, Happen(op, ByCancel(g))))
    ensures CanWedge(Extended(t, Happen(op, ByCancel(g))), op) <==> Reopening(g) && Given(Last(t), op)
  {
    var step := Happen(op, ByCancel(g));
    var after := Extended(t, step);
    ExtendedRuns(t, step);
    if Reopening(g) && Given(Last(t), op) {
      var u := GivenIsWedged(t, after, op, g);
      assert CanWedge(after, op);
    } else {
      forall u | GoesOn(after, u) ensures !WedgedAt(Last(u), op) {
        StaysTidy(t, after, u);
        if op in Last(u).ops {
          NeverWedged(u.states, u.steps, |u.steps|, op);
        }
      }
    }
  }

  lemma GivenIsWedged(t: Trace, after: Trace, op: Op, g: Glimpse) returns (u: Trace)
    requires Runs(t) && Possible(Last(t), Happen(op, ByCancel(g))) && Reopening(g) && Given(Last(t), op)
    requires after == Extended(t, Happen(op, ByCancel(g))) && Runs(after)
    ensures GoesOn(after, u) && WedgedAt(Last(u), op)
  {
    u := after;
    if !Last(t).ops[op].record.acknowledged {
      var a :| a in Last(t).acks && a.op == op;
      var step := Happen(op, ByCall(Acknowledge(a)));
      ExtendedRuns(after, step);
      u := Extended(after, step);
    }
  }

  lemma StaysTidy(t: Trace, after: Trace, u: Trace)
    requires TidyRun(t.states, t.steps) && GoesOn(after, u) && |after.steps| == |t.steps| + 1
    requires t.states <= after.states && t.steps <= after.steps && !WedgingStep(Last(t), after.steps[|t.steps|])
    ensures TidyRun(u.states, u.steps)
  {
    forall i | 0 <= i < |u.steps| ensures !WedgingStep(u.states[i], u.steps[i]) {
      if i <= |t.steps| {
        assert u.steps[i] == after.steps[i] && u.states[i] == after.states[i];
        if i < |t.steps| {
          assert t.steps[i] == u.steps[i] && t.states[i] == u.states[i];
        }
      }
    }
  }

  // ---------- a start with such a record ----------

  /** During a start no acknowledged record has a thread, and the scan has got past none that
      it cannot resume. */
  ghost predicate Blocked(s: State) {
    s.starting ==>
      && s.acks == {}
      && forall op :: op in s.ops && s.ops[op].record.acknowledged ==>
           s.ops[op].pc.None? && (Wedged(s.ops[op].record) ==> op !in s.tracked)
  }

  /** What can happen to an acknowledged record during a start. */
  lemma {:induction false} StartingEvent(s: State, op: Op, e: Event)
    requires Blocked(s) && s.starting && Possible(s, Happen(op, e)) && After(s.ops[op], e).record.acknowledged
    ensures var l, m := s.ops[op], After(s.ops[op], e);
            l.record.acknowledged && m.pc.None? && m.record.status == l.record.status && (Wedged(m.record) ==> !Saves(e))
  {
    AcknowledgedBy(s.ops[op], e);
    match e
    case ByCancel(_) =>
    case ByCall(_) =>
    case ByMove(_) =>
    case ByOutcome(_) =>
  }

  lemma {:induction false} StepKeepsBlocked(s: State, step: Step)
    requires Blocked(s) && Possible(s, step)
    ensures Blocked(Next(s, step))
  {
    var t := Next(s, step);
    if s.starting && step.Happen? && t.ops[step.op].record.acknowledged {
      StartingEvent(s, step.op, step.event);
    }
  }

  lemma {:induction false} RunIsBlocked(states: seq<State>, steps: seq<Step>, n: nat)
    requires IsRun(states, steps) && n < |states|
    ensures Blocked(states[n])
  {
    if n > 0 {
      RunIsBlocked(states, steps, n - 1);
      StepKeepsBlocked(states[n - 1], steps[n - 1]);
    }
  }

  lemma WedgedStep(s: State, step: Step, op: Op)
    requires Blocked(s) && Possible(s, step) && s.starting && WedgedAt(s, op)
    ensures Next(s, step).starting && WedgedAt(Next(s, step), op)
  {
    if step.Happen? && step.op == op {
      AcknowledgedBy(s.ops[op], step.event);
      StartingEvent(s, op, step.event);
    }
  }

  /** A start that finds a record which it cannot resume never ends, however often the
      process is restarted. */
  lemma {:induction false} NeverServes(t: Trace, op: Op, n: nat, m: nat)
    requires Runs(t) && n <= m <= |t.steps| && t.states[n].starting && WedgedAt(t.states[n], op)
    ensures t.states[m].starting && WedgedAt(t.states[m], op)
    decreases m
  {
    if n < m {
      NeverServes(t, op, n, m - 1);
      RunIsBlocked(t.states, t.steps, m - 1);
      assert Possible(t.states[m - 1], t.steps[m - 1]) && t.states[m] == Next(t.states[m - 1], t.steps[m - 1]);
      WedgedStep(t.states[m - 1], t.steps[m - 1], op);
    }
  }

  /** `u` goes on from `t` and nothing crashes meanwhile. */
  ghost predicate Onwards(t: Trace, u: Trace) {
    && Runs(t) && Runs(u) && t.states <= u.states && t.steps <= u.steps
    && forall i {:trigger u.steps[i]} :: |t.steps| <= i < |u.steps| ==> !u.steps[i].Crash?
  }

  ghost predicate CanServe(t: Trace) {
    exists u :: Onwards(t, u) && !Last(u).starting
  }

  function Unscanned(s: State): (ops: set<Op>) {
    set op | op in s.ops && op !in s.tracked
  }

  predicate NoneWedged(s: State) {
    forall op :: op in s.ops ==> !Wedged(s.ops[op].record)
  }

  lemma ScansOne(s: State, op: Op)
    requires s.starting && NoneWedged(s) && op in Unscanned(s)
    ensures var step := Happen(op, ByCall(Recover));
            && Possible(s, step) && Next(s, step).starting && NoneWedged(Next(s, step))
            && Unscanned(Next(s, step)) == Unscanned(s) - {op}
  {
  }

  lemma {:induction false} ScansAll(t: Trace, u: Trace) returns (v: Trace)
    requires Onwards(t, u) && Last(u).starting && NoneWedged(Last(u))
    ensures Onwards(t, v) && Last(v).starting && Unscanned(Last(v)) == {}
    decreases |Unscanned(Last(u))|
  {
    v := u;
    var s := Last(u);
    if Unscanned(s) != {} {
      HasMember(Unscanned(s));
      var op :| op in Unscanned(s);
      ScansOne(s, op);
      ExtendedRuns(u, Happen(op, ByCall(Recover)));
      v := ScansAll(t, Extended(u, Happen(op, ByCall(Recover))));
    }
  }

  /** A start completes, and requests are served, if and only if no acknowledged record is
      left neither terminal nor waiting for files. */
  lemma ServesExactly(t: Trace)
    requires Runs(t) && Last(t).starting
    ensures CanServe(t) <==> NoneWedged(Last(t))
  {
    if NoneWedged(Last(t)) {
      var u := ScansAll(t, t);
      assert forall op :: op in Last(u).ops && op !in Last(u).tracked ==> op in Unscanned(Last(u));
      ExtendedRuns(u, Ready);
      assert Onwards(t, Extended(u, Ready));
    } else {
      var op :| op in Last(t).ops && Wedged(Last(t).ops[op].record);
      forall u | Onwards(t, u) ensures Last(u).starting {
        NeverServes(u, op, |t.steps|, |u.steps|);
      }
    }
  }

  // ---------- how it comes about ----------

  /** One of two cancels that read an operation as uncertain stops it, and its outcome is
      acknowledged. */
  lemma StoppedAndAcknowledged() returns (t: Trace)
    ensures Runs(t) && 1 in Last(t).ops && !Last(t).starting && Glimpse(1, Uncertain, false) in Last(t).glimpses
    ensures Last(t).ops[1].pc.None? && Last(t).ops[1].record.acknowledged
  {
    t := BecomesDone();
    t := Act(t, 1, ByOutcome(Leave));
    t := Go(t, Vouch(1, None));
    t := Act(t, 1, ByCall(Acknowledge(Ack(1, false, None))));
  }

  /** The other one reopens the record and fails to start its thread. After the next restart
      the runner never serves a request again. */
  lemma RunnerNeverServesAgain() returns (t: Trace)
    ensures Runs(t) && t.steps != [] && t.steps[|t.steps| - 1].Crash?
    ensures forall u :: Runs(u) && t.states <= u.states && t.steps <= u.steps ==> Last(u).starting
  {
    t := StoppedAndAcknowledged();
    t := Go(t, Happen(1, ByCancel(Glimpse(1, Uncertain, false))));
    ExtendedRuns(t, Crash);
    t := Extended(t, Crash);
    forall u | Runs(u) && t.states <= u.states && t.steps <= u.steps ensures Last(u).starting {
      NeverServes(u, 1, |t.steps|, |u.steps|);
    }
  }
}
