/** The Execution Pod controller (runner/execution_pod.py) for one Scratch Space: Pod
    epochs, guard bindings, the sticky "termination unconfirmed" bit and the command
    lifecycle. A run interleaves lifecycle requests, command workers, future callbacks,
    the sandboxes and crashes; one durable save is one step. */
module ExecutionPods {
  import opened Common

  type Op = int
  type Uid = int

  // ---------- commands ----------

  datatype Status = Queued | Running | Completed | TimedOut | Stopped | Cancelled | Interrupted

  predicate Terminal(status: Status) {
    !status.Queued? && !status.Running?
  }

  /** Where a command's worker is: let in by the executor, its record claimed as running,
      its command sent, and its Pod stopped or the Space marked. */
  datatype Pc = Entered | Claimed | Sent | Proved

  /** A future is in memory until its callback has run. */
  datatype Future = Absent | Pending | Active(pc: Pc) | Finished | Withdrawn

  /** `digest` binds the whole request that claimed the operation identity. */
  datatype Command = Command(pod: Uid, background: bool, digest: int, status: Status, sent: nat, future: Future)

  datatype Event = Enter | Claim | Send | Conclude(outcome: Status) | Quit | Prove | GiveUp | Withdraw | Callback
                 | Interrupt | Retire

  predicate Enabled(c: Command, e: Event) {
    match e
    case Enter => c.future.Pending?
    case Claim => c.future == Active(Entered)
    case Send => c.future == Active(Claimed)
    case Conclude(outcome) => c.future == Active(Sent) && (outcome.Completed? || outcome.TimedOut? || outcome.Stopped?)
    case Quit => (c.future == Active(Claimed) || c.future == Active(Sent)) && c.status.Interrupted?
    case Prove => c.future == Active(Claimed) || c.future == Active(Sent)
    case GiveUp => c.future == Active(Proved)
    case Withdraw => c.future.Pending?
    case Callback => c.future.Finished? || c.future.Withdrawn?
    case Interrupt => !Terminal(c.status)
    case Retire => !Terminal(c.status) && c.future.Absent?
  }

  /** `_update_command`: an interrupted record keeps its status. */
  function Updated(c: Command, status: Status): (d: Command) {
    if c.status.Interrupted? then c else c.(status := status)
  }

  function Ended(c: Command): (d: Command) {
    c.(status := if c.status.Running? then Interrupted else Cancelled)
  }

  function After(c: Command, e: Event): (d: Command) {
    match e
    case Enter => c.(future := Active(Entered))
    case Claim => if c.status.Queued? then Updated(c, Running).(future := Active(Claimed)) else c.(future := Finished)
    case Send => c.(sent := c.sent + 1, future := Active(Sent))
    case Conclude(outcome) => Updated(c, outcome).(future := Finished)
    case Quit => c.(future := Finished)
    case Prove => c.(future := Active(Proved))
    case GiveUp => Updated(c, Interrupted).(future := Finished)
    case Withdraw => c.(future := Withdrawn)
    case Callback => (if c.future.Withdrawn? then Updated(c, Cancelled) else c).(future := Absent)
    case Interrupt => Ended(c)
    case Retire => Ended(c)
  }

  /** What one event can do to a status: queued to running, running to an end other than
      cancelled, queued to cancelled, and an end is final. */
  predicate Moves(a: Status, b: Status) {
    a == b || (a.Queued? && (b.Running? || b.Cancelled?)) || (a.Running? && Terminal(b) && !b.Cancelled?)
  }

  /** What a command can have become. */
  predicate Moved(a: Command, b: Command) {
    && a.pod == b.pod && a.background == b.background && a.digest == b.digest && a.sent <= b.sent
    && (Terminal(a.status) ==> b.status == a.status)
    && (a.status.Running? ==> !b.status.Queued? && !b.status.Cancelled?)
  }

  /** The status and the future agree, and nothing is sent twice. */
  predicate Coherent(c: Command) {
    && c.sent <= 1
    && (c.status.Queued? || c.future.Pending? || c.future.Withdrawn? || c.future == Active(Entered) ==>
          c.sent == 0 && (c.status.Queued? || c.status.Cancelled?))
    && (c.future == Active(Claimed) ==> c.sent == 0)
    && (c.future == Active(Claimed) || c.future == Active(Sent) || c.future == Active(Proved) ==>
          c.status.Running? || c.status.Interrupted?)
    && (c.status.Queued? ==> c.future.Absent? || c.future.Pending? || c.future.Withdrawn? || c.future == Active(Entered))
    && (c.status.Running? ==> c.future.Absent? || (c.future.Active? && !c.future.pc.Entered?))
  }

  lemma {:induction false} EventKeepsCommand(c: Command, e: Event)
    requires Coherent(c) && Enabled(c, e)
    ensures Coherent(After(c, e)) && Moved(c, After(c, e)) && Moves(c.status, After(c, e).status)
  {
  }

  lemma CrashKeepsCommand(c: Command)
    requires Coherent(c)
    ensures Coherent(c.(future := Absent))
  {
  }

  // ---------- the Space ----------

  datatype Guard = Guard(uid: Uid, epoch: nat, terminated: bool)

  /** The durable state of the Space. */
  datatype Space = Space(epoch: nat, guard: Option<Guard>, terminated: set<Uid>, unconfirmed: bool, admitted: Option<Uid>)

  /** The Pod object of the Space's name, the sandboxes that may be running, and which
      identities were ever used and ever bound to a guard. */
  datatype World = World(pod: Option<Uid>, alive: set<Uid>, used: set<Uid>, guarded: set<Uid>)

  /** How far the holder of the Space lock is: the unconfirmed bit tested for a new command
      and then the Pod looked up, an epoch reserved for a Pod to create, or the stages of a
      stop. Workers do not need that lock to mark the Space and to end their commands. */
  datatype Phase = Idle | Tested | Found(pod: Option<Uid>) | Reserved | Interrupting | Terminating | Deleting | Clearing

  datatype State = State(space: Space, world: World, commands: map<Op, Command>, phase: Phase,
                         foreground: int, recovering: bool)

  datatype Step =
    | Test | Find | Submit(op: Op, background: bool, digest: int) | Happen(op: Op, event: Event)
    | BeginStop | EndInterrupts | Terminate(confirmed: bool) | PassTerminated | Abort | DeletePod | ClearBit
    | Reserve | Create(uid: Uid, made: bool) | RecordGuard | Admit | ClearAdmitted | Mark
    | Vanish | Die(uid: Uid) | Crash | Recovered

  /** A command is between the test of the bit and its acceptance. */
  predicate Submitting(s: State) {
    s.phase.Tested? || s.phase.Found?
  }

  /** No guard binding is left to terminate. */
  predicate GuardDone(space: Space) {
    space.guard.None? || space.guard.value.terminated
  }

  /** The command's Pod is confirmed terminated, or the Space is marked. */
  predicate StopKnown(s: State, pod: Uid) {
    pod in s.space.terminated || s.space.unconfirmed
  }

  predicate EventPossible(s: State, op: Op, e: Event) {
    && op in s.commands && Enabled(s.commands[op], e)
    && (e.Prove? ==> StopKnown(s, s.commands[op].pod))
    && (e.Interrupt? ==> s.phase.Interrupting?)
    && (e.Retire? ==> s.recovering && (s.commands[op].status.Running? ==> StopKnown(s, s.commands[op].pod)))
  }

  predicate Possible(s: State, step: Step) {
    match step
    case Test => s.phase.Idle? && !s.recovering && !s.space.unconfirmed
    case Find => s.phase.Tested?
    // The second locked section tests only the admission of the Pod that was found.
    case Submit(op, _, _) => s.phase.Found? && op !in s.commands && s.phase.pod.Some? && s.space.admitted == s.phase.pod
    case Happen(op, e) => EventPossible(s, op, e)
    case BeginStop => s.phase.Idle?
    case EndInterrupts => s.phase.Interrupting? && forall op :: op in s.commands ==> Terminal(s.commands[op].status)
    case Terminate(_) => (s.phase.Idle? || s.phase.Terminating?) && !GuardDone(s.space)
    case PassTerminated => s.phase.Terminating? && GuardDone(s.space)
    case Abort => (s.phase.Terminating? && GuardDone(s.space)) || s.phase.Deleting? || s.phase.Clearing? || s.phase.Reserved?
                  || Submitting(s)
    case DeletePod => s.phase.Deleting?
    case ClearBit => s.phase.Clearing?
    // The bit was tested before the recorded Pod was ended, and may have been set since.
    case Reserve => s.phase.Idle? && !s.recovering && s.world.pod.None? && GuardDone(s.space)
    case Create(uid, _) => s.phase.Reserved? && uid !in s.world.used
    // The node guard answers only for a live sandbox that it has not tombstoned.
    case RecordGuard => s.phase.Idle? && s.world.pod.Some? && s.world.pod.value in s.world.alive
    case Admit => s.phase.Idle? && s.world.pod.Some? && s.space.guard.Some?
                  && s.space.guard.value.uid == s.world.pod.value && !s.space.guard.value.terminated
    case ClearAdmitted => s.phase.Idle?
    case Mark => true
    case Vanish => true
    case Die(_) => true
    case Crash => true
    case Recovered => s.recovering && forall op :: op in s.commands ==> Terminal(s.commands[op].status)
  }

  function Terminated(s: State, confirmed: bool): (t: State)
    requires !GuardDone(s.space)
  {
    var g := s.space.guard.value;
    if confirmed then
      s.(space := s.space.(guard := Some(g.(terminated := true)), terminated := s.space.terminated + {g.uid}, unconfirmed := false),
         world := s.world.(alive := s.world.alive - {g.uid}),
         phase := if s.phase.Terminating? then Deleting else Idle)
    else
      s.(space := s.space.(unconfirmed := true), phase := Idle)
  }

  function Happened(s: State, op: Op, e: Event): (t: State)
    requires op in s.commands
  {
    var c := s.commands[op];
    s.(commands := s.commands[op := After(c, e)],
       foreground := if e.Callback? && !c.background then Max(0, s.foreground - 1) else s.foreground)
  }

  function Submitted(s: State, op: Op, background: bool, digest: int): (t: State)
    requires s.phase.Found? && s.phase.pod.Some?
  {
    s.(commands := s.commands[op := Command(s.phase.pod.value, background, digest, Queued, 0, Pending)],
       foreground := if background then s.foreground else s.foreground + 1, phase := Idle)
  }

  function Created(s: State, uid: Uid, made: bool): (t: State) {
    s.(phase := Idle,
       world := if made then s.world.(pod := Some(uid), alive := s.world.alive + {uid}, used := s.world.used + {uid})
                else s.world.(used := s.world.used + {uid}))
  }

  function GuardRecorded(s: State): (t: State)
    requires s.world.pod.Some?
  {
    s.(space := s.space.(guard := Some(Guard(s.world.pod.value, s.space.epoch, false))),
       world := s.world.(guarded := s.world.guarded + {s.world.pod.value}))
  }

  /** A crash loses the futures, the counter and the lock, and keeps the files. */
  function Crashed(s: State): (t: State) {
    s.(commands := map op | op in s.commands :: s.commands[op].(future := Absent), phase := Idle,
       foreground := 0, recovering := true)
  }

  function Next(s: State, step: Step): (t: State)
    requires Possible(s, step)
  {
    match step
    case Test => s.(phase := Tested)
    case Find => s.(phase := Found(s.world.pod))
    case Submit(op, background, digest) => Submitted(s, op, background, digest)
    case Happen(op, e) => Happened(s, op, e)
    case BeginStop => s.(space := s.space.(admitted := None), phase := Interrupting)
    case EndInterrupts => s.(phase := Terminating)
    case Terminate(confirmed) => Terminated(s, confirmed)
    case PassTerminated => s.(phase := Deleting)
    case Abort => s.(phase := Idle)
    case DeletePod => s.(world := s.world.(pod := None), phase := Clearing)
    case ClearBit => s.(space := s.space.(unconfirmed := false), phase := Idle)
    case Reserve => s.(space := s.space.(epoch := s.space.epoch + 1, guard := None, admitted := None), phase := Reserved)
    case Create(uid, made) => Created(s, uid, made)
    case RecordGuard => GuardRecorded(s)
    case Admit => s.(space := s.space.(admitted := s.world.pod))
    case ClearAdmitted => s.(space := s.space.(admitted := None))
    case Mark => s.(space := s.space.(unconfirmed := true))
    case Vanish => s.(world := s.world.(pod := None))
    case Die(uid) => s.(world := s.world.(alive := s.world.alive - {uid}))
    case Crash => Crashed(s)
    case Recovered => s.(recovering := false)
  }

  function Initial(): (s: State) {
    State(Space(0, None, {}, false, None), World(None, {}, {}, {}), map[], Idle, 0, false)
  }

  // ---------- what every step keeps ----------

  /** Every Pod ever bound to a guard is the one bound now or confirmed terminated, and
      commands only ever ran in Pods bound to a guard. */
  ghost predicate Bound(s: State) {
    var sp, w := s.space, s.world;
    && (forall uid :: uid in w.guarded ==> uid in w.used && (uid in sp.terminated || (sp.guard.Some? && sp.guard.value.uid == uid)))
    && (sp.guard.Some? ==> sp.guard.value.uid in w.guarded && sp.guard.value.epoch <= sp.epoch)
    && (sp.guard.Some? ==> (sp.guard.value.terminated <==> sp.guard.value.uid in sp.terminated))
    && (forall uid :: uid in sp.terminated ==> uid in w.used && uid !in w.alive)
    && (sp.admitted.Some? ==> sp.guard.Some? && sp.guard.value.uid == sp.admitted.value)
    && (w.pod.Some? ==> w.pod.value in w.used && (sp.guard.Some? ==> sp.guard.value.uid == w.pod.value))
    && (s.phase.Reserved? ==> sp.guard.None? && w.pod.None?)
    && (s.phase.Deleting? || s.phase.Clearing? ==> GuardDone(sp))
    && (Stopping(s) ==> sp.admitted.None?) && (Submitting(s) ==> !s.recovering)
    && (forall op :: op in s.commands ==> s.commands[op].pod in w.guarded)
  }

  ghost predicate AllCoherent(s: State) {
    forall op :: op in s.commands ==> Coherent(s.commands[op])
  }

  /** The foreground commands whose future is not done with. */
  function Foreground(commands: map<Op, Command>): (ops: set<Op>) {
    set op | op in commands && Counts(commands[op])
  }

  predicate Counts(c: Command) {
    !c.background && !c.future.Absent?
  }

  lemma TerminateKeepsBound(s: State, confirmed: bool)
    requires Bound(s) && Possible(s, Terminate(confirmed))
    ensures Bound(Next(s, Terminate(confirmed)))
  {
  }

  lemma ReserveKeepsBound(s: State)
    requires Bound(s) && Possible(s, Reserve)
    ensures Bound(Next(s, Reserve))
  {
  }

  lemma CreateKeepsBound(s: State, uid: Uid, made: bool)
    requires Bound(s) && Possible(s, Create(uid, made))
    ensures Bound(Next(s, Create(uid, made)))
  {
  }

  lemma {:induction false} SpaceStepKeepsBound(s: State, step: Step)
    requires Bound(s) && Possible(s, step) && !step.Happen? && !step.Crash? && !step.Submit?
    ensures Bound(Next(s, step))
  {
    match step
    case Terminate(confirmed) => TerminateKeepsBound(s, confirmed);
    case Reserve => ReserveKeepsBound(s);
    case Create(uid, made) => CreateKeepsBound(s, uid, made);
    case _ =>
  }

  lemma {:induction false} StepKeepsBound(s: State, step: Step)
    requires Bound(s) && AllCoherent(s) && Possible(s, step)
    ensures Bound(Next(s, step)) && AllCoherent(Next(s, step))
  {
    match step
    case Happen(op, e) => EventKeepsCommand(s.commands[op], e);
    case Submit(_, _, _) =>
    case Crash =>
      forall op | op in s.commands ensures Coherent(s.commands[op].(future := Absent)) {
        CrashKeepsCommand(s.commands[op]);
      }
    case _ => SpaceStepKeepsBound(s, step);
  }

  // ---------- the foreground counter ----------

  lemma {:induction false} EventKeepsFuture(c: Command, e: Event)
    requires Enabled(c, e)
    ensures After(c, e).background == c.background
    ensures e.Callback? ==> !c.future.Absent? && After(c, e).future.Absent?
    ensures !e.Callback? ==> (After(c, e).future.Absent? <==> c.future.Absent?)
  {
  }

  /** The counter of foreground jobs is the number of unfinished foreground futures. */
  ghost predicate Counted(s: State) {
    s.foreground == |Foreground(s.commands)|
  }

  lemma ForegroundReplaced(commands: map<Op, Command>, op: Op, c: Command)
    ensures Foreground(commands[op := c]) == if Counts(c) then Foreground(commands) + {op} else Foreground(commands) - {op}
  {
  }

  lemma EventKeepsCount(s: State, op: Op, e: Event)
    requires Counted(s) && op in s.commands && Enabled(s.commands[op], e)
    ensures Counted(Happened(s, op, e))
  {
    var c := s.commands[op];
    EventKeepsFuture(c, e);
    ForegroundReplaced(s.commands, op, After(c, e));
    assert op in Foreground(s.commands) <==> Counts(c);
    if !Counts(c) {
      assert Foreground(s.commands) - {op} == Foreground(s.commands);
    } else {
      assert Foreground(s.commands) + {op} == Foreground(s.commands);
    }
  }

  lemma {:induction false} StepKeepsCount(s: State, step: Step)
    requires Counted(s) && Possible(s, step)
    ensures Counted(Next(s, step))
  {
    match step
    case Happen(op, e) => EventKeepsCount(s, op, e);
    case Submit(op, background, digest) =>
      ForegroundReplaced(s.commands, op, Submitted(s, op, background, digest).commands[op]);
      assert op !in Foreground(s.commands);
      assert Foreground(s.commands) - {op} == Foreground(s.commands);
    case Crash =>
      var commands := Crashed(s).commands;
      assert forall op :: op in commands ==> !Counts(commands[op]);
      assert Foreground(commands) == {};
    case _ =>
  }

  // ---------- interrupted commands ----------

  /** A stop that has begun and has not yet ended the guarded Pod or failed to. */
  predicate Stopping(s: State) {
    s.phase.Interrupting? || s.phase.Terminating?
  }

  ghost predicate Protected(s: State) {
    && (forall op :: op in s.commands && s.commands[op].status.Interrupted? ==>
          StopKnown(s, s.commands[op].pod) || Stopping(s))
    && (forall op :: op in s.commands && s.commands[op].future == Active(Proved) ==> StopKnown(s, s.commands[op].pod))
  }

  /** Once no guard binding is left, every Pod that ever ran a command is terminated. */
  lemma AllTerminated(s: State)
    requires Bound(s) && GuardDone(s.space)
    ensures forall op :: op in s.commands ==> s.commands[op].pod in s.space.terminated
  {
  }

  lemma {:induction false} StepKeepsProtected(s: State, step: Step)
    requires Bound(s) && AllCoherent(s) && Protected(s) && Possible(s, step) && !step.Crash?
    ensures Protected(Next(s, step))
  {
    match step
    case Happen(op, e) => EventKeepsProtected(s, op, e);
    case Terminate(confirmed) =>
      StepKeepsBound(s, step);
      if confirmed { AllTerminated(Next(s, step)); }
    case PassTerminated => AllTerminated(s);
    case Abort => if GuardDone(s.space) { AllTerminated(s); }
    case ClearBit => AllTerminated(s);
    case _ =>
  }

  lemma {:induction false} EventKeepsProtected(s: State, op: Op, e: Event)
    requires AllCoherent(s) && Protected(s) && EventPossible(s, op, e)
    ensures Protected(Happened(s, op, e))
  {
    assert Coherent(s.commands[op]);
  }

  /** A stop has begun, the Space is not marked, the guard binding is still live, and a
      command of the bound Pod is already recorded as interrupted. */
  ghost predicate Exposed(s: State) {
    && Stopping(s) && !s.space.unconfirmed && !GuardDone(s.space)
    && exists op :: op in s.commands && s.commands[op].status.Interrupted? && s.commands[op].pod == s.space.guard.value.uid
  }

  /** A crash breaks the protection exactly in an exposed state. */
  lemma CrashProtectsExactly(s: State)
    requires Bound(s) && Protected(s)
    ensures Protected(Crashed(s)) <==> !Exposed(s)
  {
    var t := Crashed(s);
    forall op | op in s.commands
      ensures t.commands[op].status == s.commands[op].status
      ensures StopKnown(t, t.commands[op].pod) <==>
                s.space.unconfirmed || GuardDone(s.space) || s.commands[op].pod != s.space.guard.value.uid
    {
    }
  }

  // ---------- commands whose end is unknown, through crashes ----------

  /** The node guard's answer for the Pod is recorded, or nothing is let in before it is: a
      stop is in progress, the Pod object is gone and not admitted, or the recovery has yet to
      stop it. */
  ghost predicate Shields(s: State, pod: Uid) {
    StopKnown(s, pod) || Stopping(s) || (s.world.pod.None? && s.space.admitted.None?) || (s.recovering && RunningIn(s, pod))
  }

  ghost predicate RunningIn(s: State, pod: Uid) {
    exists op :: op in s.commands && s.commands[op].status.Running? && s.commands[op].pod == pod
  }

  ghost predicate Covered(s: State, op: Op) {
    op in s.commands ==>
      && (s.commands[op].status.Interrupted? ==> Shields(s, s.commands[op].pod))
      && (s.commands[op].future == Active(Proved) ==> StopKnown(s, s.commands[op].pod))
      && (s.recovering ==> s.commands[op].future.Absent?)
  }

  ghost predicate Shielded(s: State) {
    forall op {:trigger Covered(s, op)} :: Covered(s, op)
  }

  /** An exposed state in which the Pod is still there and no command of it runs, so that a
      recovery finds no reason to stop it. */
  ghost predicate Stranded(s: State) {
    Exposed(s) && s.world.pod.Some? && !RunningIn(s, s.space.guard.value.uid)
  }

  /** The Pod of one interrupted command through one event of any command. */
  lemma EventKeepsShields(s: State, op: Op, e: Event, pod: Uid)
    requires AllCoherent(s) && Covered(s, op) && EventPossible(s, op, e) && Shields(s, pod)
    ensures Shields(Happened(s, op, e), pod)
  {
    var t := Happened(s, op, e);
    if !StopKnown(s, pod) && !Stopping(s) && (s.world.pod.Some? || s.space.admitted.Some?) {
      var other :| other in s.commands && s.commands[other].status.Running? && s.commands[other].pod == pod;
      assert t.commands[other].status.Running?;
    }
  }

  lemma {:induction false} EventKeepsShielded(s: State, op: Op, e: Event)
    requires AllCoherent(s) && Shielded(s) && EventPossible(s, op, e)
    ensures Shielded(Happened(s, op, e))
  {
    var t := Happened(s, op, e);
    assert Coherent(s.commands[op]) && Covered(s, op);
    EventKeepsFuture(s.commands[op], e);
    forall other ensures Covered(t, other) {
      assert Covered(s, other);
      if other in s.commands && s.commands[other].status.Interrupted? {
        EventKeepsShields(s, op, e, s.commands[other].pod);
      }
    }
  }

  /** A running command keeps running while no command changes. */
  lemma SameRunning(s: State, t: State, pod: Uid)
    requires t.commands.Keys == s.commands.Keys
    requires forall op :: op in s.commands ==> t.commands[op].status == s.commands[op].status && t.commands[op].pod == s.commands[op].pod
    ensures RunningIn(t, pod) <==> RunningIn(s, pod)
  {
    if RunningIn(s, pod) {
      var op :| op in s.commands && s.commands[op].status.Running? && s.commands[op].pod == pod;
      assert op in t.commands && t.commands[op].status.Running?;
    }
  }

  lemma {:induction false} SpaceStepKeepsShielded(s: State, step: Step)
    requires Bound(s) && Shielded(s) && Possible(s, step) && !step.Happen? && !step.Crash? && !step.Submit?
    ensures Shielded(Next(s, step))
  {
    var t := Next(s, step);
    SpaceStepKeepsBound(s, step);
    forall op ensures Covered(t, op) {
      assert Covered(s, op);
      if op in s.commands {
        GuardedOrTerminated(s, op);
        GuardedOrTerminated(t, op);
        SameRunning(s, t, s.commands[op].pod);
        SpaceStepKeepsCovered(s, step, op);
      }
    }
  }

  /** A Pod leaves the shield of a mark or of a stop only once it is confirmed terminated. */
  lemma {:induction false} SpaceStepKeepsCovered(s: State, step: Step, op: Op)
    requires Covered(s, op) && op in s.commands
    requires Possible(s, step) && !step.Happen? && !step.Crash? && !step.Submit?
    requires s.phase.Reserved? || s.phase.Deleting? || s.phase.Clearing? ==> GuardDone(s.space)
    requires var t, pod := Next(s, step), s.commands[op].pod;
             && (GuardDone(s.space) ==> pod in s.space.terminated) && (GuardDone(t.space) ==> pod in t.space.terminated)
             && (RunningIn(t, pod) <==> RunningIn(s, pod))
    ensures Covered(Next(s, step), op)
  {
    match step
    case Terminate(_) =>
    case _ =>
  }

  lemma GuardedOrTerminated(s: State, op: Op)
    requires Bound(s) && op in s.commands
    ensures GuardDone(s.space) ==> s.commands[op].pod in s.space.terminated
  {
    if GuardDone(s.space) { AllTerminated(s); }
  }

  lemma {:induction false} StepKeepsShielded(s: State, step: Step)
    requires Bound(s) && AllCoherent(s) && Shielded(s) && Possible(s, step) && !step.Crash?
    ensures Shielded(Next(s, step))
  {
    match step
    case Happen(op, e) => EventKeepsShielded(s, op, e);
    case Submit(_, _, _) =>
      forall op ensures Covered(Next(s, step), op) {
        assert Covered(s, op);
      }
    case _ => SpaceStepKeepsShielded(s, step);
  }

  /** A crash lifts the shield exactly in a stranded state. */
  lemma CrashShieldsExactly(s: State)
    requires Bound(s) && Shielded(s)
    ensures Shielded(Crashed(s)) <==> !Stranded(s)
  {
    var t := Crashed(s);
    forall op | op in s.commands && s.commands[op].status.Interrupted?
      ensures Shields(t, s.commands[op].pod) <==> !(Stranded(s) && s.commands[op].pod == s.space.guard.value.uid)
    {
      assert Covered(s, op);
      SameRunning(s, t, s.commands[op].pod);
      assert s.commands[op].pod in s.world.guarded;
    }
    if Stranded(s) {
      var op :| op in s.commands && s.commands[op].status.Interrupted? && s.commands[op].pod == s.space.guard.value.uid;
      assert !Covered(t, op);
    } else {
      forall op ensures Covered(t, op) {
        assert Covered(s, op);
      }
    }
  }

  // ---------- every run ----------

  ghost predicate IsRun(states: seq<State>, steps: seq<Step>) {
    && |states| == |steps| + 1 && states[0] == Initial()
    && forall i {:trigger steps[i]} :: 0 <= i < |steps| ==>
         Possible(states[i], steps[i]) && states[i + 1] == Next(states[i], steps[i])
  }

  lemma {:induction false} RunKeeps(states: seq<State>, steps: seq<Step>, n: nat)
    requires IsRun(states, steps) && n < |states|
    ensures Bound(states[n]) && AllCoherent(states[n]) && Counted(states[n])
  {
    if n > 0 {
      RunKeeps(states, steps, n - 1);
      StepKeepsBound(states[n - 1], steps[n - 1]);
      StepKeepsCount(states[n - 1], steps[n - 1]);
    }
  }

  /** Whenever an epoch is reserved, every Pod that was ever bound to a guard is confirmed
      terminated, and the new epoch is greater than all before. */
  lemma ReservedAfterTermination(states: seq<State>, steps: seq<Step>, n: nat, uid: Uid)
    requires IsRun(states, steps) && n < |steps| && steps[n] == Reserve && uid in states[n].world.guarded
    ensures uid in states[n].space.terminated && uid !in states[n].world.alive
    ensures states[n + 1].space.epoch == states[n].space.epoch + 1
  {
    RunKeeps(states, steps, n);
  }

  lemma EpochStep(s: State, step: Step, t: State)
    requires Possible(s, step) && t == Next(s, step)
    ensures s.space.epoch <= t.space.epoch
  {
  }

  lemma TerminatedStep(s: State, step: Step, t: State, uid: Uid)
    requires Possible(s, step) && t == Next(s, step) && uid in s.space.terminated
    ensures uid in t.space.terminated
  {
  }

  /** Epochs never decrease. */
  lemma {:induction false} EpochsGrow(states: seq<State>, steps: seq<Step>, i: nat, j: nat)
    requires IsRun(states, steps) && i <= j < |states|
    ensures states[i].space.epoch <= states[j].space.epoch
    decreases j
  {
    if i < j {
      EpochsGrow(states, steps, i, j - 1);
      EpochStep(states[j - 1], steps[j - 1], states[j]);
    }
  }

  /** A confirmed termination is never forgotten. */
  lemma {:induction false} TerminatedStays(states: seq<State>, steps: seq<Step>, i: nat, j: nat, uid: Uid)
    requires IsRun(states, steps) && i <= j < |states| && uid in states[i].space.terminated
    ensures uid in states[j].space.terminated
    decreases j
  {
    if i < j {
      TerminatedStays(states, steps, i, j - 1, uid);
      TerminatedStep(states[j - 1], steps[j - 1], states[j], uid);
    }
  }

  lemma MovedStep(s: State, step: Step, op: Op)
    requires AllCoherent(s) && Possible(s, step) && op in s.commands
    ensures op in Next(s, step).commands && Moved(s.commands[op], Next(s, step).commands[op])
    ensures Moves(s.commands[op].status, Next(s, step).commands[op].status)
  {
    if step.Happen? && step.op == op {
      EventKeepsCommand(s.commands[op], step.event);
    }
  }

  /** Over any stretch of any run a command only moves forward, and an end is final. */
  lemma {:induction false} CommandsMoveForward(states: seq<State>, steps: seq<Step>, i: nat, j: nat, op: Op)
    requires IsRun(states, steps) && i <= j < |states| && op in states[i].commands
    ensures op in states[j].commands && Moved(states[i].commands[op], states[j].commands[op])
    decreases j
  {
    if i < j {
      CommandsMoveForward(states, steps, i, j - 1, op);
      RunKeeps(states, steps, j - 1);
      MovedStep(states[j - 1], steps[j - 1], op);
    }
  }

  /** A command keeps for ever what it was submitted with, and the Pod that was admitted then. */
  lemma SubmittedAsAsked(states: seq<State>, steps: seq<Step>, n: nat, m: nat)
    requires IsRun(states, steps) && n < m < |states| && steps[n].Submit?
    ensures steps[n].op !in states[n].commands && steps[n].op in states[n + 1].commands && steps[n].op in states[m].commands
    ensures var c, d := states[n + 1].commands[steps[n].op], states[m].commands[steps[n].op];
            && d.digest == steps[n].digest && d.background == steps[n].background
            && states[n].space.admitted == Some(d.pod) && c.status.Queued? && c.sent == 0 && c.future.Pending?
  {
    assert Possible(states[n], steps[n]) && states[n + 1] == Next(states[n], steps[n]);
    CommandsMoveForward(states, steps, n + 1, m, steps[n].op);
  }

  /** The end that a worker or a stop gives to a command whose end is still open. */
  function EndOf(status: Status, e: Event): (end: Option<Status>) {
    match e
    case Conclude(outcome) => Some(outcome)
    case GiveUp => Some(Interrupted)
    case Interrupt => Some(if status.Running? then Interrupted else Cancelled)
    case Retire => Some(if status.Running? then Interrupted else Cancelled)
    case _ => None
  }

  /** A command that runs is recorded for ever as it ends: as the reported outcome, or as
      interrupted when a worker gives up, a stop cuts it or a restart retires it. One that was
      still queued is then cancelled. */
  lemma EndsAsReported(states: seq<State>, steps: seq<Step>, n: nat, m: nat, op: Op)
    requires IsRun(states, steps) && n < m < |states| && steps[n].Happen? && steps[n].op == op
    requires op in states[n].commands && !Terminal(states[n].commands[op].status)
    requires EndOf(states[n].commands[op].status, steps[n].event).Some?
    ensures op in states[m].commands && states[m].commands[op].status == EndOf(states[n].commands[op].status, steps[n].event).value
  {
    assert Possible(states[n], steps[n]) && states[n + 1] == Next(states[n], steps[n]);
    RunKeeps(states, steps, n);
    assert Coherent(states[n].commands[op]);
    CommandsMoveForward(states, steps, n + 1, m, op);
  }

  /** A command that ended other than cancelled was running before. */
  lemma {:induction false} EndsAfterRunning(states: seq<State>, steps: seq<Step>, n: nat, op: Op) returns (k: nat)
    requires IsRun(states, steps) && n < |states| && op in states[n].commands
    requires Terminal(states[n].commands[op].status) && !states[n].commands[op].status.Cancelled?
    ensures k < n && op in states[k].commands && states[k].commands[op].status.Running?
  {
    RunKeeps(states, steps, n - 1);
    var s, step := states[n - 1], steps[n - 1];
    assert op in s.commands;
    MovedStep(s, step, op);
    if s.commands[op].status.Running? {
      k := n - 1;
    } else {
      k := EndsAfterRunning(states, steps, n - 1, op);
    }
  }

  /** How often a run sends one command to its Pod. */
  function Sends(steps: seq<Step>, op: Op): (n: nat)
    decreases |steps|
  {
    if steps == [] then 0
    else Sends(steps[..|steps| - 1], op) + if steps[|steps| - 1] == Happen(op, Send) then 1 else 0
  }

  lemma SendCounted(s: State, step: Step, op: Op)
    requires Possible(s, step)
    ensures var t := Next(s, step);
            (if op in t.commands then t.commands[op].sent else 0)
            == (if op in s.commands then s.commands[op].sent else 0) + if step == Happen(op, Send) then 1 else 0
  {
  }

  lemma {:induction false} SendsMatch(states: seq<State>, steps: seq<Step>, n: nat, op: Op)
    requires IsRun(states, steps) && n <= |steps|
    ensures Sends(steps[..n], op) == if op in states[n].commands then states[n].commands[op].sent else 0
  {
    if n > 0 {
      SendsMatch(states, steps, n - 1, op);
      assert steps[..n][..n - 1] == steps[..n - 1];
      SendCounted(states[n - 1], steps[n - 1], op);
    }
  }

  /** No run, restarts included, sends a command twice. */
  lemma RunSendsOnce(states: seq<State>, steps: seq<Step>, op: Op)
    requires IsRun(states, steps)
    ensures Sends(steps, op) <= 1
  {
    SendsMatch(states, steps, |steps|, op);
    RunKeeps(states, steps, |steps|);
    assert steps[..|steps|] == steps;
    assert op in states[|steps|].commands ==> Coherent(states[|steps|].commands[op]);
  }

  /** No crash in an exposed state. */
  ghost predicate Harmless(s: State, step: Step) {
    step.Crash? ==> !Exposed(s)
  }

  ghost predicate HarmlessRun(states: seq<State>, steps: seq<Step>) {
    IsRun(states, steps) && forall i {:trigger steps[i]} :: 0 <= i < |steps| ==> Harmless(states[i], steps[i])
  }

  lemma StepProtects(s: State, step: Step)
    requires Bound(s) && AllCoherent(s) && Protected(s) && Possible(s, step) && Harmless(s, step)
    ensures Protected(Next(s, step))
  {
    if step.Crash? {
      CrashProtectsExactly(s);
    } else {
      StepKeepsProtected(s, step);
    }
  }

  /** In every run whose crashes are harmless, an interrupted command's Pod is confirmed
      terminated, or its Space is marked, or a stop of it is in progress. */
  lemma {:induction false} RunProtects(states: seq<State>, steps: seq<Step>, n: nat)
    requires HarmlessRun(states, steps) && n < |states|
    ensures Protected(states[n])
  {
    if n > 0 {
      RunProtects(states, steps, n - 1);
      RunKeeps(states, steps, n - 1);
      StepProtects(states[n - 1], steps[n - 1]);
    }
  }

  /** No crash in a stranded state. */
  ghost predicate Careful(s: State, step: Step) {
    step.Crash? ==> !Stranded(s)
  }

  ghost predicate CarefulRun(states: seq<State>, steps: seq<Step>) {
    IsRun(states, steps) && forall i {:trigger steps[i]} :: 0 <= i < |steps| ==> Careful(states[i], steps[i])
  }

  lemma {:induction false} RunShields(states: seq<State>, steps: seq<Step>, n: nat)
    requires CarefulRun(states, steps) && n < |states|
    ensures Shielded(states[n])
  {
    if n > 0 {
      RunShields(states, steps, n - 1);
      RunKeeps(states, steps, n - 1);
      if steps[n - 1].Crash? {
        CrashShieldsExactly(states[n - 1]);
      } else {
        StepKeepsShielded(states[n - 1], steps[n - 1]);
      }
    }
  }

  /** A command is let in or an epoch reserved before the Pod of a command whose end is
      unknown is confirmed terminated. */
  ghost predicate Overtakes(s: State, step: Step) {
    && Possible(s, step) && (step.Submit? || step.Reserve?)
    && exists op :: op in s.commands && s.commands[op].status.Interrupted? && s.commands[op].pod !in s.space.terminated
  }

  /** The bit was tested at `k`, and the same request still holds the Space lock at `n`. */
  ghost predicate Tests(states: seq<State>, steps: seq<Step>, k: nat, n: nat)
    requires IsRun(states, steps) && n < |states|
  {
    k < n && steps[k].Test? && forall i :: k < i <= n ==> Submitting(states[i])
  }

  /** Between `k` and `n` a worker marked the Space, and a worker recorded a running command
      as interrupted whose Pod was not confirmed terminated. */
  ghost predicate Slips(states: seq<State>, steps: seq<Step>, k: nat, n: nat, j: nat, m: nat)
    requires IsRun(states, steps) && k < n < |states|
  {
    && k < j < m < n && steps[j].Mark? && steps[m].Happen? && steps[m].event.GiveUp?
    && steps[m].op in states[m].commands && states[m].commands[steps[m].op].status.Running?
    && states[m].commands[steps[m].op].pod !in states[k].space.terminated
  }

  /** A mark and an interruption fell between the test for the command that is about to be
      accepted and its acceptance. */
  ghost predicate TooEarly(states: seq<State>, steps: seq<Step>, n: nat)
    requires IsRun(states, steps) && n < |states|
  {
    exists k: nat, j: nat, m: nat :: Tests(states, steps, k, n) && Slips(states, steps, k, n, j, m)
  }

  lemma {:induction false} TestedBefore(states: seq<State>, steps: seq<Step>, n: nat) returns (k: nat)
    requires IsRun(states, steps) && n < |states| && Submitting(states[n])
    ensures Tests(states, steps, k, n)
  {
    assert Possible(states[n - 1], steps[n - 1]) && states[n] == Next(states[n - 1], steps[n - 1]);
    if steps[n - 1].Test? {
      k := n - 1;
    } else {
      k := TestedBefore(states, steps, n - 1);
    }
  }

  /** While a request is between its test and its acceptance nothing is confirmed, admitted or
      unmarked, and only a worker ends a command. */
  lemma SubmittingStep(s: State, step: Step)
    requires Possible(s, step) && Submitting(s) && Submitting(Next(s, step)) && !s.recovering
    ensures var t := Next(s, step);
            && t.space.terminated == s.space.terminated && t.space.admitted == s.space.admitted
            && t.space.unconfirmed == (s.space.unconfirmed || step.Mark?) && t.commands.Keys == s.commands.Keys
    ensures forall op :: op in s.commands && Next(s, step).commands[op].status.Interrupted? && !s.commands[op].status.Interrupted? ==>
              step == Happen(op, GiveUp)
  {
  }

  lemma {:induction false} HeldSince(states: seq<State>, steps: seq<Step>, k: nat, n: nat)
    requires IsRun(states, steps) && n < |states| && Tests(states, steps, k, n)
    ensures states[n].space.terminated == states[k].space.terminated && states[n].space.admitted == states[k].space.admitted
    decreases n
  {
    assert Possible(states[k], steps[k]) && states[k + 1] == Next(states[k], steps[k]);
    if n > k + 1 {
      HeldSince(states, steps, k, n - 1);
      RunKeeps(states, steps, n - 1);
      assert steps[n - 1] == steps[n - 1];
      SubmittingStep(states[n - 1], steps[n - 1]);
    }
  }

  /** A Space that is marked now was marked since the test. */
  lemma {:induction false} MarkedSince(states: seq<State>, steps: seq<Step>, k: nat, n: nat) returns (j: nat)
    requires IsRun(states, steps) && n < |states| && Tests(states, steps, k, n) && states[n].space.unconfirmed
    ensures k < j < n && steps[j].Mark?
    decreases n
  {
    assert Possible(states[k], steps[k]) && states[k + 1] == Next(states[k], steps[k]);
    RunKeeps(states, steps, n - 1);
    assert Possible(states[n - 1], steps[n - 1]) && states[n] == Next(states[n - 1], steps[n - 1]);
    if steps[n - 1].Mark? {
      j := n - 1;
    } else {
      SubmittingStep(states[n - 1], steps[n - 1]);
      j := MarkedSince(states, steps, k, n - 1);
    }
  }

  lemma {:induction false} MarkStays(states: seq<State>, steps: seq<Step>, k: nat, n: nat, j: nat)
    requires IsRun(states, steps) && n < |states| && Tests(states, steps, k, n) && k < j < n && steps[j].Mark?
    ensures states[n].space.unconfirmed
    decreases n
  {
    assert Possible(states[n - 1], steps[n - 1]) && states[n] == Next(states[n - 1], steps[n - 1]);
    if j < n - 1 {
      MarkStays(states, steps, k, n - 1, j);
      RunKeeps(states, steps, n - 1);
      SubmittingStep(states[n - 1], steps[n - 1]);
    }
  }

  /** At the test every command whose end is unknown had its Pod confirmed terminated. */
  lemma ClearAtTest(s: State, op: Op)
    requires Shielded(s) && Possible(s, Test) && s.space.admitted.Some?
    requires op in s.commands && s.commands[op].status.Interrupted?
    ensures s.commands[op].pod in s.space.terminated
  {
    assert Covered(s, op);
  }

  lemma {:induction false} InterruptedSince(states: seq<State>, steps: seq<Step>, k: nat, n: nat, op: Op) returns (j: nat, m: nat)
    requires CarefulRun(states, steps) && n < |states| && Tests(states, steps, k, n) && states[n].space.admitted.Some?
    requires op in states[n].commands && states[n].commands[op].status.Interrupted?
    requires states[n].commands[op].pod !in states[n].space.terminated
    ensures Slips(states, steps, k, n, j, m)
    decreases n
  {
    HeldSince(states, steps, k, n);
    RunKeeps(states, steps, n - 1);
    RunShields(states, steps, n - 1);
    var s, step := states[n - 1], steps[n - 1];
    assert Possible(s, step) && states[n] == Next(s, step);
    if n == k + 1 {
      ClearAtTest(s, op);
      assert false;
    } else {
      SubmittingStep(s, step);
      MovedStep(s, step, op);
      if s.commands[op].status.Interrupted? {
        j, m := InterruptedSince(states, steps, k, n - 1, op);
      } else {
        m := n - 1;
        assert Covered(s, op) && Coherent(s.commands[op]);
        j := MarkedSince(states, steps, k, n - 1);
      }
    }
  }

  lemma SlippedStays(states: seq<State>, steps: seq<Step>, k: nat, n: nat, j: nat, m: nat)
    requires IsRun(states, steps) && n < |states| && Tests(states, steps, k, n) && Slips(states, steps, k, n, j, m)
    ensures var s, op := states[n], steps[m].op;
            op in s.commands && s.commands[op].status.Interrupted? && s.commands[op].pod !in s.space.terminated
  {
    var op := steps[m].op;
    assert Possible(states[m], steps[m]) && states[m + 1] == Next(states[m], steps[m]);
    assert states[m + 1].commands[op].status.Interrupted?;
    CommandsMoveForward(states, steps, m, n, op);
    CommandsMoveForward(states, steps, m + 1, n, op);
    HeldSince(states, steps, k, n);
  }

  /** A command is accepted before the Pod of one whose end is unknown is confirmed
      terminated if and only if a mark and an interruption fell between its test and its
      acceptance, in every run without a crash in a stranded state. */
  lemma TooEarlyExactly(states: seq<State>, steps: seq<Step>, n: nat)
    requires CarefulRun(states, steps) && n < |steps| && steps[n].Submit?
    ensures Overtakes(states[n], steps[n]) <==> TooEarly(states, steps, n)
  {
    var s := states[n];
    assert Possible(s, steps[n]);
    if Overtakes(s, steps[n]) {
      var op :| op in s.commands && s.commands[op].status.Interrupted? && s.commands[op].pod !in s.space.terminated;
      var k := TestedBefore(states, steps, n);
      var j, m := InterruptedSince(states, steps, k, n, op);
      assert TooEarly(states, steps, n);
    }
    if TooEarly(states, steps, n) {
      var k: nat, j: nat, m: nat :| Tests(states, steps, k, n) && Slips(states, steps, k, n, j, m);
      SlippedStays(states, steps, k, n, j, m);
    }
  }

  /** Whenever a command is admitted or an epoch reserved, the Pod of every command whose
      end is unknown is confirmed terminated and dead, in every run without a crash in a
      stranded state, unless the command is accepted too early. */
  lemma NothingNewBeforeTermination(states: seq<State>, steps: seq<Step>, n: nat, op: Op)
    requires CarefulRun(states, steps) && n < |steps| && (steps[n].Submit? || steps[n].Reserve?) && !TooEarly(states, steps, n)
    requires op in states[n].commands && states[n].commands[op].status.Interrupted?
    ensures states[n].commands[op].pod in states[n].space.terminated && states[n].commands[op].pod !in states[n].world.alive
  {
    RunKeeps(states, steps, n);
    NotOvertaken(states, steps, n, steps[n], op);
  }

  lemma NotOvertaken(states: seq<State>, steps: seq<Step>, n: nat, step: Step, op: Op)
    requires CarefulRun(states, steps) && n < |states| && !TooEarly(states, steps, n)
    requires Possible(states[n], step) && (step.Submit? || step.Reserve?)
    requires op in states[n].commands && states[n].commands[op].status.Interrupted?
    ensures states[n].commands[op].pod in states[n].space.terminated
  {
    RunKeeps(states, steps, n);
    if step.Reserve? {
      AllTerminated(states[n]);
    } else if states[n].commands[op].pod !in states[n].space.terminated {
      var k := TestedBefore(states, steps, n);
      var j, m := InterruptedSince(states, steps, k, n, op);
      assert false;
    }
  }

  /** What is accepted too early is accepted into a marked Space. */
  lemma TooEarlyIsMarked(states: seq<State>, steps: seq<Step>, n: nat)
    requires IsRun(states, steps) && n < |states| && TooEarly(states, steps, n)
    ensures states[n].space.unconfirmed
  {
    var k: nat, j: nat, m: nat :| Tests(states, steps, k, n) && Slips(states, steps, k, n, j, m);
    MarkStays(states, steps, k, n, j);
  }

  // ---------- a crash inside a stop ----------

  ghost predicate NoCrash(steps: seq<Step>) {
    forall i :: 0 <= i < |steps| ==> !steps[i].Crash?
  }

  lemma Extend(states: seq<State>, steps: seq<Step>, step: Step) returns (more: seq<State>, longer: seq<Step>)
    requires IsRun(states, steps) && Possible(states[|steps|], step)
    ensures IsRun(more, longer) && more[|longer|] == Next(states[|steps|], step)
    ensures NoCrash(steps) && !step.Crash? ==> NoCrash(longer)
  {
    more, longer := states + [Next(states[|steps|], step)], steps + [step];
  }

  lemma PodAdmitted() returns (states: seq<State>, steps: seq<Step>)
    ensures IsRun(states, steps) && NoCrash(steps)
    ensures var s := states[|steps|];
            && s.phase.Idle? && !s.recovering && !s.space.unconfirmed && s.world.pod == s.space.admitted == Some(1)
            && s.space.guard == Some(Guard(1, 1, false)) && s.world.alive == {1} && s.space.terminated == {} && s.commands == map[]
  {
    states, steps := Extend([Initial()], [], Reserve);
    states, steps := Extend(states, steps, Create(1, true));
    states, steps := Extend(states, steps, RecordGuard);
    states, steps := Extend(states, steps, Admit);
  }

  lemma CommandSent() returns (states: seq<State>, steps: seq<Step>)
    ensures IsRun(states, steps) && NoCrash(steps)
    ensures var s := states[|steps|];
            && s.phase.Idle? && !s.recovering && !s.space.unconfirmed && s.world.pod == Some(1) && s.space.guard == Some(Guard(1, 1, false))
            && s.world.alive == {1} && s.space.terminated == {}
            && s.commands == map[7 := Command(1, false, 70, Running, 1, Active(Sent))]
  {
    states, steps := PodAdmitted();
    states, steps := Extend(states, steps, Test);
    states, steps := Extend(states, steps, Find);
    states, steps := Extend(states, steps, Submit(7, false, 70));
    states, steps := Extend(states, steps, Happen(7, Enter));
    states, steps := Extend(states, steps, Happen(7, Claim));
    states, steps := Extend(states, steps, Happen(7, Send));
  }

  lemma ExposedByStop() returns (states: seq<State>, steps: seq<Step>)
    ensures IsRun(states, steps) && Exposed(states[|steps|])
    ensures var s := states[|steps|];
            s.commands == map[7 := Command(1, false, 70, Interrupted, 1, Active(Sent))]
            && s.world.pod == Some(1) && s.space.guard == Some(Guard(1, 1, false)) && s.world.alive == {1}
  {
    states, steps := CommandSent();
    states, steps := Extend(states, steps, BeginStop);
    states, steps := Extend(states, steps, Happen(7, Interrupt));
    assert 7 in states[|steps|].commands && states[|steps|].commands[7].status.Interrupted?;
  }

  /** `more` goes on from `states` without a crash in a stranded state. */
  ghost predicate Continues(states: seq<State>, steps: seq<Step>, more: seq<State>, longer: seq<Step>) {
    && IsRun(states, steps) && IsRun(more, longer) && states <= more && steps <= longer
    && forall i {:trigger longer[i]} :: |steps| <= i < |longer| ==> Careful(more[i], longer[i])
  }

  lemma Onward(states: seq<State>, steps: seq<Step>, more: seq<State>, longer: seq<Step>, step: Step)
    returns (evenMore: seq<State>, evenLonger: seq<Step>)
    requires Continues(states, steps, more, longer) && Possible(more[|longer|], step) && Careful(more[|longer|], step)
    ensures Continues(states, steps, evenMore, evenLonger) && evenMore[|evenLonger|] == Next(more[|longer|], step)
  {
    evenMore, evenLonger := more + [Next(more[|longer|], step)], longer + [step];
    forall i | |steps| <= i < |evenLonger| ensures Careful(evenMore[i], evenLonger[i]) {
      if i < |longer| {
        assert longer[i] == evenLonger[i] && more[i] == evenMore[i];
      }
    }
  }

  /** After the crash: the guard binding is live, and no command of the bound Pod runs. */
  ghost predicate Overlooked(s: State, op: Op) {
    && s.recovering && s.phase.Idle? && Bound(s) && !s.space.unconfirmed && !GuardDone(s.space) && s.world.pod.Some?
    && op in s.commands && s.commands[op].status.Interrupted? && s.commands[op].pod == s.space.guard.value.uid
    && (forall other :: other in s.commands ==>
          s.commands[other].future.Absent? && (s.commands[other].status.Running? ==> s.commands[other].pod != s.space.guard.value.uid))
  }

  function Unfinished(s: State): (ops: set<Op>) {
    set op | op in s.commands && !Terminal(s.commands[op].status)
  }

  predicate OnlyCommands(s: State, t: State) {
    t.commands.Keys == s.commands.Keys && t.world == s.world && t.space == s.space
  }

  lemma RetireOneMore(s: State, op: Op, other: Op)
    requires Overlooked(s, op) && other in Unfinished(s)
    ensures Possible(s, Happen(other, Retire))
    ensures var t := Next(s, Happen(other, Retire)); Overlooked(t, op) && Unfinished(t) == Unfinished(s) - {other} && OnlyCommands(s, t)
  {
    assert s.commands[other].pod in s.world.guarded;
  }

  /** Recovery retires the commands that are left and stops no Pod that is bound. */
  lemma {:induction false} RetiresAll(states: seq<State>, steps: seq<Step>, from: seq<State>, via: seq<Step>, op: Op)
    returns (more: seq<State>, longer: seq<Step>)
    requires Continues(states, steps, from, via) && Overlooked(from[|via|], op)
    ensures Continues(states, steps, more, longer) && Overlooked(more[|longer|], op) && Unfinished(more[|longer|]) == {}
    ensures OnlyCommands(from[|via|], more[|longer|])
    decreases |Unfinished(from[|via|])|
  {
    more, longer := from, via;
    var s := from[|via|];
    if Unfinished(s) != {} {
      HasMember(Unfinished(s));
      var other :| other in Unfinished(s);
      RetireOneMore(s, op, other);
      more, longer := Onward(states, steps, more, longer, Happen(other, Retire));
      more, longer := RetiresAll(states, steps, more, longer, op);
    }
  }

  /** The same Pod is then admitted again, and a command is about to be let in beside the one
      whose end is unknown. */
  lemma Readmits(states: seq<State>, steps: seq<Step>, from: seq<State>, via: seq<Step>, op: Op)
    returns (more: seq<State>, longer: seq<Step>)
    requires Continues(states, steps, from, via) && Overlooked(from[|via|], op) && Unfinished(from[|via|]) == {}
    ensures Continues(states, steps, more, longer)
    ensures var s, t := from[|via|], more[|longer|];
            && t.phase == Found(t.world.pod) && !t.space.unconfirmed && t.commands == s.commands && t.world == s.world
            && t.space.admitted == t.world.pod == Some(s.commands[op].pod) && t.space.terminated == s.space.terminated
  {
    var s := from[|via|];
    assert forall other :: other in s.commands && !Terminal(s.commands[other].status) ==> other in Unfinished(s);
    more, longer := Onward(states, steps, from, via, Recovered);
    more, longer := Onward(states, steps, more, longer, Admit);
    more, longer := Onward(states, steps, more, longer, Test);
    more, longer := Onward(states, steps, more, longer, Find);
  }

  lemma CrashOverlooks(s: State) returns (op: Op)
    requires Bound(s) && Stranded(s)
    ensures Overlooked(Crashed(s), op)
  {
    var t := Crashed(s);
    op :| op in s.commands && s.commands[op].status.Interrupted? && s.commands[op].pod == s.space.guard.value.uid;
    assert Bound(t);
    forall other | other in t.commands
      ensures t.commands[other].status.Running? ==> t.commands[other].pod != s.space.guard.value.uid
    {
      assert s.commands[other].status.Running? ==> s.commands[other].pod != s.space.guard.value.uid;
    }
  }

  ghost predicate CanOvertake(states: seq<State>, steps: seq<Step>) {
    exists more, longer, step :: Continues(states, steps, more, longer) && Overtakes(more[|longer|], step) && !TooEarly(more, longer, |longer|)
  }

  /** After a crash in any reachable stranded state, recovery leaves the Pod alone, and it
      takes a new command beside the one whose end is unknown. */
  lemma StrandedReadmits(states: seq<State>, steps: seq<Step>, next: Op)
    returns (more: seq<State>, longer: seq<Step>)
    requires IsRun(states, steps) && Possible(states[|steps|], Crash) && Stranded(states[|steps|])
    requires next !in states[|steps|].commands
    ensures var s := states[|steps|];
            && Continues(states + [Crashed(s)], steps + [Crash], more, longer)
            && Overtakes(more[|longer|], Submit(next, false, 0)) && !TooEarly(more, longer, |longer|)
            && more[|longer|].world == s.world && more[|longer|].world.pod == Some(s.space.guard.value.uid)
  {
    var s := states[|steps|];
    var after, via := states + [Crashed(s)], steps + [Crash];
    RunKeeps(states, steps, |steps|);
    var op := CrashOverlooks(s);
    assert Continues(after, via, after, via);
    more, longer := RetiresAll(after, via, after, via, op);
    more, longer := Readmits(after, via, more, longer, op);
    assert op in more[|longer|].commands && more[|longer|].commands[op].status.Interrupted?;
    if TooEarly(more, longer, |longer|) { TooEarlyIsMarked(more, longer, |longer|); }
  }

  /** After every careful run: a crash makes it possible that something new is let in before
      a Pod with an unknown end is confirmed terminated, other than a command accepted too
      early, if and only if the state is stranded. */
  lemma StrandedExactly(states: seq<State>, steps: seq<Step>)
    requires CarefulRun(states, steps)
    ensures IsRun(states + [Crashed(states[|steps|])], steps + [Crash])
    ensures CanOvertake(states + [Crashed(states[|steps|])], steps + [Crash]) <==> Stranded(states[|steps|])
  {
    var s := states[|steps|];
    var after, via := states + [Crashed(s)], steps + [Crash];
    if Stranded(s) {
      var next := Unused(s.commands.Keys);
      var more, longer := StrandedReadmits(states, steps, next);
      assert CanOvertake(after, via);
    } else {
      forall more, longer, step | Continues(after, via, more, longer)
        ensures !(Overtakes(more[|longer|], step) && !TooEarly(more, longer, |longer|))
      {
        NeverOvertaken(states, steps, after, via, more, longer, step);
      }
    }
  }

  lemma NeverOvertaken(states: seq<State>, steps: seq<Step>, after: seq<State>, via: seq<Step>,
                       more: seq<State>, longer: seq<Step>, step: Step)
    requires CarefulRun(states, steps) && !Stranded(states[|steps|]) && Continues(after, via, more, longer)
    requires states <= after && steps <= via && |via| == |steps| + 1
    ensures !(Overtakes(more[|longer|], step) && !TooEarly(more, longer, |longer|))
  {
    forall i | 0 <= i < |longer| ensures Careful(more[i], longer[i]) {
      if i < |steps| {
        assert steps[i] == longer[i] && states[i] == more[i];
      } else if i == |steps| {
        assert more[i] == after[i] == states[i];
      }
    }
    if Overtakes(more[|longer|], step) && !TooEarly(more, longer, |longer|) {
      var s := more[|longer|];
      var op :| op in s.commands && s.commands[op].status.Interrupted? && s.commands[op].pod !in s.space.terminated;
      NotOvertaken(more, longer, |longer|, step, op);
      assert false;
    }
  }

  lemma {:induction false} Unused(ops: set<Op>) returns (op: Op)
    ensures op !in ops && forall other :: other in ops ==> other < op
    decreases ops
  {
    if ops == {} {
      op := 0;
    } else {
      HasMember(ops);
      var some :| some in ops;
      op := Unused(ops - {some});
      assert forall other :: other in ops ==> other == some || other in ops - {some};
      op := if some < op then op else some + 1;
    }
  }

  /** A stop that has just recorded the only running command as interrupted is such a state:
      the crash leads to a live Pod that takes a second command. */
  lemma CrashInsideStopReadmits() returns (states: seq<State>, steps: seq<Step>)
    ensures IsRun(states, steps) && Overtakes(states[|steps|], Submit(8, false, 0)) && !TooEarly(states, steps, |steps|)
    ensures var s := states[|steps|];
            && 7 in s.commands && s.commands[7].status.Interrupted? && s.world.pod == Some(s.commands[7].pod)
            && s.commands[7].pod in s.world.alive
  {
    var before, via := ExposedByStop();
    assert Stranded(before[|via|]);
    states, steps := StrandedReadmits(before, via, 8);
    assert states[|via| + 1] == Crashed(before[|via|]);
    CommandsMoveForward(states, steps, |via| + 1, |steps|, 7);
  }

  // ---------- a mark between the test and the acceptance ----------

  lemma TestedInBetween() returns (states: seq<State>, steps: seq<Step>)
    ensures IsRun(states, steps) && NoCrash(steps)
    ensures var s := states[|steps|];
            && s.phase == Found(Some(1)) && s.world.pod == s.space.admitted == Some(1) && s.world.alive == {1} && s.space.terminated == {}
            && s.commands == map[7 := Command(1, false, 70, Running, 1, Active(Sent))]
  {
    states, steps := CommandSent();
    states, steps := Extend(states, steps, ClearAdmitted);
    states, steps := Extend(states, steps, Admit);
    states, steps := Extend(states, steps, Test);
    states, steps := Extend(states, steps, Find);
  }

  /** A stop of the Pod clears its admission and fails, and the live Pod is admitted again
      before the worker marks the Space: a command tested in between is accepted beside one
      whose end is unknown, in a Pod that is alive, and nothing has crashed. */
  lemma AcceptedTooEarly() returns (states: seq<State>, steps: seq<Step>)
    ensures IsRun(states, steps) && NoCrash(steps) && Overtakes(states[|steps|], Submit(8, false, 0))
    ensures var s := states[|steps|];
            && 7 in s.commands && s.commands[7].status.Interrupted? && s.world.pod == Some(s.commands[7].pod)
            && s.commands[7].pod in s.world.alive
  {
    states, steps := TestedInBetween();
    states, steps := Extend(states, steps, Mark);
    states, steps := Extend(states, steps, Happen(7, Prove));
    states, steps := Extend(states, steps, Happen(7, GiveUp));
    assert 7 in states[|steps|].commands && states[|steps|].commands[7].status.Interrupted?;
  }
}
