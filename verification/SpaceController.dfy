/** The Execution Pod controller's own methods (runner/execution_pod.py) for one Scratch
    Space: each changes the Space file, the command records and the counter exactly as
    steps of the machine in ExecutionPods do, and each keeps every interrupted command's
    Pod behind the shield of that machine. */
module SpaceController {
  import opened Common
  import opened ExecutionPods

  ghost predicate Kept(s: State) {
    Bound(s) && AllCoherent(s) && Counted(s) && Shielded(s)
  }

  lemma StepKeepsAll(s: State, step: Step)
    requires Kept(s) && Possible(s, step) && !step.Crash?
    ensures Kept(Next(s, step)) && (Protected(s) ==> Protected(Next(s, step)))
  {
    StepKeepsBound(s, step);
    StepKeepsCount(s, step);
    StepKeepsShielded(s, step);
    if Protected(s) { StepKeepsProtected(s, step); }
  }

  ghost predicate AllTerminal(commands: map<Op, Command>) {
    forall op :: op in commands ==> Terminal(commands[op].status)
  }

  /** What a stop makes of a command: an end, and a queued one loses its place. */
  function Cut(c: Command): (d: Command) {
    if Terminal(c.status) then c
    else if c.status.Queued? && c.future.Pending? then Ended(c).(future := Withdrawn)
    else Ended(c)
  }

  /** What was running is interrupted, what was queued is cancelled and loses its place, and
      an end stays as it is. */
  predicate Severed(c: Command, d: Command) {
    && d == c.(status := d.status, future := d.future)
    && d.status == (if c.status.Running? then Interrupted else if c.status.Queued? then Cancelled else c.status)
    && d.future == (if c.status.Queued? && c.future.Pending? then Withdrawn else c.future)
  }

  /** A foreground command whose future is open is counted. */
  lemma CountsOne(s: State, op: Op)
    requires Counted(s) && op in s.commands && Counts(s.commands[op])
    ensures s.foreground >= 1
  {
    assert op in Foreground(s.commands);
  }

  /** What a restart makes of a command: an unfinished one ends. */
  function Retired(c: Command): (d: Command) {
    if Terminal(c.status) then c else Ended(c)
  }

  lemma RetiredIsSevered(c: Command)
    ensures c.future.Absent? ==> Severed(c, Retired(c))
  {
  }

  /** Once nothing runs any more, the end of every interrupted command is known or its Pod
      object is gone. */
  lemma KnownOnceRecovered(s: State)
    requires Shielded(s) && s.phase.Idle? && !s.recovering
    ensures forall op :: op in s.commands && s.commands[op].status.Interrupted? ==>
              StopKnown(s, s.commands[op].pod) || s.world.pod.None?
  {
    assert forall op :: op in s.commands ==> Covered(s, op);
  }

  /** The Space after the node guard has answered for the bound Pod. */
  function Answered(space: Space, confirmed: bool): (s: Space)
    requires !GuardDone(space)
  {
    var g := space.guard.value;
    if confirmed then space.(guard := Some(g.(terminated := true)), terminated := space.terminated + {g.uid}, unconfirmed := false)
    else space.(unconfirmed := true)
  }

  /** The node guard and Kubernetes answer so that this Pod is ended for good. */
  predicate Stoppable(space: Space, uid: Uid, confirmed: bool, pod: Option<Uid>, deleted: bool) {
    && (if space.guard.Some? && space.guard.value.uid == uid then space.guard.value.terminated || confirmed else uid in space.terminated)
    && (pod == Some(uid) ==> deleted)
  }

  /** So they do for every Pod with a running command. */
  ghost predicate AllStoppable(space: Space, commands: map<Op, Command>, confirmed: set<Uid>, pod: Option<Uid>, deleted: bool) {
    forall op :: op in commands && commands[op].status.Running? ==>
      Stoppable(space, commands[op].pod, commands[op].pod in confirmed, pod, deleted)
  }

  class Controller {
    var space: Space
    var commands: map<Op, Command>
    var foreground: int
    ghost var state: State

    ghost predicate Valid()
      reads this
    {
      Kept(state) && space == state.space && commands == state.commands && foreground == state.foreground
    }

    constructor ()
      ensures Valid() && state == Initial()
    {
      space, commands, foreground := Space(0, None, {}, false, None), map[], 0;
      state := Initial();
    }

    ghost method Does(step: Step)
      requires Kept(state) && Possible(state, step) && !step.Crash?
      modifies this`state
      ensures state == Next(old(state), step) && Kept(state) && (old(Protected(state)) ==> Protected(state))
    {
      StepKeepsAll(state, step);
      state := Next(state, step);
    }

    /** An operation identity is used once: a repeated request answers from its record, and
        another request under the same identity conflicts. Nothing else happens between the
        test of the bit and the acceptance. */
    method SubmitCommand(op: Op, background: bool, digest: int, pod: Option<Uid>) returns (out: Result<Command>)
      requires Valid() && state.phase.Idle? && !state.recovering && pod == state.world.pod
      modifies this
      ensures Valid() && space == old(space)
      ensures out.Ok? <==> !space.unconfirmed && if op in old(commands) then old(commands)[op].digest == digest
                                                 else pod.Some? && space.admitted == pod
      ensures state == if out.Ok? && op !in old(commands)
                       then Next(Next(Next(old(state), Test), Find), Submit(op, background, digest)) else old(state)
      ensures out.Ok? ==> op in commands && out.value == commands[op]
      ensures if out.Ok? && op !in old(commands)
              then && commands == old(commands)[op := Command(pod.value, background, digest, Queued, 0, Pending)]
                   && foreground == old(foreground) + (if background then 0 else 1)
              else commands == old(commands) && foreground == old(foreground)
    {
      if space.unconfirmed {
        return Err("termination_unconfirmed");
      }
      if op in commands {
        if commands[op].digest != digest {
          return Err("command_conflict");
        }
        return Ok(commands[op]);
      }
      if pod.None? {
        return Err("pod_unavailable");
      }
      if space.admitted != pod {
        return Err("admission_unverified");
      }
      var record := Command(pod.value, background, digest, Queued, 0, Pending);
      commands := commands[op := record];
      if !background {
        foreground := foreground + 1;
      }
      Does(Test);
      Does(Find);
      Does(Submit(op, background, digest));
      out := Ok(record);
    }

    /** The callback of a future that is done or was cancelled before it started. */
    method CancelledCommand(op: Op)
      requires Valid() && op in commands && Enabled(commands[op], Callback)
      modifies this`commands, this`foreground, this`state
      ensures Valid() && state == Next(old(state), Happen(op, Callback)) && commands == old(commands)[op := commands[op]]
      ensures commands[op] == old(commands)[op].(future := Absent, status := commands[op].status)
      ensures commands[op].status == if old(commands)[op].future.Withdrawn? && !old(commands)[op].status.Interrupted?
                                     then Cancelled else old(commands)[op].status
      ensures foreground == old(foreground) - (if old(commands)[op].background then 0 else 1)
    {
      if !commands[op].background { CountsOne(state, op); }
      var record := commands[op];
      if record.future.Withdrawn? {
        record := UpdateCommand(record, Cancelled);
      }
      if !record.background {
        foreground := Max(0, foreground - 1);
      }
      commands := commands[op := record.(future := Absent)];
      Does(Happen(op, Callback));
    }

    method UpdateCommand(record: Command, status: Status) returns (updated: Command)
      ensures updated == record.(status := updated.status)
      ensures updated.status == if record.status.Interrupted? then Interrupted else status
    {
      updated := record;
      if record.status.Interrupted? && !status.Interrupted? {
        return;
      }
      updated := record.(status := status);
    }

    /** Marks what was running as interrupted and what was queued as cancelled. */
    method InterruptSpaceCommands()
      requires Valid() && state.phase.Interrupting?
      modifies this`commands, this`state
      ensures Valid() && state == old(state).(commands := commands) && AllTerminal(commands)
      ensures commands.Keys == old(commands).Keys
      ensures forall op :: op in commands ==> Severed(old(commands)[op], commands[op])
    {
      var left := commands.Keys;
      while left != {}
        invariant Valid() && state == old(state).(commands := commands) && commands.Keys == old(commands).Keys
        invariant left <= commands.Keys
        invariant forall op :: op in commands && op in left ==> commands[op] == old(commands)[op]
        invariant forall op :: op in commands && op !in left ==> commands[op] == Cut(old(commands)[op])
        decreases left
      {
        HasMember(left);
        var op :| op in left;
        InterruptOne(op);
        left := left - {op};
      }
    }

    method InterruptOne(op: Op)
      requires Valid() && state.phase.Interrupting? && op in commands
      modifies this`commands, this`state
      ensures Valid() && state == old(state).(commands := commands)
      ensures commands == old(commands)[op := Cut(old(commands)[op])]
    {
      var prior := commands[op];
      if prior.status.Queued? || prior.status.Running? {
        commands := commands[op := prior.(status := if prior.status.Running? then Interrupted else Cancelled)];
        Does(Happen(op, Interrupt));
      }
      if prior.status.Queued? && prior.future.Pending? {
        commands := commands[op := commands[op].(future := Withdrawn)];
        Does(Happen(op, Withdraw));
      }
    }

    /** Ends the bound Pod through the node guard, whose answer is `confirmed`. It fails if
        that stays unconfirmed, or if a Pod has started that no binding covers. */
    method TerminateRecordedPod(confirmed: bool, pod: Option<Uid>, started: bool) returns (ok: bool)
      requires Valid() && (state.phase.Idle? || state.phase.Terminating?) && pod == state.world.pod
      modifies this`space, this`state
      ensures Valid() && state.world.pod == pod && state.recovering == old(state.recovering)
      ensures state.world.used == old(state.world.used)
      ensures ok ==> GuardDone(space) && state.phase == (if old(state.phase.Terminating?) then Deleting else Idle)
      ensures ok <==> (GuardDone(old(space)) || confirmed) && !(pod.Some? && old(space).guard.None? && started)
                      && !(old(space).unconfirmed && old(space).guard.None? && pod.None?)
      ensures !ok ==> state.phase.Idle? && (GuardDone(space) || space.unconfirmed)
                      && (space.unconfirmed || (pod.Some? && started))
      ensures space.epoch == old(space.epoch) && (space.unconfirmed ==> old(space.unconfirmed) || !ok)
      ensures space.admitted == old(space).admitted && old(space).terminated <= space.terminated
      ensures space == if GuardDone(old(space)) then old(space) else Answered(old(space), confirmed)
    {
      if space.guard.Some? && !space.guard.value.terminated {
        EndGuarded(confirmed);
        if !confirmed {
          return false;
        }
      } else if state.phase.Terminating? {
        Does(PassTerminated);
      }
      ok := !(pod.Some? && (space.guard.None? || space.guard.value.uid != pod.value) && started)
            && !(space.unconfirmed && space.guard.None? && pod.None?);
      if !ok && state.phase.Deleting? {
        Does(Abort);
      }
    }

    method EndGuarded(confirmed: bool)
      requires Valid() && (state.phase.Idle? || state.phase.Terminating?) && !GuardDone(space)
      modifies this`space, this`state
      ensures Valid() && state == Next(old(state), Terminate(confirmed))
      ensures old(Protected(state)) ==> Protected(state)
    {
      if !confirmed {
        space := space.(unconfirmed := true);
      } else {
        var guard := space.guard.value;
        space := space.(guard := Some(guard.(terminated := true)), terminated := space.terminated + {guard.uid},
                        unconfirmed := false);
      }
      Does(Terminate(confirmed));
    }

    /** Stops the Space: no command is left unfinished, and either every Pod a command ran
        in is confirmed terminated or the Space is marked. */
    method Stop(confirmed: bool, pod: Option<Uid>, started: bool, deleted: bool) returns (ok: bool)
      requires Valid() && state.phase.Idle? && pod == state.world.pod
      modifies this
      ensures Valid() && state.phase.Idle? && AllTerminal(commands) && commands.Keys == old(commands).Keys
      ensures forall op :: op in commands ==> Severed(old(commands)[op], commands[op])
      ensures ok <==> (GuardDone(old(space)) || confirmed) && !(pod.Some? && old(space).guard.None? && started)
                      && !(old(space).unconfirmed && old(space).guard.None? && pod.None?) && deleted
      ensures ok ==> !space.unconfirmed && state.world.pod.None? && GuardDone(space)
      ensures space.admitted.None? && space.epoch == old(space).epoch && old(space).terminated <= space.terminated
      ensures !GuardDone(old(space)) ==>
                if confirmed then old(space).guard.value.uid in space.terminated else space.unconfirmed
      ensures space.unconfirmed || forall op :: op in commands ==> commands[op].pod in space.terminated
    {
      BeginInterrupts();
      InterruptSpaceCommands();
      Does(EndInterrupts);
      ok := TerminateRecordedPod(confirmed, pod, started);
      if GuardDone(state.space) { AllTerminated(state); }
      if ok {
        ok := RemovePod(deleted);
      }
    }

    method RemovePod(deleted: bool) returns (ok: bool)
      requires Valid() && state.phase.Deleting?
      modifies this`space, this`state
      ensures Valid() && state.phase.Idle? && (ok <==> deleted)
      ensures ok ==> state.world.pod.None?
      ensures space == if deleted then old(space).(unconfirmed := false) else old(space)
    {
      if !deleted {
        Does(Abort);
        return false;
      }
      Does(DeletePod);
      space := space.(unconfirmed := false);
      Does(ClearBit);
      ok := true;
    }

    method BeginInterrupts()
      requires Valid() && state.phase.Idle?
      modifies this`space, this`state
      ensures Valid() && state == Next(old(state), BeginStop) && space == old(space).(admitted := None)
    {
      space := space.(admitted := None);
      Does(BeginStop);
    }

    /** Reserves the next epoch and creates the Space's Pod if there is none. It does so
        only when every Pod ever bound to a guard is confirmed terminated. */
    method EnsurePod(pod: Option<Uid>, uid: Uid, made: bool, confirmed: bool) returns (created: Result<bool>)
      requires Valid() && state.phase.Idle? && !state.recovering && pod == state.world.pod && uid !in state.world.used
      modifies this`space, this`state
      ensures Valid() && state.phase.Idle?
      ensures created.Err? <==> old(space).unconfirmed || (pod.None? && !GuardDone(old(space)) && !confirmed)
      ensures created.Err? ==> space == old(space).(unconfirmed := true) && state.world.pod == pod
      ensures created.Ok? ==> (created.value <==> pod.None?)
      ensures created.Ok? && !created.value ==> space == old(space) && state.world.pod == pod
      ensures created.Ok? && created.value ==>
                && space.epoch == old(space.epoch) + 1 && state.world.pod == (if made then Some(uid) else None)
                && space.guard.None? && space.admitted.None? && !space.unconfirmed
                && forall u :: u in state.world.guarded ==> u in space.terminated
    {
      if space.unconfirmed {
        return Err("termination_unconfirmed");
      }
      if pod.Some? {
        return Ok(false);
      }
      var ok := TerminateRecordedPod(confirmed, pod, false);
      if !ok {
        return Err("termination_unconfirmed");
      }
      ReserveEpoch();
      Does(Create(uid, made));
      created := Ok(true);
    }

    method ReserveEpoch()
      requires Valid() && Possible(state, Reserve)
      modifies this`space, this`state
      ensures Valid() && state == Next(old(state), Reserve)
      ensures forall uid :: uid in state.world.guarded ==> uid in space.terminated
    {
      space := space.(epoch := space.epoch + 1, guard := None, admitted := None);
      Does(Reserve);
    }

    /** Ends one Pod by identity and deletes its object if it is still the Space's; `confirmed`
        is the node guard's answer, `deleted` that of Kubernetes. */
    method StopMatchingPod(uid: Uid, confirmed: bool, pod: Option<Uid>, deleted: bool) returns (ok: bool)
      requires Valid() && state.phase.Idle? && pod == state.world.pod
      modifies this`space, this`state
      ensures Valid() && state.phase.Idle? && state.commands == old(state.commands) && state.recovering == old(state.recovering)
      ensures ok ==> uid in space.terminated && state.world.pod != Some(uid)
      ensures ok <==> Stoppable(old(space), uid, confirmed, pod, deleted)
      ensures space.guard.Some? == old(space).guard.Some?
      ensures space.guard.Some? ==> space.guard.value.uid == old(space).guard.value.uid
                                    && (old(space).guard.value.terminated ==> space.guard.value.terminated)
      ensures state.world.pod == if ok && pod == Some(uid) then None else pod
      ensures space.admitted != Some(uid) && old(space).terminated <= space.terminated
      ensures old(space).guard.Some? && old(space).guard.value.uid == uid && !old(space).guard.value.terminated && !confirmed ==>
                space.unconfirmed
      ensures space.unconfirmed ==> old(space).unconfirmed
                                    || (old(space).guard.Some? && old(space).guard.value.uid == uid
                                        && !old(space).guard.value.terminated && !confirmed)
      ensures forall op :: op in commands && old(StopKnown(state, commands[op].pod)) ==> StopKnown(state, commands[op].pod)
      ensures old(Protected(state)) ==> Protected(state)
    {
      if space.admitted == Some(uid) {
        space := space.(admitted := None);
        Does(ClearAdmitted);
      }
      ok := EndMatching(uid, confirmed);
      if ok && pod == Some(uid) {
        ok := deleted;
        if deleted {
          Does(Vanish);
        }
      }
    }

    method EndMatching(uid: Uid, confirmed: bool) returns (ok: bool)
      requires Valid() && state.phase.Idle?
      modifies this`space, this`state
      ensures Valid() && state.phase.Idle? && state.commands == old(state.commands) && state.recovering == old(state.recovering)
      ensures state.world.pod == old(state.world.pod) && (ok ==> uid in space.terminated)
      ensures space.admitted == old(space).admitted && old(space).terminated <= space.terminated
      ensures space.guard.Some? == old(space).guard.Some?
      ensures space.guard.Some? ==> space.guard.value.uid == old(space).guard.value.uid
                                    && (old(space).guard.value.terminated ==> space.guard.value.terminated)
      ensures var live := old(space).guard.Some? && old(space).guard.value.uid == uid && !old(space).guard.value.terminated;
              && (live && !confirmed ==> space.unconfirmed)
              && (space.unconfirmed ==> old(space).unconfirmed || (live && !confirmed))
      ensures ok <==> if old(space).guard.Some? && old(space).guard.value.uid == uid
                      then old(space).guard.value.terminated || confirmed else uid in old(space).terminated
      ensures forall op :: op in commands && old(StopKnown(state, commands[op].pod)) ==> StopKnown(state, commands[op].pod)
      ensures old(Protected(state)) ==> Protected(state)
    {
      if space.guard.None? || space.guard.value.uid != uid {
        return uid in space.terminated;
      }
      if !space.guard.value.terminated {
        EndGuarded(confirmed);
        if confirmed { AllTerminated(state); }
        return confirmed;
      }
      ok := true;
    }

    method MarkSpaceUnconfirmed()
      requires Valid()
      modifies this`space, this`state
      ensures Valid() && state == Next(old(state), Mark) && space == old(space).(unconfirmed := true)
      ensures old(Protected(state)) ==> Protected(state)
    {
      space := space.(unconfirmed := true);
      Does(Mark);
    }

    /** After a restart: the Pods of commands that were running are ended or the Space is
        marked, and only then is every unfinished record retired. Nothing is sent again. */
    method RecoverCommands(confirmed: set<Uid>, pod: Option<Uid>, deleted: bool)
      requires Valid() && state.phase.Idle? && state.recovering && pod == state.world.pod
      requires forall op :: op in commands ==> commands[op].future.Absent?
      modifies this
      ensures Valid() && state.phase.Idle? && !state.recovering && AllTerminal(commands)
      ensures commands.Keys == old(commands).Keys
      ensures forall op :: op in commands && commands[op].status.Interrupted? ==>
                StopKnown(state, commands[op].pod) || state.world.pod.None?
      ensures old(Protected(state)) ==>
                forall op :: op in commands && commands[op].status.Interrupted? ==> StopKnown(state, commands[op].pod)
      ensures forall op :: op in commands && old(commands)[op].status.Running? ==> StopKnown(state, commands[op].pod)
      ensures AllStoppable(old(space), old(commands), confirmed, pod, deleted) && !old(space).unconfirmed ==>
                && !space.unconfirmed
                && forall op :: op in commands && old(commands)[op].status.Running? ==> commands[op].pod in space.terminated
      ensures forall op :: op in commands ==> Severed(old(commands)[op], commands[op])
    {
      StopRunningPods(confirmed, pod, deleted);
      RetireCommands();
      Does(Recovered);
      KnownOnceRecovered(state);
    }

    method StopRunningPods(confirmed: set<Uid>, pod: Option<Uid>, deleted: bool)
      requires Valid() && state.phase.Idle? && state.recovering && pod == state.world.pod
      modifies this`space, this`state
      ensures Valid() && state.phase.Idle? && state.recovering
      ensures forall op :: op in commands && commands[op].status.Running? ==> StopKnown(state, commands[op].pod)
      ensures old(Protected(state)) ==> Protected(state)
      ensures AllStoppable(old(space), commands, confirmed, pod, deleted) && !old(space).unconfirmed ==> !space.unconfirmed
    {
      var left, current := set op | op in commands && commands[op].status.Running? :: commands[op].pod, pod;
      while left != {}
        invariant Valid() && state.phase.Idle? && state.recovering && current == state.world.pod
        invariant old(Protected(state)) ==> Protected(state)
        invariant forall op :: op in commands && commands[op].status.Running? ==>
                    commands[op].pod in left || StopKnown(state, commands[op].pod)
        invariant AllStoppable(old(space), commands, confirmed, pod, deleted) && !old(space).unconfirmed ==>
                    !space.unconfirmed && forall uid :: uid in left ==> Stoppable(space, uid, uid in confirmed, current, deleted)
        decreases left
      {
        HasMember(left);
        var uid :| uid in left;
        current := StopOrMark(uid, uid in confirmed, current, deleted);
        left := left - {uid};
      }
    }

    method StopOrMark(uid: Uid, confirmed: bool, pod: Option<Uid>, deleted: bool) returns (current: Option<Uid>)
      requires Valid() && state.phase.Idle? && pod == state.world.pod
      modifies this`space, this`state
      ensures Valid() && state.phase.Idle? && state.recovering == old(state.recovering) && current == state.world.pod
      ensures StopKnown(state, uid)
      ensures Stoppable(old(space), uid, confirmed, pod, deleted) && !old(space).unconfirmed ==> !space.unconfirmed
      ensures forall u, yes :: Stoppable(old(space), u, yes, pod, deleted) ==> Stoppable(space, u, yes, current, deleted)
      ensures forall op :: op in commands && old(StopKnown(state, commands[op].pod)) ==> StopKnown(state, commands[op].pod)
      ensures old(Protected(state)) ==> Protected(state)
    {
      current := pod;
      var ok := StopMatchingPod(uid, confirmed, pod, deleted);
      if !ok {
        MarkSpaceUnconfirmed();
      } else if pod == Some(uid) {
        current := None;
      }
    }

    method RetireCommands()
      requires Valid() && state.phase.Idle? && state.recovering
      requires forall op :: op in commands ==> commands[op].future.Absent?
      requires forall op :: op in commands && commands[op].status.Running? ==> StopKnown(state, commands[op].pod)
      modifies this`commands, this`foreground, this`state
      ensures Valid() && state.phase.Idle? && state.recovering && AllTerminal(commands)
      ensures commands.Keys == old(commands).Keys
      ensures forall op :: op in commands ==> Severed(old(commands)[op], commands[op])
      ensures old(Protected(state)) ==> Protected(state)
    {
      forall op | op in commands ensures Severed(commands[op], Retired(commands[op])) { RetiredIsSevered(commands[op]); }
      var left := commands.Keys;
      while left != {}
        invariant Valid() && state == old(state).(commands := commands) && commands.Keys == old(commands).Keys
        invariant old(Protected(state)) ==> Protected(state)
        invariant left <= commands.Keys
        invariant forall op :: op in commands && op in left ==> commands[op] == old(commands)[op]
        invariant forall op :: op in commands && op !in left ==> commands[op] == Retired(old(commands)[op])
        decreases left
      {
        HasMember(left);
        var op :| op in left;
        RetireOne(op);
        left := left - {op};
      }
    }

    method RetireOne(op: Op)
      requires Valid() && state.recovering && op in commands && commands[op].future.Absent?
      requires commands[op].status.Running? ==> StopKnown(state, commands[op].pod)
      modifies this`commands, this`state
      ensures Valid() && state == old(state).(commands := commands)
      ensures commands == old(commands)[op := Retired(old(commands)[op])]
      ensures old(Protected(state)) ==> Protected(state)
    {
      var record := commands[op];
      if record.status.Running? {
        commands := commands[op := record.(status := Interrupted)];
        Does(Happen(op, Retire));
      } else if record.status.Queued? {
        commands := commands[op := record.(status := Cancelled)];
        Does(Happen(op, Retire));
      }
    }
  }
}
