/** The node guard (runner/node_guard.py): one record per Working Area, tombstones that
    are never revived, an epoch fence, and cleanup obligations that outlive the
    record they came from.

    `dead` and `absent` are the truth about containers: those whose sandbox process is
    gone for good, and those the native runtime holds no state of. What the host
    reports is only assumed to be consistent with it. */
module NodeGuard {
  import opened Common
  import opened Rotation

  datatype Protocol = V1 | V2

  /** The five fields that identify one execution. */
  datatype Binding = Binding(container: Id, podUid: int, area: int, epoch: int, image: int)

  datatype Sentry = Sentry(pid: int, start: int)

  /** `queuedBy` is the guard state directory that owns the cleanup handoff. */
  datatype Record = Record(binding: Binding, protocol: Protocol, podName: int, sentry: Option<Sentry>,
                           terminated: bool, frozen: bool, deadline: Option<int>, listener: Option<int>,
                           queuedBy: Option<int>)

  datatype Obligation = Obligation(binding: Binding, protocol: Protocol, podName: int, sentry: Option<Sentry>)

  datatype Action = Limits | V2Limits | Status | Freeze(idle: int) | Terminate | Cell(seconds: int) | CellStatus
                  | Export | ReadFile | Logs | NetworkStart(port: int) | NetworkStop | NetworkProbe

  datatype Request = Request(binding: Binding, protocol: Protocol, podName: int, execution: bool, action: Action)

  datatype Runtime = Running | Paused | Stopped | Unknown

  datatype Sandbox = Sandbox(status: Runtime, pid: int, start: int)

  /** What the host answers while one request is handled: whether the previous sentry is
      gone, the validated sandbox, whether a kill was confirmed, whether limits
      match, the state after a pause, what an earlier delivery of the cell left, and
      which durable writes of the handoff succeed. */
  datatype Env = Env(gone: bool, sandbox: Option<Sandbox>, killed: bool, limitsMatch: bool, paused: Sandbox,
                     cellSeen: Option<bool>, now: int, obligationSaved: bool, recordSaved: bool)

  datatype Reply = Refused | Answer(confirmed: bool)

  /** Everything on disk, and the containers whose native state is known to be gone. */
  datatype Durable = Durable(areas: map<int, Record>, cleanup: map<Id, Obligation>, cleaned: set<Id>)

  // ---------- what one durable write may do ----------

  /** The helpers container hands its live sandbox to the execution container of the same Pod. */
  predicate Handoff(before: Record, after: Record) {
    && before.protocol == V2 && after.protocol == V2
    && before.binding.podUid == after.binding.podUid && before.podName == after.podName
    && before.binding.epoch == after.binding.epoch
    && (after.sentry.Some? ==> before.sentry.Some? && before.sentry.value.pid == after.sentry.value.pid)
  }

  predicate Owed(d: Durable, container: Id) {
    container in d.cleanup || container in d.cleaned
  }

  /** One execution's record replaced by another's. */
  predicate Replaces(d: Durable, before: Record, after: Record) {
    && before.binding.epoch <= after.binding.epoch
    && (before.binding.epoch == after.binding.epoch ==>
          before.binding.container == after.binding.container || Handoff(before, after))
    && (before.terminated ==>
          before.binding.container != after.binding.container && Owed(d, before.binding.container))
    && (!before.terminated && before.protocol == V2 && after.protocol == V2 ==> Handoff(before, after))
  }

  predicate AreaStep(d: Durable, before: Record, after: Record) {
    && before.binding.area == after.binding.area
    && if before.binding == after.binding then before.terminated ==> after.terminated
       else Replaces(d, before, after)
  }

  predicate DurableStep(a: Durable, b: Durable) {
    && a.cleaned <= b.cleaned
    && (forall c :: c in a.cleanup ==> (c in b.cleanup && b.cleanup[c] == a.cleanup[c]) || c in b.cleaned)
    && (forall area :: area in a.areas ==>
          area in b.areas && (a.areas[area] == b.areas[area] || AreaStep(a, a.areas[area], b.areas[area])))
  }

  predicate History(root: int, history: seq<Durable>) {
    && (forall i :: 0 <= i < |history| ==> Keyed(root, history[i]))
    && (forall i :: 0 <= i < |history| - 1 ==> DurableStep(history[i], history[i + 1]))
  }

  /** Records sit under their own area; a queued record is a tombstone whose obligation exists. */
  predicate Keyed(root: int, d: Durable) {
    && (forall area :: area in d.areas ==>
          && d.areas[area].binding.area == area
          && (d.areas[area].queuedBy == Some(root) ==>
                d.areas[area].terminated && Owed(d, d.areas[area].binding.container)))
    && (forall c :: c in d.cleanup ==> d.cleanup[c].binding.container == c)
  }

  // ---------- every sequence of requests, crashes included ----------

  /** An area's epoch never decreases. */
  lemma {:induction false} EpochNeverDecreases(root: int, history: seq<Durable>, area: int, i: nat, j: nat)
    requires History(root, history) && i <= j < |history| && area in history[i].areas
    ensures area in history[j].areas && history[i].areas[area].binding.epoch <= history[j].areas[area].binding.epoch
    decreases j - i
  {
    if i < j {
      assert DurableStep(history[i], history[i + 1]);
      EpochNeverDecreases(root, history, area, i + 1, j);
    }
  }

  /** A tombstone gives way only to a different container, at a greater epoch or by the
      handoff of one sandbox, and only once its obligation is recorded. */
  lemma {:induction false} TombstoneGivesWay(root: int, history: seq<Durable>, area: int, i: nat, j: nat) returns (k: nat)
    requires History(root, history) && i < j < |history| && area in history[i].areas
    requires history[i].areas[area].terminated
    requires area in history[j].areas && !history[j].areas[area].terminated
    ensures i <= k < j && area in history[k].areas && area in history[k + 1].areas
    ensures var before, after := history[k].areas[area], history[k + 1].areas[area];
            && before.terminated && before.binding.container != after.binding.container
            && (before.binding.epoch < after.binding.epoch || Handoff(before, after))
            && Owed(history[k], before.binding.container)
    decreases j - i
  {
    assert DurableStep(history[i], history[i + 1]);
    var before, after := history[i].areas[area], history[i + 1].areas[area];
    if before.binding == after.binding || (after.terminated && i + 1 < j) {
      k := TombstoneGivesWay(root, history, area, i + 1, j);
    } else {
      k := i;
    }
  }

  lemma {:induction false} OwedStays(root: int, history: seq<Durable>, container: Id, i: nat, j: nat)
    requires History(root, history) && i <= j < |history| && Owed(history[i], container)
    ensures Owed(history[j], container)
    decreases j - i
  {
    if i < j {
      assert DurableStep(history[i], history[i + 1]);
      OwedStays(root, history, container, i + 1, j);
    }
  }

  /** A tombstoned execution whose record has been replaced still has its exact
      cleanup record, until its native state is known to be gone. */
  lemma {:induction false} CleanupConserved(root: int, history: seq<Durable>, area: int, i: nat, j: nat, k: nat)
    requires History(root, history) && i <= j <= k < |history| && area in history[i].areas
    requires var before := history[i].areas[area];
             before.terminated && area in history[j].areas
             && history[j].areas[area].binding.container != before.binding.container
    ensures Owed(history[k], history[i].areas[area].binding.container)
    decreases j - i
  {
    var before, after := history[i].areas[area], history[i + 1].areas[area];
    assert DurableStep(history[i], history[i + 1]);
    if before.binding == after.binding {
      CleanupConserved(root, history, area, i + 1, j, k);
    } else {
      OwedStays(root, history, before.binding.container, i, k);
    }
  }

  /** An obligation is dropped only together with the knowledge that its container's
      native state is gone. */
  lemma DroppedIsCleaned(root: int, history: seq<Durable>, container: Id, i: nat, j: nat)
    requires History(root, history) && i <= j < |history|
    requires container in history[i].cleanup && container !in history[j].cleanup
    ensures container in history[j].cleaned
  {
    OwedStays(root, history, container, i, j);
  }

  // ---------- the guard ----------

  lemma {:induction false} CleanedGrows(root: int, history: seq<Durable>, i: nat, j: nat)
    requires History(root, history) && i <= j < |history|
    ensures history[i].cleaned <= history[j].cleaned
    decreases j - i
  {
    if i < j {
      assert DurableStep(history[i], history[i + 1]);
      CleanedGrows(root, history, i + 1, j);
    }
  }

  predicate Bound(previous: Option<Record>, request: Request) {
    previous.Some? && previous.value.binding == request.binding
  }

  /** `transition`: the execution container takes over the helpers' sandbox. */
  predicate Transition(previous: Option<Record>, request: Request, sandbox: Sandbox) {
    && previous.Some? && request.protocol == V2 && request.action == V2Limits && previous.value.protocol == V2
    && previous.value.binding.podUid == request.binding.podUid && previous.value.podName == request.podName
    && previous.value.binding.epoch == request.binding.epoch
    && (previous.value.sentry.Some? && previous.value.sentry.value.pid == sandbox.pid)
    && request.execution
  }

  /** The record a request writes for a sandbox. */
  function Bind(request: Request, sandbox: Sandbox): (r: Record) {
    Record(request.binding, request.protocol, request.podName,
           if sandbox.pid > 1 then Some(Sentry(sandbox.pid, sandbox.start)) else None,
           false, false, None, None, None)
  }

  function Tombstone(record: Record): (r: Record) {
    record.(terminated := true, deadline := None, frozen := false)
  }

  /** The execution container of a v2 Pod asks for limits in the sandbox that its Pod's record names. */
  predicate TakesOver(record: Record, request: Request, sandbox: Sandbox) {
    && request.action == V2Limits && request.execution && record.protocol == V2 && request.protocol == V2
    && record.binding.podUid == request.binding.podUid && record.podName == request.podName
    && record.binding.epoch == request.binding.epoch && record.sentry.Some? && record.sentry.value.pid == sandbox.pid
  }

  /** A request of another execution gets past a stopped record: of another container, with the
      cleanup of the old one recorded, at a greater epoch or as the handoff within one v2 Pod. */
  predicate Succeeds(stopped: Record, request: Request, sandbox: Sandbox) {
    && stopped.binding.container != request.binding.container
    && (request.binding.epoch > stopped.binding.epoch || TakesOver(stopped, request, sandbox))
  }

  /** The cleanup of a tombstone is recorded before anything follows it. */
  predicate Queues(root: int, cleanup: map<Id, Obligation>, record: Record, env: Env) {
    || record.queuedBy == Some(root)
    || (if record.binding.container in cleanup
        then cleanup[record.binding.container] == Obligation(record.binding, record.protocol, record.podName, record.sentry)
        else env.obligationSaved)
  }

  /** What a request that nothing bars can do with this sandbox; `own` is the record of exactly
      its execution, if there is one. */
  predicate Can(own: Option<Record>, request: Request, env: Env, sandbox: Sandbox) {
    var network := own.Some? && request.protocol == V2 && own.value.sentry.Some? && own.value.sentry.value.pid == sandbox.pid;
    match request.action
    case Limits => env.limitsMatch
    case V2Limits => env.limitsMatch && request.protocol == V2
    case Status => true
    case CellStatus => true
    case Freeze(_) => env.paused.status == Paused || env.paused.status == Stopped
    case Terminate => sandbox.status == Stopped || ((sandbox.status == Running || sandbox.status == Paused) && env.killed)
    case Cell(seconds) => env.cellSeen != Some(false) && 1 <= seconds <= 600
    case NetworkStart(_) => network && own.value.listener.None?
    case NetworkStop => network
    case NetworkProbe => network
    case _ => sandbox.status == Paused || sandbox.status == Stopped
  }

  /** What it is told then: whether the writer is stopped for good. */
  function Told(request: Request, env: Env, sandbox: Sandbox): (reply: Reply) {
    match request.action
    case Status => Answer(sandbox.status == Stopped)
    case CellStatus => Answer(sandbox.status == Stopped)
    case Freeze(_) => Answer(env.paused.status == Stopped)
    case Terminate => Answer(true)
    case _ => Answer(false)
  }

  function Reaction(own: Option<Record>, request: Request, env: Env, sandbox: Sandbox): (reply: Reply) {
    if Can(own, request, env, sandbox) then Told(request, env, sandbox) else Refused
  }

  /** What is left to ask about an execution that has stopped. */
  function ToldOfStopped(request: Request): (reply: Reply) {
    match request.action
    case Terminate => Answer(true)
    case Status => Answer(true)
    case CellStatus => Answer(true)
    case Export => Answer(false)
    case ReadFile => Answer(false)
    case Logs => Answer(false)
    case _ => Refused
  }

  /** A v2 termination of exactly the recorded sandbox, which needs no look at it. */
  predicate Direct(record: Record, request: Request) {
    && request.action == Terminate && request.protocol == V2 && record.protocol == V2 && record.podName == request.podName
    && record.sentry.Some?
  }

  /** The whole answer: by what the area's record says and what the host answers. */
  function Verdict(root: int, areas: map<int, Record>, cleanup: map<Id, Obligation>, request: Request, env: Env): (reply: Reply) {
    if request.binding.area !in areas then
      if env.sandbox.Some? && Can(None, request, env, env.sandbox.value) then Told(request, env, env.sandbox.value) else Refused
    else
      var record := areas[request.binding.area];
      var stopped := record.terminated || env.gone;
      if record.binding == request.binding then
        if stopped then ToldOfStopped(request)
        else if Direct(record, request) then (if env.killed then Answer(true) else Refused)
        else if env.sandbox.Some? && Can(Some(record), request, env, env.sandbox.value) then Told(request, env, env.sandbox.value)
        else Refused
      else if env.sandbox.Some? && Can(None, request, env, env.sandbox.value)
              && (if stopped then Succeeds(record, request, env.sandbox.value) && Queues(root, cleanup, record, env)
                  else Supersedes(record, request, env.sandbox.value))
      then Told(request, env, env.sandbox.value)
      else Refused
  }

  /** A request of another execution gets past a live record: by the handoff within one v2
      Pod, or at a greater epoch unless both are v2. The same container at the same epoch
      under another Pod or image counts as the latter. */
  predicate Supersedes(live: Record, request: Request, sandbox: Sandbox) {
    var handoff := TakesOver(live, request, sandbox);
    && (handoff || live.protocol != V2 || request.protocol != V2)
    && (request.binding.epoch > live.binding.epoch
        || (request.binding.epoch == live.binding.epoch && (live.binding.container == request.binding.container || handoff)))
  }

  /** The action saves a record of the request's own execution. */
  predicate Writes(request: Request, env: Env) {
    env.sandbox.Some? &&
    match request.action
    case Limits => env.limitsMatch
    case V2Limits => env.limitsMatch && request.protocol == V2
    case Freeze(_) => env.paused.status == Paused || env.paused.status == Stopped
    case Terminate => env.sandbox.value.status == Stopped || (env.sandbox.value.status != Unknown && env.killed)
    case Cell(seconds) => env.cellSeen.None? && 1 <= seconds <= 600
    case _ => false
  }

  /** From the save `n` on, the area's record has been of this one execution. */
  predicate HeldSince(history: seq<Durable>, n: nat, area: int, binding: Binding) {
    && n < |history|
    && forall i :: n <= i < |history| ==> area in history[i].areas && history[i].areas[area].binding == binding
  }

  class NodeGuard {
    const root: int
    var areas: map<int, Record>
    var cleanup: map<Id, Obligation>
    ghost var cleaned: set<Id>
    ghost var dead: set<Id>
    ghost var absent: set<Id>
    ghost var history: seq<Durable>

    ghost function Now(): (d: Durable)
      reads this
    {
      Durable(areas, cleanup, cleaned)
    }

    /** Everything saved so far follows the rules, tombstones tell the truth, and so do obligations. */
    ghost predicate Valid()
      reads this
    {
      && history != [] && history[|history| - 1] == Now() && History(root, history)
      && (forall area :: area in areas && areas[area].terminated ==> areas[area].binding.container in dead)
      && (forall c :: c in cleanup ==> c in dead) && cleaned <= absent
    }

    constructor (root: int)
      ensures Valid() && this.root == root && history == [Durable(map[], map[], {})] && dead == {}
    {
      this.root := root;
      areas, cleanup, cleaned, dead, absent := map[], map[], {}, {}, {};
      history := [Durable(map[], map[], {})];
    }

    /** One durable save of an area's record. */
    method SaveRecord(record: Record)
      requires Valid()
      requires var area := record.binding.area;
               area in areas ==> areas[area] == record || AreaStep(Now(), areas[area], record)
      requires record.terminated ==> record.binding.container in dead
      requires record.queuedBy == Some(root) ==> record.terminated && Owed(Now(), record.binding.container)
      modifies this`areas, this`history
      ensures Valid() && history == old(history) + [Now()]
      ensures areas == old(areas)[record.binding.area := record]
    {
      areas := areas[record.binding.area := record];
      history := history + [Now()];
    }

    /** A confirmed kill: the sandbox process was waited for. */
    ghost method Killed(container: Id)
      requires Valid()
      modifies this`dead
      ensures Valid() && dead == old(dead) + {container}
    {
      dead := dead + {container};
    }

    /** Records the exact-container cleanup obligation of a tombstone. The result is
        queued exactly when that obligation is durable. */
    method HandoffCleanup(record: Record, env: Env) returns (r: Record)
      requires Valid() && record.terminated && record.binding.container in dead
      requires record.binding.area in areas && areas[record.binding.area] == record
      modifies this`areas, this`cleanup, this`history
      ensures Valid() && old(history) <= history
      ensures forall i :: |old(history)| <= i < |history| ==>
                record.binding.area in history[i].areas && history[i].areas[record.binding.area].binding == record.binding
      ensures r == record || r == record.(queuedBy := Some(root))
      ensures r.queuedBy == Some(root) ==> Owed(Now(), record.binding.container)
      ensures r.queuedBy == Some(root) <==> Queues(root, old(cleanup), record, env)
      ensures areas.Keys == old(areas).Keys && areas[record.binding.area] in {record, r}
      ensures forall area :: area in areas && area != record.binding.area ==> areas[area] == old(areas)[area]
    {
      r := record;
      if record.queuedBy == Some(root) {
        assert Keyed(root, history[|history| - 1]);
        return;
      }
      var pending := Obligation(record.binding, record.protocol, record.podName, record.sentry);
      if record.binding.container in cleanup {
        if cleanup[record.binding.container] != pending {
          return;
        }
      } else {
        if !env.obligationSaved {
          return;
        }
        SaveObligation(pending);
      }
      r := record.(queuedBy := Some(root));
      if env.recordSaved {
        SaveRecord(r);
      }
    }

    /** One durable save of a new cleanup obligation. */
    method SaveObligation(pending: Obligation)
      requires Valid() && pending.binding.container !in cleanup && pending.binding.container in dead
      modifies this`cleanup, this`history
      ensures Valid() && history == old(history) + [Now()]
      ensures cleanup == old(cleanup)[pending.binding.container := pending]
    {
      assert Keyed(root, history[|history| - 1]);
      cleanup := cleanup[pending.binding.container := pending];
      history := history + [Now()];
    }

    /** What the host reports about containers is true. */
    ghost predicate Truthful(request: Request, env: Env)
      reads this
    {
      var area := request.binding.area;
      && (env.gone && area in areas ==> areas[area].binding.container in dead)
      && (env.sandbox.Some? && env.sandbox.value.status == Stopped ==> request.binding.container in dead)
      && (env.paused.status == Stopped ==> request.binding.container in dead)
    }

    /** The record of the request's area, if there is one. */
    function Previous(request: Request): (r: Option<Record>)
      reads this
    {
      if request.binding.area in areas then Some(areas[request.binding.area]) else None
    }

    /** The record of exactly this execution, if there is one. */
    function Own(request: Request): (r: Option<Record>)
      reads this
    {
      if Bound(Previous(request), request) then Previous(request) else None
    }

    /** The area's record is a tombstone of exactly this execution. */
    predicate Tombstoned(request: Request)
      reads this
    {
      Bound(Previous(request), request) && Previous(request).value.terminated
    }

    /** The area's record is of another execution that is not known to be stopped. */
    predicate Live(request: Request, env: Env)
      reads this
    {
      var previous := Previous(request);
      previous.Some? && !previous.value.terminated && !env.gone && !Bound(previous, request)
    }

    /** Serves one request. Whatever it saves follows the rules above; it confirms a
        termination only when the container is dead; and once an execution is
        tombstoned, asking about exactly that execution is always confirmed. A live
        record of another execution is replaced exactly if the request supersedes it and
        its action saves a record, and then by the very next save: no tombstone of it comes
        in between. */
    method Handle(request: Request, env: Env) returns (reply: Reply)
      requires Valid() && Truthful(request, env)
      modifies this
      ensures reply == Verdict(root, old(areas), old(cleanup), request, env)
      ensures var area := request.binding.area;
              area in old(areas) && old(areas)[area].binding == request.binding && !old(areas)[area].terminated && !env.gone
              && request.action == Terminate ==>
                if Direct(old(areas)[area], request) then reply == (if env.killed then Answer(true) else Refused)
                else reply == if env.sandbox.Some? && (env.sandbox.value.status == Stopped
                                                       || (env.sandbox.value.status != Unknown && env.killed)) then Answer(true)
                              else Refused
      ensures request.action.Limits? && Writes(request, env)
              && (old(Previous(request)).None?
                  || (old(Live(request, env)) && Supersedes(old(areas)[request.binding.area], request, env.sandbox.value)))
              ==> reply.Answer? && history == old(history) + [Now()]
      ensures old(Live(request, env)) ==>
                if env.sandbox.Some? && Supersedes(old(areas)[request.binding.area], request, env.sandbox.value) && Writes(request, env)
                then HeldSince(history, |old(history)|, request.binding.area, request.binding)
                else areas == old(areas) && history == old(history)
      ensures cleaned == old(cleaned) && absent == old(absent) && (!request.action.Terminate? ==> dead == old(dead))
      ensures Valid() && old(history) <= history && old(dead) <= dead
      ensures reply.Answer? && reply.confirmed ==> request.binding.container in dead
      ensures forall area :: area != request.binding.area ==>
                (area in areas <==> area in old(areas)) && (area in areas ==> areas[area] == old(areas)[area])
      ensures old(Tombstoned(request)) && request.action in {Terminate, Status, CellStatus} ==> reply == Answer(true)
      ensures reply.Answer? && request.action == Terminate ==>
                request.binding.area in areas && areas[request.binding.area].binding == request.binding
                && areas[request.binding.area].terminated
      ensures reply.Answer? && request.action in {Limits, V2Limits} ==>
                && env.sandbox.Some? && env.limitsMatch && request.binding.area in areas
                && var sandbox := env.sandbox.value;
                   areas[request.binding.area] ==
                     Record(request.binding, request.protocol, request.podName,
                            if sandbox.pid > 1 then Some(Sentry(sandbox.pid, sandbox.start)) else None, false, false, None, None, None)
    {
      var previous := Previous(request);
      var bound := Bound(previous, request);
      if bound && request.protocol == V2 && request.action == Terminate && previous.value.protocol == V2
         && previous.value.podName == request.podName && previous.value.sentry.Some? {
        reply := TerminateBound(request, env);
      } else if previous.Some? && (previous.value.terminated || env.gone) {
        reply := HandleStopped(request, env);
      } else if env.sandbox.None? {
        reply := Refused;
      } else {
        reply := Admit(previous, false, request, env);
      }
    }

    /** A v2 termination of exactly the recorded execution needs no runtime inspection. */
    method TerminateBound(request: Request, env: Env) returns (reply: Reply)
      requires Valid() && Truthful(request, env) && Bound(Previous(request), request)
      modifies this`areas, this`history, this`dead
      ensures Valid() && old(history) <= history && old(dead) <= dead
      ensures if old(areas)[request.binding.area].terminated || env.gone || env.killed
              then reply == Answer(true) && request.binding.container in dead
                   && areas == old(areas)[request.binding.area :=
                                            old(areas)[request.binding.area].(terminated := true, deadline := None, frozen := false)]
              else reply.Refused? && areas == old(areas)
    {
      assert Keyed(root, history[|history| - 1]);
      var previous := areas[request.binding.area];
      if !previous.terminated && !env.gone {
        if !env.killed {
          return Refused;
        }
        Killed(request.binding.container);
      }
      SaveRecord(Tombstone(previous));
      reply := Answer(true);
    }

    /** The area's execution has stopped: its tombstone and cleanup come first; then the same
        execution may be asked about, and another one may take over. */
    method HandleStopped(request: Request, env: Env) returns (reply: Reply)
      requires Valid() && Truthful(request, env) && Previous(request).Some?
      requires Previous(request).value.terminated || env.gone
      modifies this
      ensures cleaned == old(cleaned) && absent == old(absent) && (!request.action.Terminate? ==> dead == old(dead))
      ensures Valid() && old(history) <= history && old(dead) <= dead
      ensures reply.Answer? && reply.confirmed ==> request.binding.container in dead
      ensures forall area :: area != request.binding.area ==>
                (area in areas <==> area in old(areas)) && (area in areas ==> areas[area] == old(areas)[area])
      ensures reply == Verdict(root, old(areas), old(cleanup), request, env)
      ensures reply.Answer? && request.action == Terminate ==>
                request.binding.area in areas && areas[request.binding.area].binding == request.binding
                && areas[request.binding.area].terminated
      ensures reply.Answer? && request.action in {Limits, V2Limits} ==>
                && env.sandbox.Some? && env.limitsMatch && request.binding.area in areas
                && areas[request.binding.area] == Bind(request, env.sandbox.value)
    {
      var previous := areas[request.binding.area];
      assert Keyed(root, history[|history| - 1]);
      var bound := Bound(Some(previous), request);
      if previous.binding.container == request.binding.container && !bound {
        return Refused;
      }
      var record := SettleStopped(previous, env);
      if bound {
        reply := AskStopped(request);
        return;
      }
      if record.queuedBy != Some(root) || env.sandbox.None? {
        return Refused;
      }
      reply := Admit(Some(record), true, request, env);
    }

    method AskStopped(request: Request) returns (reply: Reply)
      ensures reply == ToldOfStopped(request)
    {
      if request.action in {Terminate, Status, CellStatus} {
        return Answer(true);
      }
      if !(request.action in {Export, ReadFile, Logs}) {
        return Refused;
      }
      reply := Answer(false);
    }

    /** Makes a stopped execution's tombstone durable and hands off its cleanup. */
    method SettleStopped(previous: Record, env: Env) returns (record: Record)
      requires Valid() && previous.binding.area in areas && areas[previous.binding.area] == previous
      requires previous.binding.container in dead
      modifies this`areas, this`cleanup, this`history
      ensures Valid() && old(history) <= history
      ensures record.terminated && record.binding == previous.binding
      ensures record.queuedBy == Some(root) ==> Owed(Now(), record.binding.container)
      ensures record.queuedBy == Some(root) <==> Queues(root, old(cleanup), previous, env)
      ensures record == if previous.terminated then previous.(queuedBy := record.queuedBy)
                        else previous.(terminated := true, deadline := None, frozen := false, queuedBy := record.queuedBy)
      ensures areas.Keys == old(areas).Keys && areas[previous.binding.area].terminated
      ensures areas[previous.binding.area] == record.(queuedBy := areas[previous.binding.area].queuedBy)
      ensures forall area :: area in areas && area != previous.binding.area ==> areas[area] == old(areas)[area]
    {
      record := previous;
      if !previous.terminated {
        record := Tombstone(previous);
        SaveRecord(record);
      }
      record := HandoffCleanup(record, env);
    }

    /** The fences, then the action itself. */
    method Admit(previous: Option<Record>, stopped: bool, request: Request, env: Env) returns (reply: Reply)
      requires Valid() && Truthful(request, env) && env.sandbox.Some?
      requires previous.Some? <==> request.binding.area in areas
      requires previous.Some? ==>
                 var now := areas[request.binding.area];
                 previous.value == now.(queuedBy := previous.value.queuedBy)
      requires stopped ==> previous.Some? && previous.value.terminated && !Bound(previous, request)
                           && previous.value.binding.container != request.binding.container
                           && Owed(Now(), previous.value.binding.container)
      requires !stopped && previous.Some? ==> !previous.value.terminated && previous.value == areas[request.binding.area]
      modifies this
      ensures reply == if Can(if Bound(previous, request) then previous else None, request, env, env.sandbox.value)
                          && (previous.None? || Bound(previous, request)
                              || (if stopped then Succeeds(previous.value, request, env.sandbox.value)
                                  else Supersedes(previous.value, request, env.sandbox.value)))
                       then Told(request, env, env.sandbox.value) else Refused
      ensures request.action.Limits? && Writes(request, env)
              && (previous.None? || (!stopped && !Bound(previous, request) && Supersedes(previous.value, request, env.sandbox.value)))
              ==> reply.Answer? && history == old(history) + [Now()]
      ensures !stopped && previous.Some? && !Bound(previous, request) ==>
                if Supersedes(previous.value, request, env.sandbox.value) && Writes(request, env)
                then HeldSince(history, |old(history)|, request.binding.area, request.binding)
                else areas == old(areas) && history == old(history)
      ensures cleaned == old(cleaned) && absent == old(absent) && (!request.action.Terminate? ==> dead == old(dead))
      ensures Valid() && old(history) <= history && old(dead) <= dead
      ensures reply.Answer? && reply.confirmed ==> request.binding.container in dead
      ensures forall area :: area != request.binding.area ==>
                (area in areas <==> area in old(areas)) && (area in areas ==> areas[area] == old(areas)[area])
      ensures reply.Answer? && request.action == Terminate ==>
                request.binding.area in areas && areas[request.binding.area].binding == request.binding
                && areas[request.binding.area].terminated
      ensures reply.Answer? && request.action in {Limits, V2Limits} ==>
                env.limitsMatch && request.binding.area in areas && areas[request.binding.area] == Bind(request, env.sandbox.value)
    {
      assert Keyed(root, history[|history| - 1]);
      var sandbox := env.sandbox.value;
      var bound := Bound(previous, request);
      var transition := Transition(previous, request, sandbox);
      if previous.Some? && !stopped && !bound && !transition && previous.value.protocol == V2 && request.protocol == V2 {
        return Refused;
      }
      if previous.Some? && (request.binding.epoch < previous.value.binding.epoch
         || (request.binding.epoch == previous.value.binding.epoch
             && previous.value.binding.container != request.binding.container && !transition)) {
        return Refused;
      }
      if request.action == V2Limits && request.protocol != V2 {
        return Refused;
      }
      if request.action in {Limits, V2Limits} {
        reply := SaveLimits(request, env);
      } else {
        reply := Act(request, env);
      }
    }

    /** Any action that does not take over a sandbox may write this request's record. */
    ghost predicate MayBind(request: Request)
      reads this
    {
      request.binding.area in areas ==>
        var now := areas[request.binding.area];
        if now.binding == request.binding then !now.terminated
        else && now.binding.epoch <= request.binding.epoch
             && (now.binding.epoch == request.binding.epoch ==> now.binding.container == request.binding.container)
             && (now.terminated ==> now.binding.container != request.binding.container
                                    && Owed(Now(), now.binding.container))
             && !(!now.terminated && now.protocol == V2 && request.protocol == V2)
    }

    /** The actions other than setting limits. */
    method Act(request: Request, env: Env) returns (reply: Reply)
      requires Valid() && Truthful(request, env) && env.sandbox.Some? && MayBind(request)
      requires !request.action.Limits? && !request.action.V2Limits?
      modifies this
      ensures reply == Reaction(old(Own(request)), request, env, env.sandbox.value)
      ensures !old(Bound(Previous(request), request)) ==>
                if Writes(request, env) then HeldSince(history, |old(history)|, request.binding.area, request.binding)
                else areas == old(areas) && history == old(history)
      ensures cleaned == old(cleaned) && absent == old(absent) && (!request.action.Terminate? ==> dead == old(dead))
      ensures Valid() && old(history) <= history && old(dead) <= dead
      ensures reply.Answer? && reply.confirmed ==> request.binding.container in dead
      ensures forall area :: area != request.binding.area ==>
                (area in areas <==> area in old(areas)) && (area in areas ==> areas[area] == old(areas)[area])
      ensures reply.Answer? && request.action == Terminate ==>
                request.binding.area in areas && areas[request.binding.area].binding == request.binding
                && areas[request.binding.area].terminated
      ensures reply.Answer? && request.action.Freeze? ==>
                request.binding.area in areas
                && areas[request.binding.area] ==
                     Bind(request, env.paused).(frozen := true, deadline := Some(env.now + Min(request.action.idle, 1800)))
      ensures reply.Answer? && request.action.Cell? && env.cellSeen.None? ==>
                request.binding.area in areas
                && areas[request.binding.area] ==
                     Bind(request, env.sandbox.value).(deadline := Some(env.now + request.action.seconds))
    {
      if request.action.Terminate? {
        reply := Stop(request, env);
      } else if request.action.Freeze? || request.action.Cell? {
        reply := Write(request, env);
      } else {
        reply := Ask(request, env);
      }
    }

    /** The actions that save the record of a live execution. */
    method Write(request: Request, env: Env) returns (reply: Reply)
      requires Valid() && Truthful(request, env) && env.sandbox.Some? && MayBind(request)
      requires request.action.Freeze? || request.action.Cell?
      modifies this`areas, this`history
      ensures reply == Reaction(old(Own(request)), request, env, env.sandbox.value)
      ensures Valid() && old(history) <= history
      ensures if Writes(request, env) then HeldSince(history, |old(history)|, request.binding.area, request.binding)
              else areas == old(areas) && history == old(history)
      ensures reply.Answer? && reply.confirmed ==> request.binding.container in dead
      ensures areas == old(areas) || (request.binding.area in areas && areas == old(areas)[request.binding.area := areas[request.binding.area]])
      ensures reply.Answer? && request.action.Freeze? ==>
                request.binding.area in areas
                && areas[request.binding.area] ==
                     Bind(request, env.paused).(frozen := true, deadline := Some(env.now + Min(request.action.idle, 1800)))
      ensures reply.Answer? && request.action.Cell? && env.cellSeen.None? ==>
                request.binding.area in areas
                && areas[request.binding.area] ==
                     Bind(request, env.sandbox.value).(deadline := Some(env.now + request.action.seconds))
    {
      if request.action.Freeze? {
        reply := FreezeWriter(request, env, request.action.idle);
      } else {
        reply := SendCell(request, env, request.action.seconds);
      }
    }

    /** The actions that save nothing but a listener of their own execution. */
    method Ask(request: Request, env: Env) returns (reply: Reply)
      requires Valid() && Truthful(request, env) && env.sandbox.Some? && !request.action.Freeze? && !request.action.Terminate?
      requires !request.action.Cell? && !request.action.Limits? && !request.action.V2Limits?
      modifies this`areas, this`history
      ensures Valid() && old(history) <= history
      ensures reply.Answer? && reply.confirmed ==> request.binding.container in dead
      ensures !old(Bound(Previous(request), request)) ==> areas == old(areas) && history == old(history)
      ensures forall area :: area != request.binding.area ==>
                (area in areas <==> area in old(areas)) && (area in areas ==> areas[area] == old(areas)[area])
      ensures reply == Reaction(old(Own(request)), request, env, env.sandbox.value)
    {
      var sandbox := env.sandbox.value;
      match request.action {
        case Status =>
          reply := Answer(sandbox.status == Stopped);
        case CellStatus =>
          reply := Answer(sandbox.status == Stopped);
        case NetworkStart(_) =>
          reply := Probe(request, sandbox);
        case NetworkStop =>
          reply := Probe(request, sandbox);
        case NetworkProbe =>
          reply := Probe(request, sandbox);
        case _ =>
          reply := if sandbox.status == Paused || sandbox.status == Stopped then Answer(false) else Refused;
      }
    }

    method FreezeWriter(request: Request, env: Env, idle: int) returns (reply: Reply)
      requires Valid() && Truthful(request, env) && MayBind(request)
      modifies this`areas, this`history
      ensures Valid() && old(history) <= history
      ensures if env.paused.status == Paused || env.paused.status == Stopped
              then reply == Answer(env.paused.status == Stopped) && history == old(history) + [Now()]
                   && areas == old(areas)[request.binding.area :=
                        Bind(request, env.paused).(frozen := true, deadline := Some(env.now + Min(idle, 1800)))]
              else reply.Refused? && areas == old(areas) && history == old(history)
    {
      assert Keyed(root, history[|history| - 1]);
      if env.paused.status != Paused && env.paused.status != Stopped {
        return Refused;
      }
      SaveRecord(Bind(request, env.paused).(frozen := true, deadline := Some(env.now + Min(idle, 1800))));
      reply := Answer(env.paused.status == Stopped);
    }

    /** A cell is recorded once; a repeated delivery changes nothing. */
    method SendCell(request: Request, env: Env, seconds: int) returns (reply: Reply)
      requires Valid() && env.sandbox.Some? && MayBind(request)
      modifies this`areas, this`history
      ensures Valid() && old(history) <= history && !(reply.Answer? && reply.confirmed)
      ensures reply.Answer? <==> env.cellSeen != Some(false) && 1 <= seconds <= 600
      ensures history == if reply.Answer? && env.cellSeen.None? then old(history) + [Now()] else old(history)
      ensures areas == if reply.Answer? && env.cellSeen.None?
                       then old(areas)[request.binding.area :=
                              Bind(request, env.sandbox.value).(deadline := Some(env.now + seconds))]
                       else old(areas)
    {
      assert Keyed(root, history[|history| - 1]);
      if env.cellSeen == Some(false) || !(1 <= seconds <= 600) {
        return Refused;
      }
      if env.cellSeen.None? {
        SaveRecord(Bind(request, env.sandbox.value).(deadline := Some(env.now + seconds)));
      }
      reply := Answer(false);
    }

    /** Network probes of an exactly bound, live sandbox; they only move its listener. */
    method Probe(request: Request, sandbox: Sandbox) returns (reply: Reply)
      requires Valid()
      modifies this`areas, this`history
      ensures Valid() && old(history) <= history && !(reply.Answer? && reply.confirmed)
      ensures !old(Bound(Previous(request), request)) ==> history == old(history)
      ensures var own := old(Previous(request));
              && (reply.Refused? || reply == Answer(false))
              && (reply.Answer? <==> old(Bound(Previous(request), request)) && request.protocol == V2 && own.value.sentry.Some?
                                     && own.value.sentry.value.pid == sandbox.pid
                                     && (request.action.NetworkStart? ==> own.value.listener.None?))
      ensures reply.Answer? && request.action.NetworkStart? ==>
                request.binding.area in areas && areas[request.binding.area].listener == Some(request.action.port)
      ensures reply.Answer? && request.action.NetworkStop? ==>
                request.binding.area in areas && areas[request.binding.area].listener.None?
      ensures areas == old(areas) ||
              (old(Bound(Previous(request), request)) && exists l ::
                 areas == old(areas)[request.binding.area := old(areas)[request.binding.area].(listener := l)])
    {
      assert Keyed(root, history[|history| - 1]);
      if !Bound(Previous(request), request) || request.protocol != V2 {
        return Refused;
      }
      var previous := areas[request.binding.area];
      if previous.sentry.None? || previous.sentry.value.pid != sandbox.pid {
        return Refused;
      }
      match request.action {
        case NetworkStart(port) =>
          if previous.listener.Some? {
            return Refused;
          }
          SaveRecord(previous.(listener := Some(port)));
        case NetworkStop =>
          SaveRecord(previous.(listener := None));
        case _ =>
      }
      reply := Answer(false);
    }

    method SaveLimits(request: Request, env: Env) returns (reply: Reply)
      requires Valid() && env.sandbox.Some?
      requires var area, after := request.binding.area, Bind(request, env.sandbox.value);
               area in areas ==> AreaStep(Now(), areas[area], after)
      modifies this`areas, this`history
      ensures Valid() && old(history) <= history && !(reply.Answer? && reply.confirmed)
      ensures areas == if env.limitsMatch then old(areas)[request.binding.area := Bind(request, env.sandbox.value)] else old(areas)
      ensures reply.Answer? <==> env.limitsMatch
      ensures history == if env.limitsMatch then old(history) + [Now()] else old(history)
    {
      if !env.limitsMatch {
        return Refused;
      }
      SaveRecord(Bind(request, env.sandbox.value));
      reply := Answer(false);
    }

    /** Kills a running or paused sandbox, or takes an already stopped one as proof. */
    method Stop(request: Request, env: Env) returns (reply: Reply)
      requires Valid() && Truthful(request, env) && env.sandbox.Some?
      requires MayBind(request)
      modifies this
      ensures reply == if env.sandbox.value.status == Stopped
                          || ((env.sandbox.value.status == Running || env.sandbox.value.status == Paused) && env.killed)
                       then Answer(true) else Refused
      ensures if Writes(request.(action := Terminate), env)
              then reply.Answer? && HeldSince(history, |old(history)|, request.binding.area, request.binding)
              else reply.Refused? && areas == old(areas) && history == old(history)
      ensures cleaned == old(cleaned) && absent == old(absent)
      ensures Valid() && old(history) <= history && old(dead) <= dead
      ensures reply == Refused || (reply == Answer(true) && request.binding.container in dead)
      ensures reply.Answer? ==>
                request.binding.area in areas && areas[request.binding.area].binding == request.binding
                && areas[request.binding.area].terminated
      ensures forall area :: area != request.binding.area ==>
                (area in areas <==> area in old(areas)) && (area in areas ==> areas[area] == old(areas)[area])
    {
      var sandbox := env.sandbox.value;
      var record := Tombstone(Bind(request, sandbox));
      match sandbox.status {
        case Stopped =>
          record := record.(sentry := None);
        case Unknown =>
          return Refused;
        case _ =>
          if !env.killed {
            return Refused;
          }
          Killed(request.binding.container);
      }
      SaveRecord(record);
      var _ := HandoffCleanup(record, env);
      reply := Answer(true);
    }

    /** Retries one cleanup obligation, the next after the cursor. It is dropped only
        when its container is absent from the native inventory or was deleted
        there, and nothing is deleted while the area still runs that container. */
    method RetryCleanup(names: seq<Id>, cursor: nat, native: Native) returns (next: nat, ghost deleted: bool)
      requires Valid() && Sorted(names) && (forall c :: c in names <==> c in cleanup)
      requires native.inventory.Some? ==> forall c :: c in cleanup && c !in native.inventory.value ==> c in absent
      modifies this`cleanup, this`cleaned, this`absent, this`history
      ensures Valid() && old(history) <= history && old(absent) <= absent
      ensures forall c :: c in old(cleanup) && c !in cleanup ==> c in absent
      ensures next == if names == [] then 0 else Pick(names, cursor)
      ensures cleanup == old(cleanup) || (names != [] && cleanup == old(cleanup) - {Pick(names, cursor)})
      ensures cleanup != old(cleanup) <==> names != [] && Cleanable(old(cleanup)[Pick(names, cursor)], areas, native)
      ensures cleanup != old(cleanup) ==>
                native.inventory.Some? && (Pick(names, cursor) !in native.inventory.value || deleted)
      ensures deleted ==>
                && names != [] && var o := old(cleanup)[Pick(names, cursor)];
                   && native.deleted && native.sandbox.Some?
                   && (o.binding.area in areas && areas[o.binding.area].binding.container == o.binding.container ==>
                         areas[o.binding.area].terminated && areas[o.binding.area].binding == o.binding)
                   && (native.sandbox.value.status != Stopped ==>
                         o.sentry.Some? && o.sentry.value.pid == native.sandbox.value.pid && native.sentryGone)
    {
      deleted := false;
      if names == [] {
        return 0, deleted;
      }
      var container := Pick(names, cursor);
      assert Keyed(root, history[|history| - 1]);
      next := container;
      var o := cleanup[container];
      if o.binding.area in areas {
        var current := areas[o.binding.area];
        if current.binding.container == container && (!current.terminated || current.binding != o.binding) {
          return;
        }
      }
      if native.inventory.None? {
        return;
      }
      if container in native.inventory.value {
        if native.sandbox.None? {
          return;
        }
        if native.sandbox.value.status != Stopped {
          if o.sentry.None? || o.sentry.value.pid != native.sandbox.value.pid || !native.sentryGone {
            return;
          }
        }
        if !native.deleted {
          return;
        }
        deleted := true;
        Deleted(container);
      }
      Unlink(container);
    }

    /** A successful native deletion. */
    ghost method Deleted(container: Id)
      requires Valid()
      modifies this`absent
      ensures Valid() && absent == old(absent) + {container}
    {
      absent := absent + {container};
    }

    /** An obligation ever dropped was for a container that is natively absent. */
    lemma DroppedIsAbsent(container: Id, i: nat, j: nat)
      requires Valid() && i <= j < |history|
      requires container in history[i].cleanup && container !in history[j].cleanup
      ensures container in absent
    {
      DroppedIsCleaned(root, history, container, i, j);
      CleanedGrows(root, history, j, |history| - 1);
    }

    /** A replaced tombstone's container is natively absent or its cleanup is still recorded. */
    lemma ReplacedIsOwed(area: int, i: nat, j: nat)
      requires Valid() && i <= j < |history| && area in history[i].areas && history[i].areas[area].terminated
      requires area in history[j].areas
               && history[j].areas[area].binding.container != history[i].areas[area].binding.container
      ensures var c := history[i].areas[area].binding.container; c in cleanup || c in absent
    {
      CleanupConserved(root, history, area, i, j, |history| - 1);
    }

    /** Drops an obligation whose container's native state is gone. */
    method Unlink(container: Id)
      requires Valid() && container in cleanup && container in absent
      modifies this`cleanup, this`cleaned, this`history
      ensures Valid() && old(history) <= history && cleanup == old(cleanup) - {container}
      ensures cleaned == old(cleaned) + {container}
    {
      assert Keyed(root, history[|history| - 1]);
      cleanup := cleanup - {container};
      cleaned := cleaned + {container};
      history := history + [Now()];
    }

    /** Adopts one record of the shared legacy directory; `gone` and `valid` are the host's
        answers about it. A record this guard already has is never touched. A tombstone is
        copied, a live record is moved, and one that a live record supersedes is retired. */
    method MigrateLegacy(record: Record, gone: bool, valid: bool) returns (adopted: bool, file: LegacyFile)
      requires Valid() && record.queuedBy != Some(root)
      requires record.terminated || gone ==> record.binding.container in dead
      modifies this`areas, this`history
      ensures Valid() && old(history) <= history
      ensures adopted <==> record.binding.area !in old(areas) && (record.terminated || gone || valid)
      ensures areas == if !adopted then old(areas)
                       else old(areas)[record.binding.area :=
                              if record.terminated || gone then record.(terminated := true, deadline := None, frozen := false) else record]
      ensures file == if record.terminated || gone then Kept
                      else if record.binding.area in old(areas)
                      then (if old(areas)[record.binding.area] == record then Removed else SetAside)
                      else if valid then Removed else Kept
    {
      adopted, file := false, Kept;
      if record.terminated || gone {
        if record.binding.area !in areas {
          SaveRecord(Tombstone(record));
          adopted := true;
        }
      } else if record.binding.area in areas {
        file := if areas[record.binding.area] == record then Removed else SetAside;
      } else if valid {
        SaveRecord(record);
        adopted, file := true, Removed;
      }
    }
  }

  /** What becomes of a legacy file. */
  datatype LegacyFile = Kept | Removed | SetAside

  /** What the native runtime answers during one cleanup retry: its inventory, the
      validated sandbox, whether the recorded sentry has exited or is a zombie, and
      whether the forced delete succeeded. */
  datatype Native = Native(inventory: Option<set<Id>>, sandbox: Option<Sandbox>, sentryGone: bool, deleted: bool)

  /** Nothing of this container is left or can be left: its area no longer runs it, and the native
      runtime does not list it or has deleted its stopped remains. */
  predicate Cleanable(o: Obligation, areas: map<int, Record>, native: Native) {
    && (o.binding.area in areas && areas[o.binding.area].binding.container == o.binding.container ==>
          areas[o.binding.area].terminated && areas[o.binding.area].binding == o.binding)
    && native.inventory.Some?
    && (o.binding.container in native.inventory.value ==>
          && native.sandbox.Some? && native.deleted
          && (native.sandbox.value.status == Stopped
              || (o.sentry.Some? && o.sentry.value.pid == native.sandbox.value.pid && native.sentryGone)))
  }

  /** A live v1 record is replaced by a request at a greater epoch: these are all the saves,
      and none of them holds a tombstone of it. */
  method LiveRecordReplaced() returns (guard: NodeGuard, before: Record, after: Record)
    ensures guard.Valid() && |guard.history| == 3
    ensures guard.history[0].areas == map[] && guard.history[1].areas == map[0 := before] && guard.history[2].areas == map[0 := after]
    ensures before.protocol == V1 && !before.terminated
    ensures after.binding.container != before.binding.container && before.binding.epoch < after.binding.epoch
    ensures before.binding.container !in guard.dead
  {
    guard := new NodeGuard(0);
    var first := Request(Binding(1, 10, 0, 1, 5), V1, 100, true, Limits);
    var second := Request(Binding(2, 20, 0, 2, 5), V1, 200, true, Limits);
    var sandbox := Sandbox(Running, 77, 7);
    var env := Env(false, Some(sandbox), false, true, sandbox, None, 0, true, true);
    var _ := guard.Handle(first, env);
    before := guard.areas[0];
    var _ := guard.Handle(second, env);
    after := guard.areas[0];
  }
}
