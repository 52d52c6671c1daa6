/** The operation journal (runner/control.py): one writer per Working Area, one Pod
    creation per operation, and a cached activity set, through crashes at any point.

    A run interleaves requests, reconcile threads, the sandboxes themselves and restarts.
    One journal save is one step. What one operation is doing is one `Life`. */
module OperationJournal {
  import opened Common

  type Op = int
  type Area = int

  /** `Shell` also stands for verify operations, which differ only in what they export. */
  datatype Kind = Shell | Python | Serve

  datatype Status = AwaitingFiles | Accepted | Starting | Running | Finishing | Cancelling
                  | Completed | Cancelled | Failed | Uncertain

  /** The Pod that a Python record names for its cell: none yet, its own, or a session's. */
  datatype Binding = Unbound | Own | Session

  /** A durable operation record. `adopted` is the output digest of an acknowledged
      uncertain outcome. */
  datatype Record = Record(area: Area, epoch: nat, kind: Kind, wireDigest: int, digest: int, probe: bool,
                           status: Status, cancelRequested: bool, confirmed: bool, frozen: bool,
                           executed: bool, harvested: bool, acknowledged: bool, adopted: Option<int>, bound: Binding)

  predicate Terminal(status: Status) {
    status.Completed? || status.Cancelled? || status.Failed? || status.Uncertain?
  }

  /** Before the first attempt to create anything. */
  predicate Early(status: Status) {
    status.AwaitingFiles? || status.Accepted?
  }

  /** The writer is proven stopped or frozen. */
  predicate Proof(r: Record) {
    r.confirmed || r.frozen
  }

  /** Work that a restart resumes. */
  predicate Interrupted(r: Record) {
    !Terminal(r.status) && !r.status.AwaitingFiles?
  }

  /** An acknowledgement empties the saved request, and no thread starts without one: this
      work can never be resumed. */
  predicate Wedged(r: Record) {
    r.acknowledged && Interrupted(r)
  }

  predicate Settled(r: Record) {
    Terminal(r.status) && Proof(r)
  }

  /** Terminal with harvested output: what a Pod deletion waits for. */
  predicate Done(r: Record) {
    Terminal(r.status) && r.harvested
  }

  // ---------- requests ----------

  datatype Request = Request(area: Area, epoch: nat, kind: Kind, wireDigest: int, digest: int, files: bool)

  /** A Pod as Kubernetes lists it. An operation has at most one, so a Pod is known by
      the operation that created it. */
  datatype Pod = Pod(operation: Op, terminated: bool)

  datatype Slot = Slot(epoch: nat, operation: Op)

  /** `session` is the operation whose frozen Pod takes the cell of this request. */
  function NewRecord(request: Request, session: Option<Op>, probe: bool): (r: Record) {
    Record(request.area, request.epoch, request.kind, request.wireDigest, request.digest, probe,
           if request.files && session.None? then AwaitingFiles else Accepted,
           false, false, false, false, false, false, None,
           if session.Some? && request.kind.Python? then Session else Unbound)
  }

  /** A Pod of the Area that bars a new writer. */
  predicate Unaccounted(pod: Pod, op: Op, session: Option<Op>) {
    session != Some(pod.operation) && (!pod.terminated || pod.operation == op)
  }

  /** An operation in whose own Pod the cells of a session run: it has had its own there. */
  predicate Hosts(records: map<Op, Record>, host: Op, request: Request) {
    && request.kind.Python? && host in records && records[host].kind.Python? && records[host].area == request.area
    && records[host].bound.Own? && records[host].executed
  }

  predicate AreaFree(records: map<Op, Record>, areas: map<Area, Slot>, request: Request) {
    request.area in areas ==>
      var slot := areas[request.area];
      slot.epoch <= request.epoch && slot.operation in records && Settled(records[slot.operation])
  }

  /** What a new operation must meet; a preview takes no writer slot and meets nothing. */
  predicate Admissible(records: map<Op, Record>, areas: map<Area, Slot>, op: Op, request: Request,
                       session: Option<Op>, pods: seq<Pod>)
  {
    request.kind.Serve?
    || ((forall i :: 0 <= i < |pods| ==> !Unaccounted(pods[i], op, session)) && AreaFree(records, areas, request))
  }

  // ---------- one operation ----------

  /** Where an operation's thread is. `Seen` keeps the status it read, which may be stale. */
  datatype Pc = Fresh | Seen(status: Status) | Missing | Creating | Working | Polling
              | Stopped(frozen: bool) | Proved(frozen: bool) | Ending | Harvesting

  /** The Pod of an operation: absent, with its execution container live, or ended. */
  datatype Sandbox = NoPod | Live | Over

  /** The record, the thread, how many Pod creations were issued, the Pod, whether the
      operation's code may be writing, and whether its Pod has got that code: the cell that
      the node guard keeps for Python, the published request for the others. */
  datatype Life = Life(record: Record, pc: Option<Pc>, creations: nat, sandbox: Sandbox, writing: bool, cell: bool)

  /** What a cancel request read before it writes. */
  datatype Glimpse = Glimpse(op: Op, status: Status, confirmed: bool)

  /** An acknowledgement that has passed its tests and not yet written: whether it found the
      outcome uncertain, and the output that its caller adopts. */
  datatype Ack = Ack(op: Op, uncertain: bool, output: Option<int>)

  datatype Harvest = Saved | Refused | Broken

  /** Requests, and what a start does with each record. */
  datatype Call = Commit | Acknowledge(ack: Ack) | BeginHarvest | EndHarvest(harvest: Harvest)
                | RetireProbe | Recover

  /** A thread on its way to a running sandbox, and a sandbox that ends or is removed by itself. */
  datatype Move = Read | Look | Persist | Create(made: bool) | Bind | Publish | Run | Dispatch | Halt | Remove

  /** How a thread ends. */
  datatype Outcome = StopSeen(frozen: bool) | Finish | Complete(status: Status) | Refuse | Lose | GiveUp
                   | EndPreview(status: Status, confirmed: bool, harvested: bool) | Leave

  datatype Event = ByCancel(glimpse: Glimpse) | ByCall(call: Call) | ByMove(move: Move) | ByOutcome(outcome: Outcome)

  predicate At(l: Life, pc: Pc) {
    l.pc == Some(pc)
  }

  /** A thread that is still inside its `try` and can fail at this point. */
  predicate Busy(l: Life) {
    l.pc.Some? && !l.pc.value.Ending? && !l.pc.value.Harvesting?
  }

  /** The thread finds a Pod for its operation. */
  predicate Reach(l: Life) {
    l.record.bound.Session? || !l.sandbox.NoPod?
  }

  /** The operation's code was never sent, and there is a live Pod to send it to. */
  predicate Waiting(l: Life) {
    !l.cell && (l.record.bound.Session? || l.sandbox.Live?)
  }

  /** What an acknowledgement tests first: the outcome is known, its output is saved, and
      the operation has no thread. */
  predicate Acknowledgeable(l: Life, output: Option<int>) {
    var r := l.record;
    l.pc.None? && (r.status.Completed? || r.status.Cancelled? || r.status.Failed?
                   || (r.status.Uncertain? && r.confirmed && if r.acknowledged then output == r.adopted else r.harvested))
  }

  predicate CallEnabled(l: Life, c: Call) {
    var r := l.record;
    match c
    case Commit => r.status.AwaitingFiles?
    // The second locked section tests neither the status nor the thread again.
    case Acknowledge(_) => true
    case BeginHarvest => l.pc.None? && r.status.Uncertain? && r.confirmed && !r.acknowledged && !r.harvested
    case EndHarvest(_) => At(l, Harvesting)
    case RetireProbe => l.pc.None? && r.probe && r.kind.Shell? && Terminal(r.status) && !Proof(r) && l.sandbox.NoPod? && !l.writing
    // The scan fails on a record that it should resume and that has no request.
    case Recover => !Wedged(r)
  }

  predicate MoveEnabled(l: Life, m: Move) {
    var r := l.record;
    match m
    case Read => At(l, Fresh)
    // No Pod and no right to create one: the thread can only give up.
    case Look => l.pc.Some? && l.pc.value.Seen? && (Reach(l) || (r.bound.Unbound? && l.pc.value.status.Accepted?))
    case Persist => At(l, Missing)
    case Create(_) => At(l, Creating)
    case Bind => At(l, Working) && r.kind.Python?
    case Publish => At(l, Working) && r.kind.Shell?
    case Run => At(l, Working) && (r.kind.Python? || l.cell)
    // The first copy of the code is kept, and it is never sent twice.
    case Dispatch => At(l, Working) && (r.executed || r.kind.Serve?) && (l.cell || Waiting(l))
    case Halt => true
    case Remove => true
  }

  predicate OutcomeEnabled(l: Life, o: Outcome) {
    var r := l.record;
    match o
    // The guard's terminate and freeze stop a Python writer; a shell's end is only observed.
    case StopSeen(frozen) => (At(l, Working) && r.kind.Shell? && l.sandbox.Over? && !l.writing && !frozen) || (At(l, Polling) && r.kind.Python?)
    case Finish => l.pc.Some? && l.pc.value.Stopped?
    // A writer that ended is recorded as cancelled only if a cancel was seen.
    case Complete(status) => l.pc.Some? && l.pc.value.Proved?
                             && (status.Completed? || status.Failed? || (status.Cancelled? && r.cancelRequested))
    case Refuse => l.pc.Some? && l.pc.value.Proved?
    case Lose => Busy(l) && r.kind.Shell? && r.executed && !l.sandbox.Live? && !l.writing
    case GiveUp => Busy(l) && !r.kind.Serve?
    case EndPreview(status, _, _) => Busy(l) && r.kind.Serve? && (status.Failed? || status.Cancelled?)
    case Leave => At(l, Ending)
  }

  predicate Enabled(l: Life, e: Event) {
    match e
    case ByCancel(_) => true
    case ByCall(c) => CallEnabled(l, c)
    case ByMove(m) => MoveEnabled(l, m)
    case ByOutcome(o) => OutcomeEnabled(l, o)
  }

  function Spawned(pc: Option<Pc>): (q: Option<Pc>) {
    if pc.None? then Some(Fresh) else pc
  }

  function Ended(l: Life, r: Record): (m: Life) {
    l.(record := r, pc := Some(Ending))
  }

  /** The branch of a cancel that reopens a record: it read an uncertain outcome without
      a confirmed stop. */
  predicate Reopening(g: Glimpse) {
    g.status.Uncertain? && !g.confirmed
  }

  /** A cancel acts on what it read, on top of what the record says when it writes. */
  function CancelRecord(r: Record, g: Glimpse): (p: Record) {
    if g.status.AwaitingFiles? then r.(status := Cancelled, cancelRequested := true, confirmed := true)
    else if Reopening(g) then r.(status := Cancelling, cancelRequested := true)
    else if !Terminal(g.status) then r.(cancelRequested := true)
    else r
  }

  /** An acknowledged record has no request to start a thread with. */
  function CancelAfter(l: Life, g: Glimpse): (m: Life) {
    l.(record := CancelRecord(l.record, g), pc := if Reopening(g) && !l.record.acknowledged then Spawned(l.pc) else l.pc)
  }

  /** A harvest saves the output of a stopped operation, or finds it refused for good. */
  function HarvestAfter(r: Record, h: Harvest): (p: Record) {
    r.(status := if h.Refused? then Failed else r.status, confirmed := r.confirmed || h.Refused?,
       harvested := r.harvested || !h.Broken?)
  }

  function CallRecord(r: Record, c: Call): (p: Record) {
    match c
    case Commit => r.(status := Accepted)
    case Acknowledge(ack) =>
      r.(acknowledged := true, adopted := if ack.uncertain && !r.acknowledged then ack.output else r.adopted)
    case EndHarvest(h) => HarvestAfter(r, h)
    case RetireProbe => r.(confirmed := true)
    case _ => r
  }

  function CallPc(l: Life, c: Call): (pc: Option<Pc>) {
    match c
    case Commit => Spawned(l.pc)
    case BeginHarvest => Some(Harvesting)
    case EndHarvest(_) => None
    case Recover => if Interrupted(l.record) then Spawned(l.pc) else l.pc
    case _ => l.pc
  }

  function CallAfter(l: Life, c: Call): (m: Life) {
    l.(record := CallRecord(l.record, c), pc := CallPc(l, c))
  }

  function Stilled(sandbox: Sandbox): (s: Sandbox) {
    if sandbox.Live? then Over else sandbox
  }

  function MoveAfter(l: Life, m: Move): (n: Life) {
    var r := l.record;
    match m
    case Read => l.(pc := Some(Seen(r.status)))
    case Look => l.(pc := Some(if Reach(l) then Working else Missing))
    case Persist => l.(record := r.(status := Starting), pc := Some(Creating))
    case Create(made) =>
      // A Pod runs no user code before it gets it.
      l.(creations := l.creations + 1, sandbox := if made then Live else NoPod, pc := Some(Working))
    case Bind => l.(record := r.(bound := if r.bound.Unbound? then Own else r.bound))
    case Publish => l.(record := r.(executed := true))
    case Run => l.(record := r.(executed := true, status := Running))
    case Dispatch =>
      l.(cell := true, writing := l.writing || !l.cell, pc := Some(if r.kind.Python? then Polling else Working))
    case Halt => l.(writing := false, sandbox := Stilled(l.sandbox))
    case Remove => l.(sandbox := NoPod)
  }

  /** The stop proof that a Python operation records: exactly one of frozen and confirmed. */
  function WithProof(r: Record, frozen: bool): (p: Record) {
    if r.kind.Python? then r.(frozen := frozen, confirmed := !frozen) else r.(confirmed := true)
  }

  function OutcomeAfter(l: Life, o: Outcome): (m: Life)
    requires OutcomeEnabled(l, o)
  {
    var r := l.record;
    match o
    case StopSeen(frozen) =>
      l.(writing := false, sandbox := if frozen then l.sandbox else Stilled(l.sandbox), pc := Some(Stopped(frozen)))
    case Finish => l.(record := WithProof(r.(status := Finishing), l.pc.value.frozen), pc := Some(Proved(l.pc.value.frozen)))
    case Complete(status) =>
      Ended(l, (if r.kind.Python? then WithProof(r, l.pc.value.frozen) else r).(status := status, harvested := true))
    case Refuse =>
      Ended(l, r.(status := Failed, confirmed := true, harvested := true, frozen := !r.kind.Python? && r.frozen))
    case Lose => Ended(l, r.(status := Failed, confirmed := true, harvested := true))
    case GiveUp => Ended(l, r.(status := Uncertain))
    case EndPreview(status, confirmed, harvested) =>
      Ended(l, r.(status := status, confirmed := confirmed, harvested := r.harvested || harvested))
    case Leave => l.(pc := None)
  }

  function After(l: Life, e: Event): (m: Life)
    requires Enabled(l, e)
  {
    match e
    case ByCancel(g) => CancelAfter(l, g)
    case ByCall(c) => CallAfter(l, c)
    case ByMove(m) => MoveAfter(l, m)
    case ByOutcome(o) => OutcomeAfter(l, o)
  }

  // ---------- the whole runner ----------

  /** `tracked` are the records saved or scanned since the last restart; `unsettled` is
      the activity cache. Any number of cancels may have read a record, and any number of
      acknowledgements passed their tests, and not yet written. While `starting`, no request
      is served. */
  datatype State = State(ops: map<Op, Life>, areas: map<Area, Slot>, tracked: set<Op>, unsettled: set<Op>,
                         glimpses: set<Glimpse>, acks: set<Ack>, starting: bool)

  datatype Step =
    | Accept(op: Op, request: Request, session: Option<Op>, probe: bool, pods: seq<Pod>)
    | Glance(op: Op) | Vouch(op: Op, output: Option<int>) | Happen(op: Op, event: Event) | Crash | Ready

  function Records(s: State): (records: map<Op, Record>) {
    map op | op in s.ops :: s.ops[op].record
  }

  function Initial(): (s: State) {
    State(map[], map[], {}, {}, {}, {}, false)
  }

  predicate Saves(e: Event) {
    match e
    case ByCancel(g) => g.status.AwaitingFiles? || !Terminal(g.status) || Reopening(g)
    case ByCall(c) => !c.BeginHarvest? && !(c.EndHarvest? && c.harvest.Broken?)
    case ByMove(m) => m.Persist? || m.Bind? || m.Publish? || m.Run?
    case ByOutcome(o) => !o.StopSeen? && !o.Leave?
  }

  /** Requests come after the startup scan; probes are retired and work is resumed in it. */
  predicate InTime(s: State, e: Event) {
    match e
    case ByCancel(_) => !s.starting
    case ByCall(c) => if c.RetireProbe? || c.Recover? then s.starting else c.EndHarvest? || !s.starting
    case _ => true
  }

  /** The Pods that carry the Area's label, previews included, as they are. */
  ghost predicate Lists(s: State, area: Area, pods: seq<Pod>) {
    && (forall op :: op in s.ops && s.ops[op].record.area == area && !s.ops[op].sandbox.NoPod? ==>
          Pod(op, s.ops[op].sandbox.Over?) in pods)
    && (forall pod :: pod in pods ==>
          && pod.operation in s.ops && s.ops[pod.operation].record.area == area && !s.ops[pod.operation].sandbox.NoPod?
          && pod.terminated == s.ops[pod.operation].sandbox.Over?)
  }

  ghost predicate Possible(s: State, step: Step) {
    match step
    case Accept(op, request, session, probe, pods) =>
      && op !in s.ops && (s.starting ==> probe) && Lists(s, request.area, pods)
      && (session.Some? ==> Hosts(Records(s), session.value, request)) && Admissible(Records(s), s.areas, op, request, session, pods)
    case Glance(op) => op in s.ops && !s.starting
    case Vouch(op, output) => op in s.ops && !s.starting && Acknowledgeable(s.ops[op], output)
    case Happen(op, e) => op in s.ops && Enabled(s.ops[op], e) && InTime(s, e)
                       && (e.ByCancel? ==> e.glimpse in s.glimpses && e.glimpse.op == op)
                       && (e.ByCall? && e.call.Acknowledge? ==> e.call.ack in s.acks && e.call.ack.op == op)
    case Crash => true
    case Ready => s.starting && forall op :: op in s.ops ==> op in s.tracked
  }

  /** One save as the cache sees it. */
  function Track(s: State, op: Op): (t: State)
    requires op in s.ops
  {
    s.(tracked := s.tracked + {op},
       unsettled := if Settled(s.ops[op].record) then s.unsettled - {op} else s.unsettled + {op})
  }

  /** A new operation starts at once unless its input must be uploaded first. */
  function NewLife(r: Record): (l: Life) {
    Life(r, if r.status.Accepted? then Some(Fresh) else None, 0, NoPod, false, false)
  }

  function Admitted(s: State, op: Op, request: Request, session: Option<Op>, probe: bool): (t: State) {
    Track(s.(ops := s.ops[op := NewLife(NewRecord(request, session, probe))],
             areas := if request.kind.Serve? then s.areas else s.areas[request.area := Slot(request.epoch, op)]), op)
  }

  function Happened(s: State, op: Op, e: Event): (t: State)
    requires op in s.ops && Enabled(s.ops[op], e)
  {
    var t := s.(ops := s.ops[op := After(s.ops[op], e)]);
    if Saves(e) then Track(t, op) else t
  }

  /** A crash loses the threads, the cache and the requests in flight, and keeps the files. */
  function Crashed(s: State): (t: State) {
    State(map op | op in s.ops :: s.ops[op].(pc := None), s.areas, {}, {}, {}, {}, true)
  }

  ghost function Next(s: State, step: Step): (t: State)
    requires Possible(s, step)
  {
    match step
    case Accept(op, request, session, probe, _) => Admitted(s, op, request, session, probe)
    case Glance(op) => s.(glimpses := s.glimpses + {Glimpse(op, s.ops[op].record.status, s.ops[op].record.confirmed)})
    case Vouch(op, output) => s.(acks := s.acks + {Ack(op, s.ops[op].record.status.Uncertain?, output)})
    case Happen(op, e) => Happened(s, op, e)
    case Crash => Crashed(s)
    case Ready => s.(starting := false)
  }

  ghost predicate IsRun(states: seq<State>, steps: seq<Step>) {
    && |states| == |steps| + 1 && states[0] == Initial()
    && forall i {:trigger steps[i]} :: 0 <= i < |steps| ==>
         Possible(states[i], steps[i]) && states[i + 1] == Next(states[i], steps[i])
  }

  // ---------- what an event does to one record ----------

  /** Identity is fixed, neither a stop proof of a writer nor a requested cancel is ever
      withdrawn, and no record returns to where a Pod might be created. */
  predicate RecordStep(a: Record, b: Record) {
    && a.area == b.area && a.epoch == b.epoch && a.kind == b.kind && a.wireDigest == b.wireDigest && a.digest == b.digest
    && (Proof(a) && !a.kind.Serve? ==> Proof(b))
    && (!Early(a.status) ==> !Early(b.status))
    && (a.executed ==> b.executed) && (a.acknowledged ==> b.acknowledged) && (a.harvested ==> b.harvested)
    && (a.acknowledged ==> b.adopted == a.adopted) && (a.cancelRequested ==> b.cancelRequested)
  }

  // ---------- at most one creation ----------

  predicate Once(l: Life) {
    && l.creations <= 1 && (Early(l.record.status) ==> l.creations == 0) && (l.creations == 0 ==> l.sandbox.NoPod?)
    && (At(l, Seen(Accepted)) || At(l, Missing) || At(l, Creating) ==> l.creations == 0)
    && (At(l, Creating) ==> !Early(l.record.status))
  }

  lemma {:induction false} CancelKeepsRecord(l: Life, g: Glimpse)
    ensures RecordStep(l.record, CancelAfter(l, g).record)
    ensures Once(l) ==> Once(CancelAfter(l, g))
  {
    CancelledRecordStep(l.record, g);
    assert CancelAfter(l, g).record == CancelRecord(l.record, g);
  }

  lemma {:induction false} CancelledRecordStep(r: Record, g: Glimpse)
    ensures RecordStep(r, CancelRecord(r, g))
  {
    if g.status.AwaitingFiles? {
      assert CancelRecord(r, g).confirmed;
    } else if Reopening(g) {
      assert CancelRecord(r, g).status.Cancelling?;
    }
  }

  lemma {:induction false} CallKeepsRecord(l: Life, c: Call)
    requires CallEnabled(l, c)
    ensures RecordStep(l.record, CallAfter(l, c).record)
    ensures Once(l) ==> Once(CallAfter(l, c))
  {
  }

  lemma {:induction false} MoveKeepsRecord(l: Life, m: Move)
    requires MoveEnabled(l, m)
    ensures RecordStep(l.record, MoveAfter(l, m).record)
    ensures Once(l) ==> Once(MoveAfter(l, m))
  {
  }

  lemma {:induction false} OutcomeKeepsRecord(l: Life, o: Outcome)
    requires OutcomeEnabled(l, o)
    ensures RecordStep(l.record, OutcomeAfter(l, o).record)
    ensures Once(l) ==> Once(OutcomeAfter(l, o))
  {
    match o
    case StopSeen(_) =>
    case Finish =>
    case Complete(_) =>
    case Refuse =>
    case Lose =>
    case GiveUp =>
    case EndPreview(_, _, _) =>
    case Leave =>
  }

  lemma {:induction false} EventKeepsRecord(l: Life, e: Event)
    requires Enabled(l, e)
    ensures RecordStep(l.record, After(l, e).record)
    ensures Once(l) ==> Once(After(l, e))
  {
    match e
    case ByCancel(g) => CancelKeepsRecord(l, g);
    case ByCall(c) => CallKeepsRecord(l, c);
    case ByMove(m) => MoveKeepsRecord(l, m);
    case ByOutcome(o) => OutcomeKeepsRecord(l, o);
  }

  // ---------- true stop proofs ----------

  /** The operation is not writing and no thread of it is on its way to a first write. */
  predicate Dormant(l: Life) {
    && !l.writing && !At(l, Seen(Accepted)) && !At(l, Missing) && !At(l, Creating)
    && (Waiting(l) ==> !Busy(l))
  }

  /** A stop proof is true: the operation is dormant, and nothing resumes it. A waiting one
      is kept from running by its terminal status or its emptied request alone. */
  predicate Truthful(l: Life) {
    var r := l.record;
    && (Early(r.status) ==> !Proof(r) && !l.writing && !l.cell && !r.executed)
    && (r.status.AwaitingFiles? ==> l.pc.None?)
    && (Proof(r) && !r.kind.Serve? ==> Dormant(l) && !Early(r.status) && (Waiting(l) ==> Terminal(r.status) || r.acknowledged))
    && (At(l, Seen(Accepted)) || At(l, Missing) || At(l, Creating) ==> !l.cell && !r.bound.Own?)
    && (At(l, Polling) ==> r.kind.Python? && l.cell)
    && (l.pc.Some? && (l.pc.value.Stopped? || l.pc.value.Proved?) ==>
          !l.writing && !r.kind.Serve? && !Waiting(l) && (r.kind.Python? ==> l.cell))
    && (At(l, Harvesting) ==> Proof(r)) && (r.frozen ==> r.kind.Python? && l.cell)
    && (!r.bound.Unbound? ==> r.kind.Python?) && (r.bound.Own? ==> !Early(r.status))
    && (At(l, Working) && Early(r.status) ==> r.bound.Session?)
  }

  /** A cancel that makes a stop proof false. Either it read `awaiting_files` and the
      operation is meanwhile on its way to a first write, or it reopens a record that is
      proven stopped and not acknowledged although its Pod waits for its code. */
  predicate Late(l: Life, g: Glimpse) {
    && !l.record.kind.Serve?
    && ((g.status.AwaitingFiles? && !Dormant(l)) || (Reopening(g) && Proof(l.record) && Waiting(l) && !l.record.acknowledged))
  }

  lemma {:induction false} WithdrawalKeepsTruthful(l: Life, g: Glimpse)
    requires Truthful(l) && g.status.AwaitingFiles? && !Late(l, g)
    ensures Truthful(CancelAfter(l, g))
  {
  }

  lemma {:induction false} ReopeningKeepsTruthful(l: Life, g: Glimpse)
    requires Truthful(l) && Reopening(g) && !Late(l, g)
    ensures Truthful(CancelAfter(l, g))
  {
  }

  lemma {:induction false} CancelKeepsTruthful(l: Life, g: Glimpse)
    requires Truthful(l) && !Late(l, g)
    ensures Truthful(CancelAfter(l, g))
  {
    if g.status.AwaitingFiles? {
      WithdrawalKeepsTruthful(l, g);
    } else if Reopening(g) {
      ReopeningKeepsTruthful(l, g);
    } else {
      assert CancelAfter(l, g) == l.(record := CancelRecord(l.record, g));
    }
  }

  lemma {:induction false} CallKeepsTruthful(l: Life, c: Call)
    requires Truthful(l) && CallEnabled(l, c)
    ensures Truthful(CallAfter(l, c))
  {
  }

  lemma {:induction false} MoveKeepsTruthful(l: Life, m: Move)
    requires Truthful(l) && Once(l) && MoveEnabled(l, m)
    ensures Truthful(MoveAfter(l, m))
  {
  }

  lemma {:induction false} OutcomeKeepsTruthful(l: Life, o: Outcome)
    requires Truthful(l) && OutcomeEnabled(l, o)
    ensures Truthful(OutcomeAfter(l, o))
  {
  }

  lemma {:induction false} EventKeepsTruthful(l: Life, e: Event)
    requires Truthful(l) && Once(l) && Enabled(l, e) && (e.ByCancel? ==> !Late(l, e.glimpse))
    ensures Truthful(After(l, e))
  {
    match e
    case ByCancel(g) => CancelKeepsTruthful(l, g);
    case ByCall(c) => CallKeepsTruthful(l, c);
    case ByMove(m) => MoveKeepsTruthful(l, m);
    case ByOutcome(o) => OutcomeKeepsTruthful(l, o);
  }

  // ---------- what an outcome means ----------

  /** A writer with an outcome is proven stopped. What completed or failed is harvested, and
      what is recorded as cancelled was asked to be. */
  predicate Accounted(l: Life) {
    var r := l.record;
    !r.kind.Serve? ==>
      && (r.status.Completed? || r.status.Failed? || r.status.Cancelled? ==> Proof(r))
      && (r.status.Completed? || r.status.Failed? ==> r.harvested) && (r.status.Cancelled? ==> r.cancelRequested)
      && (l.pc.Some? && l.pc.value.Proved? ==> Proof(r))
  }

  lemma {:induction false} OutcomeKeepsAccounted(l: Life, o: Outcome)
    requires Accounted(l) && OutcomeEnabled(l, o)
    ensures Accounted(OutcomeAfter(l, o))
  {
    match o
    case StopSeen(_) =>
    case Finish =>
    case Complete(_) =>
    case Refuse =>
    case Lose =>
    case GiveUp =>
    case EndPreview(_, _, _) =>
    case Leave =>
  }

  lemma {:induction false} MoveKeepsAccounted(l: Life, m: Move)
    requires Accounted(l) && MoveEnabled(l, m)
    ensures Accounted(MoveAfter(l, m))
  {
  }

  lemma {:induction false} CancelKeepsAccounted(l: Life, g: Glimpse)
    requires Accounted(l)
    ensures Accounted(CancelAfter(l, g))
  {
    if g.status.AwaitingFiles? {
      assert CancelRecord(l.record, g).confirmed;
    } else if Reopening(g) {
      assert CancelRecord(l.record, g).status.Cancelling?;
    }
  }

  lemma {:induction false} CallKeepsAccounted(l: Life, c: Call)
    requires Accounted(l) && CallEnabled(l, c)
    ensures Accounted(CallAfter(l, c))
  {
  }

  lemma {:induction false} EventKeepsAccounted(l: Life, e: Event)
    requires Accounted(l) && Enabled(l, e)
    ensures Accounted(After(l, e))
  {
    match e
    case ByCancel(g) => CancelKeepsAccounted(l, g);
    case ByCall(c) => CallKeepsAccounted(l, c);
    case ByMove(m) => MoveKeepsAccounted(l, m);
    case ByOutcome(o) => OutcomeKeepsAccounted(l, o);
  }

  // ---------- harvested output ----------

  /** A record that is harvested or being harvested is terminal and has no working thread. */
  predicate Steady(l: Life) {
    l.record.harvested || At(l, Harvesting) ==>
      Terminal(l.record.status) && !Busy(l) && (l.record.status.Uncertain? ==> l.record.confirmed)
  }

  /** A cancel that reopens a record which is harvested or being harvested. */
  predicate Reopens(l: Life, g: Glimpse) {
    Reopening(g) && (l.record.harvested || At(l, Harvesting))
  }

  /** A cancel unsettles a harvest exactly if it reopens it, and then the record is no
      longer terminal. */
  lemma {:induction false} ReopensExactly(l: Life, g: Glimpse)
    requires Steady(l)
    ensures Steady(CancelAfter(l, g)) <==> !Reopens(l, g)
    ensures Done(l.record) ==> (Done(CancelAfter(l, g).record) <==> !Reopens(l, g))
  {
  }

  lemma {:induction false} CallKeepsSteady(l: Life, c: Call)
    requires Steady(l) && CallEnabled(l, c)
    ensures Steady(CallAfter(l, c))
  {
  }

  lemma {:induction false} MoveKeepsSteady(l: Life, m: Move)
    requires Steady(l) && MoveEnabled(l, m)
    ensures Steady(MoveAfter(l, m))
  {
  }

  lemma {:induction false} OutcomeKeepsSteady(l: Life, o: Outcome)
    requires Steady(l) && OutcomeEnabled(l, o)
    ensures Steady(OutcomeAfter(l, o))
  {
  }

  lemma {:induction false} EventKeepsSteady(l: Life, e: Event)
    requires Steady(l) && Enabled(l, e) && (e.ByCancel? ==> !Reopens(l, e.glimpse))
    ensures Steady(After(l, e))
  {
    match e
    case ByCancel(g) => ReopensExactly(l, g);
    case ByCall(c) => CallKeepsSteady(l, c);
    case ByMove(m) => MoveKeepsSteady(l, m);
    case ByOutcome(o) => OutcomeKeepsSteady(l, o);
  }

  /** A cancel that still finds what it read is neither late nor reopens a harvest. */
  lemma {:induction false} TimelyCancel(l: Life, g: Glimpse)
    requires Truthful(l) && Steady(l) && g.status == l.record.status && g.confirmed == l.record.confirmed
    ensures !Late(l, g) && !Reopens(l, g)
  {
  }

  // ---------- what every step keeps ----------

  predicate Holds(s: State, op: Op)
    requires op in s.ops
  {
    var area := s.ops[op].record.area;
    area in s.areas && s.areas[area].operation == op
  }

  /** One writer per Area: whoever does not hold the Area is proven stopped. */
  ghost predicate Fenced(s: State) {
    && (forall op :: op in s.ops && !s.ops[op].record.kind.Serve? ==> Holds(s, op) || Proof(s.ops[op].record))
    && (forall area :: area in s.areas ==>
          var slot := s.areas[area];
          && slot.operation in s.ops && s.ops[slot.operation].record.area == area
          && s.ops[slot.operation].record.epoch == slot.epoch && !s.ops[slot.operation].record.kind.Serve?)
  }

  ghost predicate AllOnce(s: State) {
    forall op :: op in s.ops ==> Once(s.ops[op])
  }

  /** The cache is what the tracked files say, and all are tracked once requests are served. */
  ghost predicate Cached(s: State) {
    && (forall op :: op in s.tracked ==> op in s.ops) && (!s.starting ==> forall op :: op in s.ops ==> op in s.tracked)
    && (forall op :: op in s.unsettled <==> op in s.tracked && op in s.ops && !Settled(s.ops[op].record))
  }

  lemma FencedReplaced(s: State, op: Op, m: Life)
    requires Fenced(s) && op in s.ops && RecordStep(s.ops[op].record, m.record)
    ensures Fenced(s.(ops := s.ops[op := m]))
  {
  }

  lemma FencedAdmitted(s: State, op: Op, request: Request, session: Option<Op>, probe: bool, pods: seq<Pod>)
    requires Fenced(s) && op !in s.ops && Admissible(Records(s), s.areas, op, request, session, pods)
    ensures Fenced(Admitted(s, op, request, session, probe))
  {
    var t := Admitted(s, op, request, session, probe);
    forall other | other in t.ops && !t.ops[other].record.kind.Serve?
      ensures Holds(t, other) || Proof(t.ops[other].record)
    {
      if other != op && Holds(s, other) && s.ops[other].record.area == request.area && !request.kind.Serve? {
        assert Settled(Records(s)[other]);
      }
    }
  }

  lemma TrackCaches(s: State, op: Op, m: Life)
    requires Cached(s)
    ensures Cached(Track(s.(ops := s.ops[op := m]), op))
  {
  }

  lemma {:induction false} UntrackedEvent(l: Life, e: Event)
    requires Enabled(l, e) && !Saves(e)
    ensures After(l, e).record == l.record
  {
  }

  lemma HappenedCached(s: State, op: Op, e: Event)
    requires Cached(s) && op in s.ops && Enabled(s.ops[op], e)
    ensures Cached(Happened(s, op, e))
  {
    var m := After(s.ops[op], e);
    if Saves(e) {
      TrackCaches(s, op, m);
    } else {
      UntrackedEvent(s.ops[op], e);
    }
  }

  lemma AcceptKeeps(s: State, step: Step)
    requires Fenced(s) && AllOnce(s) && Cached(s) && step.Accept? && Possible(s, step)
    ensures var t := Next(s, step); Fenced(t) && AllOnce(t) && Cached(t)
  {
    FencedAdmitted(s, step.op, step.request, step.session, step.probe, step.pods);
    TrackCaches(s, step.op, NewLife(NewRecord(step.request, step.session, step.probe)));
  }

  lemma HappenKeeps(s: State, op: Op, e: Event)
    requires Fenced(s) && AllOnce(s) && Cached(s) && op in s.ops && Enabled(s.ops[op], e)
    ensures var t := Happened(s, op, e); Fenced(t) && AllOnce(t) && Cached(t)
  {
    EventKeepsRecord(s.ops[op], e);
    FencedReplaced(s, op, After(s.ops[op], e));
    HappenedCached(s, op, e);
  }

  lemma {:induction false} StepKeeps(s: State, step: Step)
    requires Fenced(s) && AllOnce(s) && Cached(s) && Possible(s, step)
    ensures var t := Next(s, step); Fenced(t) && AllOnce(t) && Cached(t)
  {
    match step
    case Accept(_, _, _, _, _) => AcceptKeeps(s, step);
    case Happen(op, e) => HappenKeeps(s, op, e);
    case _ =>
  }

  // ---------- every run ----------

  lemma {:induction false} RunKeeps(states: seq<State>, steps: seq<Step>, n: nat)
    requires IsRun(states, steps) && n < |states|
    ensures Fenced(states[n]) && AllOnce(states[n]) && Cached(states[n])
  {
    if n > 0 {
      RunKeeps(states, steps, n - 1);
      StepKeeps(states[n - 1], steps[n - 1]);
    }
  }

  /** How often a run asks for the creation of one operation's Pod. */
  function Creations(steps: seq<Step>, op: Op): (n: nat)
    decreases |steps|
  {
    if steps == [] then 0
    else Creations(steps[..|steps| - 1], op) + if Creates(steps[|steps| - 1], op) then 1 else 0
  }

  predicate Creates(step: Step, op: Op) {
    step.Happen? && step.op == op && step.event.ByMove? && step.event.move.Create?
  }

  lemma CreationCounted(s: State, step: Step, op: Op)
    requires Possible(s, step)
    ensures var t := Next(s, step);
            (if op in t.ops then t.ops[op].creations else 0)
            == (if op in s.ops then s.ops[op].creations else 0) + if Creates(step, op) then 1 else 0
  {
    if step.Happen? && step.op == op {
      CreationCountedBy(s.ops[op], step.event);
    }
  }

  lemma {:induction false} CreationCountedBy(l: Life, e: Event)
    requires Enabled(l, e)
    ensures After(l, e).creations == l.creations + if e.ByMove? && e.move.Create? then 1 else 0
  {
  }

  lemma {:induction false} CountMatches(states: seq<State>, steps: seq<Step>, n: nat, op: Op)
    requires IsRun(states, steps) && n <= |steps|
    ensures Creations(steps[..n], op) == if op in states[n].ops then states[n].ops[op].creations else 0
  {
    if n > 0 {
      CountMatches(states, steps, n - 1, op);
      assert steps[..n][..n - 1] == steps[..n - 1];
      CreationCounted(states[n - 1], steps[n - 1], op);
    }
  }

  /** No run, whatever crashes and restarts it contains and however its requests
      interleave, creates an operation's Pod twice. */
  lemma RunCreatesOnce(states: seq<State>, steps: seq<Step>, op: Op)
    requires IsRun(states, steps)
    ensures Creations(steps, op) <= 1
  {
    CountMatches(states, steps, |steps|, op);
    RunKeeps(states, steps, |steps|);
    assert steps[..|steps|] == steps;
  }

  lemma RecordsStep(s: State, step: Step, op: Op)
    requires Possible(s, step) && op in s.ops
    ensures op in Next(s, step).ops && RecordStep(s.ops[op].record, Next(s, step).ops[op].record)
  {
    if step.Happen? && step.op == op {
      EventKeepsRecord(s.ops[op], step.event);
    }
  }

  /** Between any two moments of any run a record keeps its identity and a writer's stop
      proof, and never goes back to where its Pod might be created. */
  lemma {:induction false} ProofStays(states: seq<State>, steps: seq<Step>, i: nat, j: nat, op: Op)
    requires IsRun(states, steps) && i <= j < |states| && op in states[i].ops
    ensures op in states[j].ops && RecordStep(states[i].ops[op].record, states[j].ops[op].record)
    decreases j
  {
    if i < j {
      ProofStays(states, steps, i, j - 1, op);
      RecordsStep(states[j - 1], steps[j - 1], op);
    }
  }

  /** A cancel that read unfinished work, or an uncertain outcome without a confirmed stop, is
      requested in every later state, whatever comes in between. */
  lemma CancelIsHeard(states: seq<State>, steps: seq<Step>, n: nat, m: nat)
    requires IsRun(states, steps) && n < m < |states| && steps[n].Happen? && steps[n].event.ByCancel?
    requires var g := steps[n].event.glimpse;
             !g.status.Completed? && !g.status.Cancelled? && !g.status.Failed? && (g.status.Uncertain? ==> !g.confirmed)
    ensures steps[n].op in states[m].ops && states[m].ops[steps[n].op].record.cancelRequested
  {
    assert Possible(states[n], steps[n]) && states[n + 1] == Next(states[n], steps[n]);
    ProofStays(states, steps, n + 1, m, steps[n].op);
  }

  /** An accepted operation has the identity and the digests of its request for ever. It
      waits for files exactly if it brings some and joins no session, and is started otherwise,
      and a writer holds its Area at once. */
  lemma AcceptedAsAsked(states: seq<State>, steps: seq<Step>, n: nat, m: nat)
    requires IsRun(states, steps) && n < m < |states| && steps[n].Accept?
    ensures var op, request := steps[n].op, steps[n].request;
            && op !in states[n].ops && op in states[n + 1].ops && op in states[m].ops
            && var r := states[m].ops[op].record;
               && r.area == request.area && r.epoch == request.epoch && r.kind == request.kind
               && r.wireDigest == request.wireDigest && r.digest == request.digest
    ensures var op, request, l := steps[n].op, steps[n].request, states[n + 1].ops[steps[n].op];
            && (l.record.status.AwaitingFiles? <==> request.files && steps[n].session.None?)
            && (l.record.status.Accepted? <==> l.pc.Some?) && (l.record.status.AwaitingFiles? <==> l.pc.None?)
            && !l.record.cancelRequested && !Proof(l.record) && !l.record.harvested && !l.record.acknowledged
            && (!request.kind.Serve? ==> Holds(states[n + 1], op))
  {
    assert Possible(states[n], steps[n]) && states[n + 1] == Next(states[n], steps[n]);
    ProofStays(states, steps, n + 1, m, steps[n].op);
  }

  /** The stop that a thread has seen is the one recorded. */
  predicate AsSeen(r: Record, frozen: bool) {
    if r.kind.Python? then r.frozen == frozen && r.confirmed == !frozen else r.confirmed
  }

  lemma {:induction false} FinishRecords(l: Life)
    requires OutcomeEnabled(l, Finish)
    ensures var r := OutcomeAfter(l, Finish).record; r.status.Finishing? && AsSeen(r, l.pc.value.frozen)
  {
  }

  lemma {:induction false} CompleteRecords(l: Life, status: Status)
    requires Accounted(l) && OutcomeEnabled(l, Complete(status))
    ensures var r := OutcomeAfter(l, Complete(status)).record;
            r.status == status && r.harvested && (r.kind.Python? ==> AsSeen(r, l.pc.value.frozen))
  {
  }

  lemma {:induction false} FailureRecords(l: Life, o: Outcome)
    requires OutcomeEnabled(l, o) && (o.Refuse? || o.Lose?)
    ensures var r := OutcomeAfter(l, o).record;
            r.status.Failed? && r.confirmed && r.harvested && (o.Refuse? && r.kind.Python? ==> !r.frozen)
  {
  }

  lemma {:induction false} PreviewRecords(l: Life, status: Status, confirmed: bool, harvested: bool)
    requires OutcomeEnabled(l, EndPreview(status, confirmed, harvested))
    ensures var r := OutcomeAfter(l, EndPreview(status, confirmed, harvested)).record;
            r.status == status && r.confirmed == confirmed && (r.harvested <==> l.record.harvested || harvested)
  {
  }

  /** What the record says after this outcome of a thread that stood at `pc`. */
  predicate Recorded(before: Record, pc: Pc, o: Outcome, r: Record) {
    match o
    case Finish => r.status.Finishing? && pc.Stopped? && AsSeen(r, pc.frozen)
    case Complete(status) => r.status == status && r.harvested && pc.Proved? && (r.kind.Python? ==> AsSeen(r, pc.frozen))
    case Refuse => r.status.Failed? && r.confirmed && r.harvested && (r.kind.Python? ==> !r.frozen)
    case Lose => r.status.Failed? && r.confirmed && r.harvested
    case GiveUp => r == before.(status := Uncertain)
    case EndPreview(status, confirmed, harvested) =>
      r.status == status && r.confirmed == confirmed && (r.harvested <==> before.harvested || harvested)
    case _ => r == before
  }

  /** What a thread saves when its work ends: a Python writer is recorded as frozen or as
      confirmed, whichever was seen, any other as confirmed; then the outcome with its output. A
      thread that gives up withdraws nothing, and leaves the outcome uncertain. */
  lemma EndsAsSeen(states: seq<State>, steps: seq<Step>, n: nat, op: Op, o: Outcome)
    requires IsRun(states, steps) && n < |steps| && steps[n] == Happen(op, ByOutcome(o))
    ensures op in states[n].ops && op in states[n + 1].ops && states[n].ops[op].pc.Some?
    ensures Recorded(states[n].ops[op].record, states[n].ops[op].pc.value, o, states[n + 1].ops[op].record)
  {
    assert Possible(states[n], steps[n]) && states[n + 1] == Next(states[n], steps[n]);
    RunIsAccounted(states, steps, n, op);
    var l := states[n].ops[op];
    assert states[n + 1].ops[op] == OutcomeAfter(l, o);
    match o
    case Finish => FinishRecords(l);
    case Complete(status) => CompleteRecords(l, status);
    case EndPreview(status, confirmed, harvested) => PreviewRecords(l, status, confirmed, harvested);
    case StopSeen(_) =>
    case GiveUp =>
    case Leave =>
    case _ => FailureRecords(l, o);
  }

  /** An admission probe that a start retires is recorded as stopped from then on. */
  lemma ProbesAreRetired(states: seq<State>, steps: seq<Step>, n: nat, m: nat, op: Op)
    requires IsRun(states, steps) && n < m < |states| && steps[n] == Happen(op, ByCall(RetireProbe))
    ensures op in states[m].ops && Proof(states[m].ops[op].record) && states[n].starting && Terminal(states[n + 1].ops[op].record.status)
  {
    assert Possible(states[n], steps[n]) && states[n + 1] == Next(states[n], steps[n]);
    ProofStays(states, steps, n + 1, m, op);
  }

  lemma {:induction false} RunIsAccounted(states: seq<State>, steps: seq<Step>, n: nat, op: Op)
    requires IsRun(states, steps) && n < |states| && op in states[n].ops
    ensures Accounted(states[n].ops[op])
  {
    var s, step := states[n - 1], steps[n - 1];
    assert Possible(s, step) && states[n] == Next(s, step);
    if op in s.ops {
      RunIsAccounted(states, steps, n - 1, op);
      if step.Happen? && step.op == op {
        EventKeepsAccounted(s.ops[op], step.event);
      }
    }
  }

  /** In every run a writer that is recorded as completed, failed or cancelled is proven
      stopped; what completed or failed is harvested; what is cancelled was asked to be. */
  lemma OutcomesAreAccounted(states: seq<State>, steps: seq<Step>, n: nat, op: Op)
    requires IsRun(states, steps) && n < |states| && op in states[n].ops && !states[n].ops[op].record.kind.Serve?
    ensures var r := states[n].ops[op].record;
            && (r.status.Completed? || r.status.Failed? || r.status.Cancelled? ==> r.confirmed || r.frozen)
            && (r.status.Completed? || r.status.Failed? ==> r.harvested)
            && (r.status.Cancelled? ==> r.cancelRequested)
  {
    RunIsAccounted(states, steps, n, op);
  }

  /** The epoch of an Area's holder never decreases. */
  lemma {:induction false} EpochsGrow(states: seq<State>, steps: seq<Step>, i: nat, j: nat, area: Area)
    requires IsRun(states, steps) && i <= j < |states| && area in states[i].areas
    ensures area in states[j].areas && states[i].areas[area].epoch <= states[j].areas[area].epoch
    decreases j
  {
    if i < j {
      EpochsGrow(states, steps, i, j - 1, area);
      var step := steps[j - 1];
      assert step.Accept? && !step.request.kind.Serve? ==> AreaFree(Records(states[j - 1]), states[j - 1].areas, step.request);
    }
  }

  /** Whenever requests are served, the activity cache is exactly what reading the whole
      journal would give. */
  lemma ActivityIsFresh(states: seq<State>, steps: seq<Step>, n: nat)
    requires IsRun(states, steps) && n < |states| && !states[n].starting
    ensures states[n].unsettled == set op | op in states[n].ops && !Settled(states[n].ops[op].record)
  {
    RunKeeps(states, steps, n);
    var s := states[n];
    assert forall op :: op in s.unsettled <==> op in s.ops && !Settled(s.ops[op].record);
  }

  /** While a writer is accepted no Pod of its Area is live, but for the one of its own
      session: a running preview holds the next writer up. */
  lemma PreviewHoldsUp(states: seq<State>, steps: seq<Step>, n: nat, op: Op)
    requires IsRun(states, steps) && n < |steps| && steps[n].Accept? && !steps[n].request.kind.Serve?
    requires op in states[n].ops && states[n].ops[op].record.area == steps[n].request.area
    requires states[n].ops[op].sandbox.Live?
    ensures steps[n].session == Some(op) && !states[n].ops[op].record.kind.Serve?
  {
    var step := steps[n];
    assert Pod(op, false) in step.pods;
    var i :| 0 <= i < |step.pods| && step.pods[i] == Pod(op, false);
    assert !Unaccounted(step.pods[i], step.op, step.session);
  }

  /** Nothing stands against the request but, perhaps, the Pod of `preview`. */
  ghost predicate OtherwiseFree(s: State, op: Op, request: Request, session: Option<Op>, pods: seq<Pod>, preview: Op) {
    && op !in s.ops && !s.starting && !request.kind.Serve? && Lists(s, request.area, pods)
    && (session.Some? ==> Hosts(Records(s), session.value, request)) && AreaFree(Records(s), s.areas, request)
    && forall i :: 0 <= i < |pods| && pods[i].operation != preview ==> !Unaccounted(pods[i], op, session)
  }

  /** A preview takes no writer slot, and yet it bars a writer of its Area that nothing else
      bars, exactly as long as its own Pod is live. */
  lemma PreviewBarsExactly(s: State, op: Op, request: Request, session: Option<Op>, probe: bool, pods: seq<Pod>, preview: Op)
    requires OtherwiseFree(s, op, request, session, pods, preview)
    requires preview in s.ops && s.ops[preview].record.kind.Serve? && s.ops[preview].record.area == request.area
    ensures Possible(s, Accept(op, request, session, probe, pods)) <==> !s.ops[preview].sandbox.Live?
  {
    if s.ops[preview].sandbox.Live? {
      assert Pod(preview, false) in pods;
      var i :| 0 <= i < |pods| && pods[i] == Pod(preview, false);
      assert Unaccounted(pods[i], op, session);
    } else {
      forall i | 0 <= i < |pods| ensures !Unaccounted(pods[i], op, session) {
        assert pods[i] in pods;
      }
    }
  }

  // ---------- runs without late cancels ----------

  ghost predicate AllTruthful(s: State) {
    forall op :: op in s.ops ==> Truthful(s.ops[op])
  }

  ghost predicate AllSteady(s: State) {
    forall op :: op in s.ops ==> Steady(s.ops[op])
  }

  predicate LateStep(s: State, step: Step) {
    step.Happen? && step.op in s.ops && step.event.ByCancel? && Late(s.ops[step.op], step.event.glimpse)
  }

  predicate ReopeningStep(s: State, step: Step) {
    step.Happen? && step.op in s.ops && step.event.ByCancel? && Reopens(s.ops[step.op], step.event.glimpse)
  }

  ghost predicate SafeRun(states: seq<State>, steps: seq<Step>) {
    IsRun(states, steps) && forall i {:trigger steps[i]} :: 0 <= i < |steps| ==> !LateStep(states[i], steps[i])
  }

  ghost predicate SteadyRun(states: seq<State>, steps: seq<Step>) {
    IsRun(states, steps) && forall i {:trigger steps[i]} :: 0 <= i < |steps| ==> !ReopeningStep(states[i], steps[i])
  }

  lemma {:induction false} CrashKeepsLife(l: Life)
    ensures Truthful(l) ==> Truthful(l.(pc := None))
    ensures Steady(l) ==> Steady(l.(pc := None))
  {
  }

  lemma {:induction false} StepKeepsTruthful(s: State, step: Step)
    requires AllTruthful(s) && AllOnce(s) && Possible(s, step) && !LateStep(s, step)
    ensures AllTruthful(Next(s, step))
  {
    match step
    case Happen(op, e) => EventKeepsTruthful(s.ops[op], e);
    case Crash =>
      forall op | op in s.ops ensures Truthful(s.ops[op].(pc := None)) {
        CrashKeepsLife(s.ops[op]);
      }
    case _ =>
  }

  lemma {:induction false} StepKeepsSteady(s: State, step: Step)
    requires AllSteady(s) && Possible(s, step) && !ReopeningStep(s, step)
    ensures AllSteady(Next(s, step))
  {
    match step
    case Happen(op, e) => EventKeepsSteady(s.ops[op], e);
    case Crash =>
      forall op | op in s.ops ensures Steady(s.ops[op].(pc := None)) {
        CrashKeepsLife(s.ops[op]);
      }
    case _ =>
  }

  lemma {:induction false} RunIsTruthful(states: seq<State>, steps: seq<Step>, n: nat)
    requires SafeRun(states, steps) && n < |states|
    ensures AllTruthful(states[n])
  {
    if n > 0 {
      RunIsTruthful(states, steps, n - 1);
      RunKeeps(states, steps, n - 1);
      StepKeepsTruthful(states[n - 1], steps[n - 1]);
    }
  }

  lemma {:induction false} RunIsSteady(states: seq<State>, steps: seq<Step>, n: nat)
    requires SteadyRun(states, steps) && n < |states|
    ensures AllSteady(states[n])
  {
    if n > 0 {
      RunIsSteady(states, steps, n - 1);
      StepKeepsSteady(states[n - 1], steps[n - 1]);
    }
  }

  /** At no moment of a run without late cancels do two operations write to one Area, and
      the one that may write is the one the Area file names. Previews take no slot and
      are not counted. */
  lemma OneWriter(states: seq<State>, steps: seq<Step>, n: nat, op: Op, other: Op)
    requires SafeRun(states, steps) && n < |states| && op in states[n].ops && other in states[n].ops
    requires var a, b := states[n].ops[op], states[n].ops[other];
             && a.writing && b.writing && !a.record.kind.Serve? && !b.record.kind.Serve?
             && a.record.area == b.record.area
    ensures op == other && Holds(states[n], op)
  {
    RunKeeps(states, steps, n);
    RunIsTruthful(states, steps, n);
    assert Truthful(states[n].ops[op]) && Truthful(states[n].ops[other]);
  }

  /** Once an operation is recorded as stopped, it never writes again. */
  lemma StoppedForGood(states: seq<State>, steps: seq<Step>, i: nat, j: nat, op: Op)
    requires SafeRun(states, steps) && i <= j < |states| && op in states[i].ops
    requires Proof(states[i].ops[op].record) && !states[i].ops[op].record.kind.Serve?
    ensures op in states[j].ops && !states[j].ops[op].writing
  {
    ProofStays(states, steps, i, j, op);
    RunIsTruthful(states, steps, j);
    assert Truthful(states[j].ops[op]);
  }

  /** An operation that is terminal with harvested output stays so, unless a cancel
      reopens it. */
  lemma HarvestedForEver(states: seq<State>, steps: seq<Step>, i: nat, j: nat, op: Op)
    requires SteadyRun(states, steps) && i <= j < |states| && op in states[i].ops && Done(states[i].ops[op].record)
    ensures op in states[j].ops && Done(states[j].ops[op].record)
  {
    ProofStays(states, steps, i, j, op);
    RunIsSteady(states, steps, j);
    assert Steady(states[j].ops[op]);
  }
}
