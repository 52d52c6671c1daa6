/** The Runner's request handlers and startup scan (runner/control.py) as they change the
    journal, the Area files, the set of active operations and the activity cache.
    Each handler is one or two steps of the machine in OperationJournal, so what holds
    of every run of the machine holds of every sequence of handlers. */
module RequestHandlers {
  import opened Common
  import opened OperationJournal

  ghost predicate Kept(s: State) {
    Fenced(s) && AllOnce(s) && Cached(s) && AllTruthful(s) && AllSteady(s)
  }

  lemma StepKeepsAll(s: State, step: Step)
    requires Kept(s) && Possible(s, step) && !LateStep(s, step) && !ReopeningStep(s, step)
    ensures Kept(Next(s, step))
  {
    StepKeeps(s, step);
    StepKeepsTruthful(s, step);
    StepKeepsSteady(s, step);
  }

  /** The operations that have a thread. */
  function Threads(s: State): (active: set<Op>) {
    set op | op in s.ops && s.ops[op].pc.Some?
  }

  lemma RecordsReplaced(s: State, op: Op, m: Life)
    ensures Records(s.(ops := s.ops[op := m])) == Records(s)[op := m.record]
    ensures Threads(s.(ops := s.ops[op := m])) == if m.pc.Some? then Threads(s) + {op} else Threads(s) - {op}
  {
  }

  /** The operations among these that a restart resumes. */
  function Resumed(journal: map<Op, Record>, ops: set<Op>): (active: set<Op>) {
    set op | op in ops && op in journal && Interrupted(journal[op])
  }

  lemma ResumedOneMore(journal: map<Op, Record>, left: set<Op>, op: Op)
    requires op in left && left <= journal.Keys
    ensures journal.Keys - (left - {op}) == journal.Keys - left + {op}
    ensures Resumed(journal, journal.Keys - (left - {op}))
            == Resumed(journal, journal.Keys - left) + if Interrupted(journal[op]) then {op} else {}
  {
  }

  /** What a cancel leaves of a record: one that waited for files ends, an uncertain one
      without a confirmed stop is reopened, any other unfinished one is only asked to stop,
      and an outcome stays as it is. */
  predicate Asked(r: Record, after: Record) {
    if r.status.AwaitingFiles? then after == r.(status := Cancelled, cancelRequested := true, confirmed := true)
    else if r.status.Uncertain? then
      if r.confirmed then after == r else after == r.(status := Cancelling, cancelRequested := true)
    else if r.status.Completed? || r.status.Cancelled? || r.status.Failed? then after == r
    else after == r.(cancelRequested := true)
  }

  class Runner {
    var journal: map<Op, Record>
    var areas: map<Area, Slot>
    var active: set<Op>
    var unsettled: set<Op>
    ghost var state: State

    ghost predicate Valid()
      reads this
    {
      && Kept(state) && journal == Records(state) && areas == state.areas
      && active == Threads(state) && unsettled == state.unsettled
    }

    constructor ()
      ensures Valid() && state == Initial()
    {
      journal, areas, active, unsettled := map[], map[], {}, {};
      state := Initial();
    }

    /** A save is tracked by the activity cache at once. */
    method Save(op: Op, record: Record)
      modifies this`journal, this`unsettled
      ensures journal == old(journal)[op := record]
      ensures unsettled == if Settled(record) then old(unsettled) - {op} else old(unsettled) + {op}
    {
      journal := journal[op := record];
      if Settled(record) {
        unsettled := unsettled - {op};
      } else {
        unsettled := unsettled + {op};
      }
    }

    /** An event of one operation, as the fields show it. */
    ghost method Happens(op: Op, e: Event)
      requires Kept(state) && Possible(state, Happen(op, e))
      requires !LateStep(state, Happen(op, e)) && !ReopeningStep(state, Happen(op, e))
      modifies this`state
      ensures state == Next(old(state), Happen(op, e)) && Kept(state)
      ensures Records(state) == Records(old(state))[op := After(old(state).ops[op], e).record]
      ensures Threads(state) == if After(old(state).ops[op], e).pc.Some? then Threads(old(state)) + {op}
                                else Threads(old(state)) - {op}
    {
      StepKeepsAll(state, Happen(op, e));
      RecordsReplaced(state, op, After(state.ops[op], e));
      state := Next(state, Happen(op, e));
    }

    /** Saves what an event makes of a record and starts its thread if the event does. */
    method Put(op: Op, record: Record, start: bool, ghost e: Event)
      requires Valid() && op in journal && Possible(state, Happen(op, e)) && Saves(e)
      requires !LateStep(state, Happen(op, e)) && !ReopeningStep(state, Happen(op, e))
      requires After(state.ops[op], e).record == record
      requires After(state.ops[op], e).pc.Some? <==> start || op in active
      modifies this
      ensures Valid() && state == Next(old(state), Happen(op, e)) && journal == old(journal)[op := record]
      ensures active == if start then old(active) + {op} else old(active)
      ensures areas == old(areas)
    {
      Save(op, record);
      if start {
        active := active + {op};
      }
      Happens(op, e);
    }

    method CommitInputs(op: Op, complete: bool) returns (out: Result<Record>)
      requires Valid() && !state.starting
      modifies this
      ensures Valid()
      ensures out.Err? <==> op !in old(journal) || (old(journal)[op].status.AwaitingFiles? && !complete)
      ensures state == if op in old(journal) && old(journal)[op].status.AwaitingFiles? && complete
                       then Next(old(state), Happen(op, ByCall(Commit))) else old(state)
      ensures if out.Ok? && old(journal)[op].status.AwaitingFiles?
              then journal == old(journal)[op := old(journal)[op].(status := Accepted)] && active == old(active) + {op}
              else journal == old(journal) && active == old(active)
      ensures out.Ok? ==> out.value == journal[op]
    {
      if op !in journal {
        return Err("operation unavailable");
      }
      var record := journal[op];
      if !record.status.AwaitingFiles? {
        return Ok(record);
      }
      if !complete {
        return Err("incomplete input");
      }
      record := record.(status := Accepted);
      Put(op, record, true, ByCall(Commit));
      out := Ok(record);
    }

    /** A cancel whose read and write nothing comes between is neither late nor reopens a
        harvest. One that reopens an acknowledged record saves it and then fails, because
        there is no request to start a thread with. */
    method Cancel(op: Op) returns (out: Result<Record>)
      requires Valid() && !state.starting
      modifies this
      ensures Valid() && (op !in old(journal) ==> out.Err? && state == old(state))
      ensures op in old(journal) ==>
                var r := old(journal)[op];
                && (out.Err? <==> r.acknowledged && r.status.Uncertain? && !r.confirmed)
                && op in journal && journal == old(journal)[op := journal[op]] && Asked(r, journal[op])
                && active == (if r.status.Uncertain? && !r.confirmed && !r.acknowledged then old(active) + {op} else old(active))
                && (out.Ok? ==> out.value == journal[op])
      ensures op in old(journal) ==>
                var g := Glimpse(op, old(journal)[op].status, old(journal)[op].confirmed);
                var seen := Next(old(state), Glance(op));
                && Possible(seen, Happen(op, ByCancel(g))) && state == Next(seen, Happen(op, ByCancel(g)))
                && !LateStep(seen, Happen(op, ByCancel(g))) && !ReopeningStep(seen, Happen(op, ByCancel(g)))
    {
      if op !in journal {
        return Err("operation unavailable");
      }
      ghost var g := Glimpse(op, journal[op].status, journal[op].confirmed);
      StepKeepsAll(state, Glance(op));
      state := Next(state, Glance(op));
      TimelyCancel(state.ops[op], g);
      out := WriteCancel(op, g);
    }

    method WriteCancel(op: Op, ghost g: Glimpse) returns (out: Result<Record>)
      requires Valid() && op in journal && g in state.glimpses && g == Glimpse(op, journal[op].status, journal[op].confirmed)
      requires !state.starting && !Late(state.ops[op], g) && !Reopens(state.ops[op], g)
      modifies this
      ensures Valid() && state == Next(old(state), Happen(op, ByCancel(g))) && op in journal
      ensures out.Err? <==> old(journal)[op].acknowledged && Reopening(g)
      ensures out.Ok? ==> out.value == journal[op]
      ensures journal == old(journal)[op := journal[op]] && Asked(old(journal)[op], journal[op])
      ensures active == if Reopening(g) && !old(journal)[op].acknowledged then old(active) + {op} else old(active)
    {
      var record := journal[op];
      if record.status.AwaitingFiles? {
        record := record.(status := Cancelled, cancelRequested := true, confirmed := true);
        Put(op, record, false, ByCancel(g));
      } else if record.status.Uncertain? && !record.confirmed {
        record := record.(status := Cancelling, cancelRequested := true);
        Put(op, record, !record.acknowledged, ByCancel(g));
        if record.acknowledged {
          return Err("operation has no request");
        }
      } else if !Terminal(record.status) {
        record := record.(cancelRequested := true);
        Put(op, record, false, ByCancel(g));
      } else {
        Happens(op, ByCancel(g));
      }
      out := Ok(record);
    }

    /** Whether the Pods and the Area file leave room for a new writer. */
    method FindRoom(op: Op, request: Request, session: Option<Op>, pods: seq<Pod>) returns (out: Result<bool>)
      requires Valid() && !request.kind.Serve?
      ensures out.Ok? <==> Admissible(journal, areas, op, request, session, pods)
      ensures out.Ok? <==>
                && (forall i :: 0 <= i < |pods| ==>
                      session == Some(pods[i].operation) || (pods[i].terminated && pods[i].operation != op))
                && (request.area in areas ==>
                      var holder := areas[request.area].operation;
                      && areas[request.area].epoch <= request.epoch && holder in journal && Terminal(journal[holder].status)
                      && (journal[holder].confirmed || journal[holder].frozen))
    {
      for n := 0 to |pods|
        invariant forall i :: 0 <= i < n ==> !Unaccounted(pods[i], op, session)
      {
        if session == Some(pods[n].operation) {
          continue;
        }
        if !pods[n].terminated || pods[n].operation == op {
          return Err("AREA_BUSY: unaccounted sandbox requires reconciliation");
        }
      }
      if request.area in areas {
        var previous := areas[request.area];
        if request.epoch < previous.epoch {
          return Err("STALE_EPOCH");
        }
        if !Settled(journal[previous.operation]) {
          return Err("AREA_BUSY: previous writer has not been confirmed stopped");
        }
      }
      out := Ok(true);
    }

    /** Accepting is idempotent: a known operation answers from its record, or conflicts. */
    method Accept(op: Op, request: Request, session: Option<Op>, probe: bool, pods: seq<Pod>) returns (out: Result<Record>)
      requires Valid() && (state.starting ==> probe) && Lists(state, request.area, pods)
      requires session.Some? ==> Hosts(journal, session.value, request)
      modifies this
      ensures Valid()
      ensures op in old(journal) ==>
                && state == old(state)
                && out == if old(journal)[op].wireDigest == request.wireDigest then Ok(old(journal)[op])
                          else Err("IDEMPOTENCY_CONFLICT")
      ensures op !in old(journal) ==>
                && (out.Ok? <==> Admissible(old(journal), old(areas), op, request, session, pods))
                && state == if out.Ok? then Next(old(state), OperationJournal.Accept(op, request, session, probe, pods))
                            else old(state)
      ensures op !in old(journal) && out.Ok? ==>
                && journal == old(journal)[op := out.value] && out.value.kind == request.kind
                && out.value.area == request.area && out.value.epoch == request.epoch
                && out.value.wireDigest == request.wireDigest && out.value.digest == request.digest
                && out.value.status == (if request.files && session.None? then AwaitingFiles else Accepted)
                && active == (if out.value.status == Accepted then old(active) + {op} else old(active))
                && areas == (if request.kind.Serve? then old(areas) else old(areas)[request.area := Slot(request.epoch, op)])
      ensures op in old(journal) || out.Err? ==> journal == old(journal) && active == old(active) && areas == old(areas)
    {
      if op in journal {
        if journal[op].wireDigest != request.wireDigest {
          return Err("IDEMPOTENCY_CONFLICT");
        }
        return Ok(journal[op]);
      }
      if !request.kind.Serve? {
        var room := FindRoom(op, request, session, pods);
        if room.Err? {
          return Err(room.error);
        }
      }
      var record := NewRecord(request, session, probe);
      Open(op, request, session, probe, pods, record);
      out := Ok(record);
    }

    /** The record and the Area file of a new operation, and its thread if nothing is to be uploaded. */
    method Open(op: Op, request: Request, session: Option<Op>, probe: bool, pods: seq<Pod>, record: Record)
      requires Valid() && Possible(state, OperationJournal.Accept(op, request, session, probe, pods))
      requires record == NewRecord(request, session, probe)
      modifies this
      ensures Valid() && state == Next(old(state), OperationJournal.Accept(op, request, session, probe, pods))
      ensures journal == old(journal)[op := record] && active == (if record.status == Accepted then old(active) + {op} else old(active))
      ensures areas == (if request.kind.Serve? then old(areas) else old(areas)[request.area := Slot(request.epoch, op)])
    {
      StepKeepsAll(state, OperationJournal.Accept(op, request, session, probe, pods));
      RecordsReplaced(state, op, NewLife(record));
      Save(op, record);
      if !request.kind.Serve? {
        areas := areas[request.area := Slot(request.epoch, op)];
      }
      if !request.files || session.Some? {
        active := active + {op};
      }
      state := Next(state, OperationJournal.Accept(op, request, session, probe, pods));
    }

    /** Acknowledges an outcome whose output the caller has: for an uncertain one the
        caller names the output it adopted, and repeats that name later. One without saved
        output is first harvested, which makes the operation active. `snapshot` is the digest
        of the saved output. Nothing else happens between the tests and the save. */
    method Acknowledge(op: Op, digest: int, output: Option<int>, snapshot: int) returns (out: Result<Record>)
      requires Valid() && !state.starting
      modifies this
      ensures Valid()
      ensures out.Ok? <==> op in old(journal) && old(journal)[op].digest == digest && op !in old(active)
                           && var r := old(journal)[op];
                              || r.status.Completed? || r.status.Cancelled? || r.status.Failed?
                              || (r.status.Uncertain? && r.confirmed
                                  && if r.acknowledged then output == r.adopted else r.harvested && output == Some(snapshot))
      ensures out.Ok? ==>
                var r := old(journal)[op];
                && journal == old(journal)[op := out.value] && active == old(active)
                && out.value == r.(acknowledged := true, adopted := out.value.adopted)
                && out.value.adopted == if r.status.Uncertain? && !r.acknowledged then output else r.adopted
      ensures out.Err? ==> journal == old(journal)
      ensures out.Ok? ==>
                var ack := Ack(op, old(journal)[op].status.Uncertain?, output);
                var vouched := Next(old(state), Vouch(op, output));
                state == Next(vouched, Happen(op, ByCall(OperationJournal.Acknowledge(ack))))
      ensures out.Err? ==>
                state == if op in old(journal) && old(journal)[op].digest == digest && CallEnabled(old(state).ops[op], BeginHarvest)
                         then Next(old(state), Happen(op, ByCall(BeginHarvest))) else old(state)
    {
      if op !in journal {
        return Err("operation unavailable");
      }
      var record := journal[op];
      var uncertain := record.status.Uncertain?;
      var ready := record.status.Completed? || record.status.Cancelled? || record.status.Failed? || (uncertain && record.confirmed);
      if record.digest != digest || !ready {
        return Err("outcome is not ready to acknowledge");
      }
      if op in active {
        return Err("output collection remains active");
      }
      if uncertain && record.acknowledged && output != record.adopted {
        return Err("saved output acknowledgement proof changed");
      }
      if uncertain && !record.acknowledged && !record.harvested {
        StartHarvest(op);
        return Err("harvested output must be persisted before acknowledgement");
      }
      if uncertain && !record.acknowledged && output != Some(snapshot) {
        return Err("output snapshot has not been adopted");
      }
      ghost var ack := Ack(op, uncertain, output);
      StepKeepsAll(state, Vouch(op, output));
      state := Next(state, Vouch(op, output));
      record := RecordAcknowledged(op, uncertain, output, ack);
      out := Ok(record);
    }

    method StartHarvest(op: Op)
      requires Valid() && !state.starting && op in journal && CallEnabled(state.ops[op], BeginHarvest)
      modifies this
      ensures Valid() && state == Next(old(state), Happen(op, ByCall(BeginHarvest)))
      ensures journal == old(journal) && active == old(active) + {op}
    {
      active := active + {op};
      Happens(op, ByCall(BeginHarvest));
    }

    /** The second locked section: it reads the record again, but tests neither its status
        nor whether it has a thread. */
    method RecordAcknowledged(op: Op, uncertain: bool, output: Option<int>, ghost ack: Ack) returns (record: Record)
      requires Valid() && !state.starting && op in journal && ack in state.acks && ack == Ack(op, uncertain, output)
      modifies this
      ensures Valid() && state == Next(old(state), Happen(op, ByCall(OperationJournal.Acknowledge(ack))))
      ensures record == old(journal)[op].(acknowledged := true, adopted := record.adopted)
      ensures record.adopted == if uncertain && !old(journal)[op].acknowledged then output else old(journal)[op].adopted
      ensures journal == old(journal)[op := record] && active == old(active)
    {
      record := journal[op];
      if uncertain && !record.acknowledged {
        record := record.(adopted := output);
      }
      record := record.(acknowledged := true);
      Put(op, record, false, ByCall(OperationJournal.Acknowledge(ack)));
    }

    /** A crash and the start of a new process: only the files are left. */
    method Restart()
      requires Valid()
      modifies this
      ensures Valid() && state == Next(old(state), Crash) && journal == old(journal) && areas == old(areas)
      ensures active == {} && unsettled == {}
    {
      StepKeepsAll(state, Crash);
      active, unsettled := {}, {};
      state := Next(state, Crash);
      assert Records(state) == journal;
    }

    /** The startup scan: every record is tracked and interrupted work is resumed; only then
        are requests served. It fails, and with it the start, exactly if some acknowledged
        record is neither terminal nor waiting for files. */
    method Recover() returns (ok: bool)
      requires Valid() && state.starting
      modifies this
      ensures Valid() && state.starting == !ok && journal == old(journal) && areas == old(areas)
      ensures ok <==> forall op :: op in journal ==> !Wedged(journal[op])
      ensures ok ==> forall op :: op in unsettled <==> op in journal && !Settled(journal[op])
      ensures ok ==> forall op :: op in active <==>
                op in old(active) || (op in journal && !Terminal(journal[op].status) && !journal[op].status.AwaitingFiles?)
    {
      ok := ScanRecords();
      if ok {
        Serve();
      }
    }

    method ScanRecords() returns (ok: bool)
      requires Valid() && state.starting
      modifies this
      ensures Valid() && state.starting && journal == old(journal) && areas == old(areas)
      ensures ok <==> forall op :: op in journal ==> !Wedged(journal[op])
      ensures ok ==> journal.Keys <= state.tracked && active == old(active) + Resumed(journal, journal.Keys)
    {
      var left := journal.Keys;
      while left != {}
        invariant Valid() && state.starting && journal == old(journal) && areas == old(areas)
        invariant left <= journal.Keys && journal.Keys - left <= state.tracked
        invariant active == old(active) + Resumed(journal, journal.Keys - left)
        invariant forall op :: op in journal && op !in left ==> !Wedged(journal[op])
        decreases left
      {
        HasMember(left);
        var op :| op in left;
        ok := RecoverOne(op);
        if !ok {
          return;
        }
        ResumedOneMore(journal, left, op);
        left := left - {op};
      }
      assert journal.Keys - {} == journal.Keys;
      ok := true;
    }

    ghost method Serve()
      requires Valid() && Possible(state, Ready)
      modifies this`state
      ensures Valid() && state == Next(old(state), Ready)
    {
      StepKeepsAll(state, Ready);
      state := Next(state, Ready);
    }

    /** A thread is started with the saved request, which an acknowledgement has emptied. */
    method RecoverOne(op: Op) returns (ok: bool)
      requires Valid() && state.starting && op in journal
      modifies this
      ensures Valid() && journal == old(journal) && areas == old(areas) && state.starting
      ensures ok <==> !Wedged(journal[op])
      ensures ok ==> state.tracked == old(state).tracked + {op}
      ensures ok ==> active == if Interrupted(journal[op]) then old(active) + {op} else old(active)
    {
      var record := journal[op];
      if Interrupted(record) && record.acknowledged {
        return false;
      }
      Put(op, record, Interrupted(record), ByCall(OperationJournal.Recover));
      ok := true;
    }

    /** Activity is read from the cache alone, and counts exactly the records whose writer
        may still be running. */
    method Activity() returns (busy: nat)
      requires Valid() && !state.starting
      ensures busy == |set op | op in journal && !Settled(journal[op])|
    {
      assert forall op :: op in unsettled <==> op in journal && !Settled(journal[op]);
      assert unsettled == set op | op in journal && !Settled(journal[op]);
      busy := |unsettled|;
    }
  }
}
