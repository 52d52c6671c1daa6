/** Billing evidence for sandbox Pods (runner/allocation_usage.py) on values: what a receipt
    must show, what one observation makes of a file, and the indexes over all files. */
module AllocationEvidence {
  import opened Common
  import opened Rotation

  /** A provider timestamp that parses: its text and the instant it denotes. */
  datatype Stamp = Stamp(text: int, at: int)

  datatype Finish = Finish(container: int, stamp: Stamp)

  datatype Receipt = Receipt(allocation: Id, tenant: int, area: int, epoch: int, operation: int,
                             started: Stamp, ended: Stamp, finishes: seq<Finish>)

  /** One durable allocation file. `pending` stands for a recorded pending reason. */
  datatype Allocation = Allocation(
    tenant: int, operation: int, area: int, epoch: int, podName: int, wireDigest: int,
    workOperation: int, workEpoch: int, cleanupReady: bool, idleCleanupReady: bool,
    version: Option<int>, started: Option<Stamp>, receipt: Option<Receipt>,
    pending: bool, quarantined: bool, acknowledged: bool, released: bool, stopRequested: bool)

  type Files = map<Id, Allocation>

  /** What the provider says of one container. */
  datatype Status = NoStatus | Live | Terminated(restarts: nat, finished: Option<Stamp>)

  /** One observation of a Pod; `containers` are its spec's container names in sorted order. */
  datatype Pod = Pod(uid: Id, name: int, digest: int, area: int, epoch: int, version: Option<int>, start: Option<Stamp>,
                     containers: seq<int>, statuses: map<int, Status>, ended: bool, deleting: bool)

  /** An operation record as far as allocations depend on it. */
  datatype Operation = Operation(id: int, podOperation: int, area: int, epoch: int, podUid: Option<Id>,
                                 tenant: Option<int>, podName: int, wireDigest: int)

  // ---------- evidence ----------

  function StatusOf(pod: Pod, container: int): (s: Status) {
    if container in pod.statuses then pod.statuses[container] else NoStatus
  }

  /** A container that ended once, with a usable finish not before the start. */
  predicate EndedProperly(pod: Pod, container: int, started: Stamp) {
    && container in pod.statuses && pod.statuses[container].Terminated? && pod.statuses[container].restarts == 0
    && pod.statuses[container].finished.Some? && started.at <= pod.statuses[container].finished.value.at
  }

  predicate AllEnded(pod: Pod, started: Option<Stamp>) {
    started.Some? && pod.containers != []
    && forall i :: 0 <= i < |pod.containers| ==> EndedProperly(pod, pod.containers[i], started.value)
  }

  /** The finishes of exactly these containers, in order. */
  predicate Covers(containers: seq<int>, finishes: seq<Finish>) {
    |finishes| == |containers| && forall i :: 0 <= i < |finishes| ==> finishes[i].container == containers[i]
  }

  predicate FirstLatest(finishes: seq<Finish>, i: int, end: Stamp) {
    && 0 <= i < |finishes| && finishes[i].stamp == end
    && (forall j :: 0 <= j < |finishes| ==> finishes[j].stamp.at <= end.at)
    && (forall j :: 0 <= j < i ==> finishes[j].stamp.at < end.at)
  }

  /** The latest finish, the first of equals. */
  predicate Latest(finishes: seq<Finish>, end: Stamp) {
    exists i :: 0 <= i < |finishes| && FirstLatest(finishes, i, end)
  }

  /** A receipt that bills what it should: every container of the Pod, up to the latest
      finish and not before the start. */
  predicate Evidenced(containers: seq<int>, r: Receipt) {
    && r.finishes != [] && Covers(containers, r.finishes) && Latest(r.finishes, r.ended)
    && forall i :: 0 <= i < |r.finishes| ==> r.started.at <= r.finishes[i].stamp.at
  }

  /** The receipt names its allocation and starts where the allocation did. */
  predicate Names(uid: Id, a: Allocation, r: Receipt) {
    && r.allocation == uid && r.tenant == a.tenant && r.area == a.area && r.epoch == a.epoch && r.operation == a.operation
    && a.started == Some(r.started)
  }

  predicate Sound(uid: Id, containers: seq<int>, a: Allocation, r: Receipt) {
    Names(uid, a, r) && Evidenced(containers, r)
  }

  /** Reads the finish of every container; None as soon as one is unusable. */
  method CollectFinishes(pod: Pod, started: Option<Stamp>) returns (r: Option<seq<Finish>>)
    ensures r.Some? <==> AllEnded(pod, started)
    ensures r.Some? ==> Covers(pod.containers, r.value)
    ensures r.Some? ==> forall i :: 0 <= i < |r.value| ==>
              pod.statuses[pod.containers[i]].finished == Some(r.value[i].stamp) && started.value.at <= r.value[i].stamp.at
  {
    if started.None? || pod.containers == [] {
      return None;
    }
    var finishes := [];
    for n := 0 to |pod.containers|
      invariant Covers(pod.containers[..n], finishes)
      invariant forall i :: 0 <= i < n ==>
                  && EndedProperly(pod, pod.containers[i], started.value)
                  && pod.statuses[pod.containers[i]].finished == Some(finishes[i].stamp)
    {
      var status := StatusOf(pod, pod.containers[n]);
      if !status.Terminated? || status.restarts != 0 || status.finished.None? || status.finished.value.at < started.value.at {
        return None;
      }
      finishes := finishes + [Finish(pod.containers[n], status.finished.value)];
    }
    assert pod.containers[..|pod.containers|] == pod.containers;
    r := Some(finishes);
  }

  method LatestFinish(finishes: seq<Finish>) returns (end: Stamp)
    requires finishes != []
    ensures Latest(finishes, end)
  {
    end := finishes[0].stamp;
    var best := 0;
    for n := 1 to |finishes|
      invariant 0 <= best < n && finishes[best].stamp == end
      invariant forall j :: 0 <= j < n ==> finishes[j].stamp.at <= end.at
      invariant forall j :: 0 <= j < best ==> finishes[j].stamp.at < end.at
    {
      if finishes[n].stamp.at > end.at {
        best, end := n, finishes[n].stamp;
      }
    }
    assert FirstLatest(finishes, best, end);
  }

  // ---------- what any step may do to one file ----------

  predicate SameIdentity(a: Allocation, b: Allocation) {
    && a.tenant == b.tenant && a.operation == b.operation && a.area == b.area && a.epoch == b.epoch
    && a.podName == b.podName && a.wireDigest == b.wireDigest
  }

  /** Evidence is written once, flags are only ever set, and quarantine freezes all of it. */
  predicate Evolves(a: Allocation, b: Allocation) {
    && SameIdentity(a, b)
    && (a.started.Some? ==> b.started == a.started)
    && (a.receipt.Some? ==> b.receipt == a.receipt)
    && (a.acknowledged ==> b.acknowledged) && (a.released ==> b.released)
    && (a.quarantined ==> b.quarantined && b.started == a.started && b.receipt == a.receipt
                          && b.acknowledged == a.acknowledged && b.released == a.released)
  }

  predicate FilesStep(a: Files, b: Files) {
    forall uid :: uid in a ==> uid in b && Evolves(a[uid], b[uid])
  }

  /** What holds of every file at every moment. */
  predicate FileOk(uid: Id, containers: seq<int>, a: Allocation) {
    && (a.receipt.Some? ==> Sound(uid, containers, a, a.receipt.value))
    && (a.acknowledged || a.released ==> a.receipt.Some?)
    && (a.acknowledged && a.pending ==> a.quarantined)
  }

  ghost predicate FilesOk(files: Files, containersOf: Id -> seq<int>) {
    forall uid :: uid in files ==> FileOk(uid, containersOf(uid), files[uid])
  }

  /** Every durable state of a run in order: each is sound and evolves from the one before. */
  ghost predicate IsHistory(history: seq<Files>, containersOf: Id -> seq<int>)
    decreases |history|
  {
    && history != [] && FilesOk(history[|history| - 1], containersOf)
    && (|history| == 1 || (IsHistory(history[..|history| - 1], containersOf)
                           && FilesStep(history[|history| - 2], history[|history| - 1])))
  }

  lemma FilesStepOne(files: Files, uid: Id, a: Allocation)
    requires uid in files ==> Evolves(files[uid], a)
    ensures FilesStep(files, files[uid := a])
  {
  }

  lemma HistoryGrows(history: seq<Files>, containersOf: Id -> seq<int>, next: Files)
    requires IsHistory(history, containersOf) && FilesOk(next, containersOf)
    requires FilesStep(history[|history| - 1], next)
    ensures IsHistory(history + [next], containersOf)
  {
    assert (history + [next])[..|history|] == history;
  }

  lemma HistorySaved(history: seq<Files>, containersOf: Id -> seq<int>, uid: Id, a: Allocation)
    requires IsHistory(history, containersOf) && FileOk(uid, containersOf(uid), a)
    requires uid in history[|history| - 1] ==> Evolves(history[|history| - 1][uid], a)
    ensures IsHistory(history + [history[|history| - 1][uid := a]], containersOf)
  {
    FilesStepOne(history[|history| - 1], uid, a);
    HistoryGrows(history, containersOf, history[|history| - 1][uid := a]);
  }

  // ---------- the indexes ----------

  predicate Incomplete(a: Allocation) {
    (!a.acknowledged && a.pending) || a.quarantined
  }

  datatype Indexes = Indexes(pending: seq<Id>, watch: seq<Id>, incomplete: set<Id>)

  ghost predicate PendingIndex(files: Files, pending: seq<Id>) {
    Sorted(pending) && forall uid :: uid in pending <==> uid in files && !files[uid].acknowledged
  }

  ghost predicate WatchIndex(files: Files, watch: seq<Id>) {
    Sorted(watch) && forall uid :: uid in watch <==> uid in files && !files[uid].released
  }

  ghost predicate IncompleteIndex(files: Files, incomplete: set<Id>) {
    forall uid :: uid in incomplete <==> uid in files && Incomplete(files[uid])
  }

  /** The indexes say exactly what a scan of the files says. */
  ghost predicate Indexed(files: Files, x: Indexes) {
    PendingIndex(files, x.pending) && WatchIndex(files, x.watch) && IncompleteIndex(files, x.incomplete)
  }

  lemma PendingKept(files: Files, pending: seq<Id>, uid: Id, a: Allocation)
    requires PendingIndex(files, pending) && uid in files && a.acknowledged == files[uid].acknowledged
    ensures PendingIndex(files[uid := a], pending)
  {
  }

  lemma WatchKept(files: Files, watch: seq<Id>, uid: Id, a: Allocation)
    requires WatchIndex(files, watch) && uid in files && a.released == files[uid].released
    ensures WatchIndex(files[uid := a], watch)
  {
  }

  lemma IncompleteKept(files: Files, incomplete: set<Id>, uid: Id, a: Allocation)
    requires IncompleteIndex(files, incomplete) && uid in files && (Incomplete(a) <==> Incomplete(files[uid]))
    ensures IncompleteIndex(files[uid := a], incomplete)
  {
  }

  /** There is only one right content of the indexes, so keeping them right means
      keeping them equal to what a fresh start would build. */
  lemma IndexesUnique(files: Files, x: Indexes, y: Indexes)
    requires Indexed(files, x) && Indexed(files, y)
    ensures x == y
  {
    SortedUnique(x.pending, y.pending);
    SortedUnique(x.watch, y.watch);
    assert x.incomplete == y.incomplete;
  }

  /** The indexes are right about every other file, and list this one as `a` has it. */
  ghost predicate ListedAs(files: Files, x: Indexes, uid: Id, a: Allocation) {
    && Sorted(x.pending) && Sorted(x.watch)
    && (forall u :: u != uid ==> (u in x.pending <==> u in files && !files[u].acknowledged))
    && (forall u :: u != uid ==> (u in x.watch <==> u in files && !files[u].released))
    && (forall u :: u != uid ==> (u in x.incomplete <==> u in files && Incomplete(files[u])))
    && (uid in x.pending <==> !a.acknowledged) && (uid in x.watch <==> !a.released)
  }

  lemma OpenedIndexes(files: Files, x: Indexes, uid: Id, a: Allocation)
    requires Indexed(files, x) && uid !in files && !a.acknowledged && !a.released
    ensures uid !in x.pending && uid !in x.watch
    ensures ListedAs(files, Indexes(Insert(x.pending, uid), Insert(x.watch, uid), x.incomplete + {uid}), uid, a)
  {
  }

  lemma MarkedIndexes(files: Files, x: Indexes, uid: Id, a: Allocation)
    requires ListedAs(files, x, uid, a)
    ensures Indexed(files[uid := a], x.(incomplete := if Incomplete(a) then x.incomplete + {uid} else x.incomplete - {uid}))
  {
  }

  lemma ReleasedIndexes(files: Files, x: Indexes, uid: Id)
    requires Indexed(files, x) && uid in files
    ensures Indexed(files[uid := files[uid].(released := true)], x.(watch := Remove(x.watch, uid)))
  {
    var a := files[uid].(released := true);
    PendingKept(files, x.pending, uid, a);
    IncompleteKept(files, x.incomplete, uid, a);
    assert WatchIndex(files[uid := a], Remove(x.watch, uid));
  }

  lemma AcknowledgedIndexes(files: Files, x: Indexes, uid: Id)
    requires Indexed(files, x) && uid in files && (files[uid].pending ==> files[uid].quarantined)
    ensures Indexed(files[uid := files[uid].(acknowledged := true)], x.(pending := Remove(x.pending, uid)))
  {
    var a := files[uid].(acknowledged := true);
    WatchKept(files, x.watch, uid, a);
    IncompleteKept(files, x.incomplete, uid, a);
    assert PendingIndex(files[uid := a], Remove(x.pending, uid));
  }

  /** The startup scan, file by file. */
  method Scan(files: Files) returns (x: Indexes)
    ensures Indexed(files, x)
  {
    var left := files.Keys;
    var pending: seq<Id>, watch: seq<Id>, incomplete: set<Id> := [], [], {};
    while left != {}
      invariant left <= files.Keys && Sorted(pending) && Sorted(watch)
      invariant forall uid :: uid in pending <==> uid in files && uid !in left && !files[uid].acknowledged
      invariant forall uid :: uid in watch <==> uid in files && uid !in left && !files[uid].released
      invariant forall uid :: uid in incomplete <==> uid in files && uid !in left && Incomplete(files[uid])
      decreases left
    {
      var uid :| uid in left;
      var record := files[uid];
      if !record.released {
        watch := Insert(watch, uid);
      }
      if !record.acknowledged {
        pending := Insert(pending, uid);
        if record.pending {
          incomplete := incomplete + {uid};
        }
      }
      if record.quarantined {
        incomplete := incomplete + {uid};
      }
      left := left - {uid};
    }
    x := Indexes(pending, watch, incomplete);
  }

  // ---------- judging an observation ----------

  /** One allocation is quarantined and no other file is touched; its evidence stays. */
  ghost predicate Quarantined(before: Files, after: Files, uid: Id) {
    && uid in after && after[uid].quarantined && after[uid].pending && after == before[uid := after[uid]]
    && (uid in before ==> Evolves(before[uid], after[uid])
                          && after[uid].receipt == before[uid].receipt && after[uid].started == before[uid].started)
  }

  /** The allocation that a Pod of another origin makes suspect, if it has a file, is quarantined. */
  ghost predicate Suspected(before: Files, after: Files, bound: Option<Id>) {
    after == if bound.Some? && bound.value in before
             then before[bound.value := before[bound.value].(quarantined := true, pending := true)] else before
  }

  /** Every container is terminated, whatever its evidence is worth. */
  predicate StoppedShort(pod: Pod) {
    pod.containers != []
    && forall i :: 0 <= i < |pod.containers| ==>
         pod.containers[i] in pod.statuses && pod.statuses[pod.containers[i]].Terminated?
  }

  /** The current work and the permission to delete the Pod stay. */
  predicate SameTask(a: Allocation, b: Allocation) {
    b.workOperation == a.workOperation && b.workEpoch == a.workEpoch && b.cleanupReady == a.cleanupReady
  }

  /** The work stays, or goes to an operation of a greater epoch and the permission with it. */
  predicate Retasked(a: Allocation, b: Allocation, record: Operation) {
    || SameTask(a, b)
    || (record.epoch > a.workEpoch && b.workOperation == record.id && b.workEpoch == record.epoch && !b.cleanupReady)
  }

  /** The observed version, and newer work in the same Pod: its output is not harvested yet. */
  function Refreshed(a: Allocation, record: Operation, pod: Pod): (b: Allocation)
    ensures Evolves(a, b)
    ensures Retasked(a, b, record) && (SameTask(a, b) ==> record.epoch <= a.workEpoch)
  {
    var b := a.(version := pod.version);
    if record.epoch > a.workEpoch
    then b.(workOperation := record.id, workEpoch := record.epoch, cleanupReady := false, idleCleanupReady := false)
    else b
  }

  function WithStart(a: Allocation, start: Option<Stamp>): (b: Allocation)
    requires !a.quarantined
    ensures Evolves(a, b)
    ensures b.started == if a.started.Some? then a.started else start
  {
    if a.started.Some? then a else a.(started := start)
  }

  function FirstSight(tenant: int, record: Operation, origin: Operation, pod: Pod): (a: Allocation) {
    Allocation(tenant, origin.id, origin.area, origin.epoch, pod.name, origin.wireDigest, record.id, record.epoch,
               false, false, None, None, None, false, false, false, false, false)
  }

  /** The first sight of a Pod contradicts nothing. */
  lemma FirstIsConsistent(record: Operation, origin: Operation, pod: Pod)
    requires OriginMatches(record, origin, pod) && origin.tenant.Some?
    ensures Consistent(FirstSight(origin.tenant.value, record, origin, pod), record, origin.tenant, pod)
  {
  }

  /** What is taken over from the Pod and the record: the version, a first start, and newer
      work, whose output is not harvested yet. */
  ghost predicate Taken(a: Allocation, b: Allocation, record: Operation, pod: Pod) {
    && b.version == pod.version && b.started == (if a.started.Some? then a.started else pod.start)
    && (b.cleanupReady <==> a.cleanupReady && record.epoch <= a.workEpoch)
    && (b.idleCleanupReady <==> a.idleCleanupReady && record.epoch <= a.workEpoch) && b.stopRequested == a.stopRequested
    && b.workOperation == (if record.epoch > a.workEpoch then record.id else a.workOperation)
    && b.workEpoch == (if record.epoch > a.workEpoch then record.epoch else a.workEpoch)
  }

  /** What a successful observation makes of a file: there is a receipt exactly when every
      container has ended properly, and otherwise a recorded reason once the Pod has stopped. */
  ghost predicate Assessed(a: Allocation, b: Allocation, record: Operation, pod: Pod) {
    && Evolves(a, b) && !b.quarantined && Taken(a, b, record, pod)
    && b.acknowledged == a.acknowledged && b.released == a.released
    && (b.receipt.Some? <==> AllEnded(pod, b.started))
    && (b.pending <==> b.receipt.None? && (StoppedShort(pod) || a.stopRequested || pod.ended))
  }

  /** The provider still reports the finishes a receipt was made of. */
  predicate SameEvidence(r: Receipt, pod: Pod) {
    forall i :: 0 <= i < |r.finishes| ==>
      var c := r.finishes[i].container;
      c in pod.statuses && pod.statuses[c].Terminated? && pod.statuses[c].finished == Some(r.finishes[i].stamp)
  }

  /** The observation contradicts nothing recorded before. */
  predicate Consistent(known: Allocation, record: Operation, tenant: Option<int>, pod: Pod) {
    && Matches(known, record, tenant, pod)
    && (known.started.Some? && pod.start.Some? ==> pod.start == known.started)
    && (known.receipt.Some? ==>
          pod.start.Some? && AllEnded(pod, known.started) && SameEvidence(known.receipt.value, pod))
  }

  lemma LatestUnique(finishes: seq<Finish>, a: Stamp, b: Stamp)
    requires Latest(finishes, a) && Latest(finishes, b)
    ensures a == b
  {
    var i :| 0 <= i < |finishes| && FirstLatest(finishes, i, a);
    var j :| 0 <= j < |finishes| && FirstLatest(finishes, j, b);
    assert finishes[i].stamp.at == finishes[j].stamp.at;
    assert i == j;
  }

  /** A receipt is a function of the evidence, so rebuilding it from the same evidence
      gives the same receipt and from any other evidence a different one. */
  lemma SameReceipt(known: Allocation, made: Receipt, pod: Pod)
    requires known.receipt.Some? && Sound(pod.uid, pod.containers, known, known.receipt.value)
    requires Sound(pod.uid, pod.containers, known, made) && SameEvidence(made, pod)
    ensures known.receipt.value == made <==> SameEvidence(known.receipt.value, pod)
  {
    var kept := known.receipt.value;
    if SameEvidence(kept, pod) {
      forall i | 0 <= i < |made.finishes| ensures kept.finishes[i] == made.finishes[i] {
        assert kept.finishes[i].container == pod.containers[i] == made.finishes[i].container;
      }
      assert kept.finishes == made.finishes;
      LatestUnique(made.finishes, kept.ended, made.ended);
    }
  }

  /** Judges one observation of a known allocation: an error asks for quarantine, otherwise
      the result says whether the file is incomplete. */
  method Assess(known: Allocation, record: Operation, tenant: Option<int>, pod: Pod)
    returns (a: Allocation, r: Result<bool>)
    requires FileOk(pod.uid, pod.containers, known) && !known.quarantined
    ensures Evolves(known, a) && FileOk(pod.uid, pod.containers, a)
    ensures a.acknowledged == known.acknowledged && a.released == known.released
    ensures Retasked(known, a, record)
    ensures r.Ok? ==> Assessed(known, a, record, pod) && (r.value <==> Incomplete(a))
    ensures r.Ok? <==> Consistent(known, record, tenant, pod)
    ensures r.Err? ==> a.receipt == known.receipt && a.started == known.started
  {
    a, r := Identify(known, record, tenant, pod);
    if r.Ok? {
      assert known.receipt.Some? ==> a.started == known.started;
      a, r := SettleEvidence(a, pod);
    }
  }

  method SamePod(a: Allocation, record: Operation, tenant: Option<int>, pod: Pod) returns (same: bool)
    ensures same <==> Matches(a, record, tenant, pod)
  {
    if a.area != record.area || a.podName != pod.name || a.wireDigest != pod.digest {
      return false;
    }
    same := tenant.None? || tenant.value == a.tenant;
  }

  /** Whether this is the same Pod with the same start; takes over its version and start. */
  method Identify(known: Allocation, record: Operation, tenant: Option<int>, pod: Pod)
    returns (a: Allocation, r: Result<bool>)
    requires FileOk(pod.uid, pod.containers, known) && !known.quarantined
    ensures FileOk(pod.uid, pod.containers, a) && Evolves(known, a)
    ensures a.receipt == known.receipt && !a.quarantined && a.stopRequested == known.stopRequested
    ensures a.acknowledged == known.acknowledged && a.released == known.released
    ensures Retasked(known, a, record)
    ensures r.Ok? ==> Taken(known, a, record, pod)
    ensures r.Err? ==> a.started == known.started
    ensures r.Ok? <==> && Matches(known, record, tenant, pod)
                       && (known.started.Some? && pod.start.Some? ==> pod.start == known.started)
                       && (known.receipt.Some? ==> pod.start.Some?)
  {
    var same := SamePod(known, record, tenant, pod);
    if !same {
      return known, Err("allocation identity changed");
    }
    a := Refreshed(known, record, pod);
    if a.receipt.Some? && pod.start.None? {
      return a, Err("allocation provider start unavailable");
    }
    if a.started.Some? && pod.start.Some? && pod.start != a.started {
      return a, Err("allocation provider start changed");
    }
    return WithStart(a, pod.start), Ok(true);
  }

  /** Writes the receipt once every container's end is known, or records what is missing. */
  method SettleEvidence(known: Allocation, pod: Pod) returns (a: Allocation, r: Result<bool>)
    requires FileOk(pod.uid, pod.containers, known) && !known.quarantined
    ensures Evolves(known, a) && FileOk(pod.uid, pod.containers, a)
    ensures a == known.(receipt := a.receipt, pending := a.pending)
    ensures r.Err? ==> a == known
    ensures r.Err? <==> known.receipt.Some? && !(AllEnded(pod, known.started) && SameEvidence(known.receipt.value, pod))
    ensures r.Ok? ==> (a.receipt.Some? <==> AllEnded(pod, known.started)) && (r.value <==> Incomplete(a))
    ensures r.Ok? ==> (a.pending <==> a.receipt.None? && (StoppedShort(pod) || known.stopRequested || pod.ended))
  {
    a := known;
    var finishes := CollectFinishes(pod, a.started);
    if finishes.Some? {
      var end := LatestFinish(finishes.value);
      var receipt := Receipt(pod.uid, a.tenant, a.area, a.epoch, a.operation, a.started.value, end, finishes.value);
      if a.receipt.Some? { SameReceipt(known, receipt, pod); }
      if a.receipt.Some? && a.receipt.value != receipt {
        return a, Err("allocation receipt changed");
      }
      return a.(receipt := Some(receipt), pending := false), Ok(false);
    }
    if a.receipt.Some? {
      return a, Err("allocation terminal evidence unavailable");
    }
    var ended := pod.containers != [] && forall i :: 0 <= i < |pod.containers| ==> StatusOf(pod, pod.containers[i]).Terminated?;
    var short := ended || a.stopRequested || pod.ended;
    return a.(pending := short), Ok(short);
  }

  /** The Pod, the operation that created it and the record at hand name each other. */
  predicate OriginMatches(record: Operation, origin: Operation, pod: Pod) {
    && (record.podUid.None? || record.podUid == Some(pod.uid)) && (origin.podUid.None? || origin.podUid == Some(pod.uid))
    && record.area == origin.area && pod.name == origin.podName && pod.digest == origin.wireDigest
    && pod.area == origin.area && pod.epoch == origin.epoch
  }

  method SameOrigin(record: Operation, origin: Operation, pod: Pod) returns (same: bool)
    ensures same <==> OriginMatches(record, origin, pod)
  {
    if (record.podUid.Some? && record.podUid.value != pod.uid) || (origin.podUid.Some? && origin.podUid.value != pod.uid) {
      return false;
    }
    same := record.area == origin.area && pod.name == origin.podName && pod.digest == origin.wireDigest
            && pod.area == origin.area && pod.epoch == origin.epoch;
  }

  predicate Matches(a: Allocation, record: Operation, tenant: Option<int>, pod: Pod) {
    a.area == record.area && a.podName == pod.name && a.wireDigest == pod.digest && (tenant.None? || tenant.value == a.tenant)
  }

  // ---------- whole runs ----------

  /** Between any two moments of any run a file only evolves: its start and its receipt
      are written once, and once quarantined it never changes them, is never
      acknowledged and never released. */
  lemma {:induction false} EvidenceWrittenOnce(history: seq<Files>, containersOf: Id -> seq<int>, i: nat, j: nat, uid: Id)
    requires IsHistory(history, containersOf) && i <= j < |history| && uid in history[i]
    ensures uid in history[j] && Evolves(history[i][uid], history[j][uid])
    ensures FileOk(uid, containersOf(uid), history[j][uid])
    decreases |history|
  {
    var before := history[..|history| - 1];
    if j < |history| - 1 {
      EvidenceWrittenOnce(before, containersOf, i, j, uid);
    } else if i < j {
      EvidenceWrittenOnce(before, containersOf, i, j - 1, uid);
      assert FilesStep(before[j - 1], history[j]);
    }
  }

  /** Whatever was once acknowledged or released is billed by one receipt for ever, and
      that receipt covers every container of the Pod up to the latest finish. */
  lemma BilledForEver(history: seq<Files>, containersOf: Id -> seq<int>, i: nat, j: nat, uid: Id)
    requires IsHistory(history, containersOf) && i <= j < |history| && uid in history[i]
    requires history[i][uid].acknowledged || history[i][uid].released
    ensures history[i][uid].receipt.Some? && uid in history[j]
    ensures history[j][uid].receipt == history[i][uid].receipt
    ensures Sound(uid, containersOf(uid), history[j][uid], history[i][uid].receipt.value)
  {
    EvidenceWrittenOnce(history, containersOf, i, i, uid);
    EvidenceWrittenOnce(history, containersOf, i, j, uid);
  }
}
