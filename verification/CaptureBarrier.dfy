/** A Python session's descriptor capture (runner/python_session.py): one drain
    thread, the interpreter's begin/end barriers and any number of other writers
    share a pipe, and each cell must get its own bytes. */
module CaptureBarrier {
  import opened Common

  // ---------- bounded cell output ----------

  /** One piece added to a cell's output, by the drain thread or by the interpreter itself. */
  datatype Piece = Piece(drained: bool, data: seq<Byte>)

  function Pieces(log: seq<Piece>): (data: seq<Byte>) {
    if log == [] then [] else Pieces(log[..|log| - 1]) + log[|log| - 1].data
  }

  /** What the drain thread contributed. */
  function Drained(log: seq<Piece>): (data: seq<Byte>) {
    if log == [] then []
    else Drained(log[..|log| - 1]) + if log[|log| - 1].drained then log[|log| - 1].data else []
  }

  lemma AddedPiece(log: seq<Piece>, piece: Piece)
    ensures Drained(log + [piece]) == Drained(log) + if piece.drained then piece.data else []
    ensures Pieces(log + [piece]) == Pieces(log) + piece.data
  {
    assert (log + [piece])[..|log|] == log;
  }

  /** What a limit lets through of everything added. */
  function Kept(log: seq<Piece>, limit: nat): (data: seq<Byte>) {
    Pieces(log)[..Min(limit, |Pieces(log)|)]
  }

  lemma CutOneMore(all: seq<Byte>, more: seq<Byte>, limit: nat)
    ensures (all + more)[..Min(limit, |all + more|)]
            == all[..Min(limit, |all|)] + more[..Min(Max(0, limit - |all|), |more|)]
  {
  }

  /** What a limit lets through of one more piece. */
  lemma KeptOneMore(log: seq<Piece>, piece: Piece, limit: nat)
    ensures var chunk := piece.data[..Min(Max(0, limit - |Kept(log, limit)|), |piece.data|)];
            && Kept(log + [piece], limit) == Kept(log, limit) + chunk
            && (|Pieces(log + [piece])| > limit <==> |Pieces(log)| > limit || |chunk| != |piece.data|)
  {
    AddedPiece(log, piece);
    CutOneMore(Pieces(log), piece.data, limit);
  }

  /** The part of it that the drain thread contributed. */
  function KeptDrained(log: seq<Piece>, limit: nat): (data: seq<Byte>) {
    if log == [] then []
    else
      var before, last := log[..|log| - 1], log[|log| - 1];
      KeptDrained(before, limit)
      + if last.drained then last.data[..Min(Max(0, limit - |Pieces(before)|), |last.data|)] else []
  }

  /** A limit cuts the drained bytes at one point, and not at all if everything fits. */
  lemma {:induction false} KeptIsPrefix(log: seq<Piece>, limit: nat)
    ensures KeptDrained(log, limit) <= Drained(log)
    ensures |Pieces(log)| <= limit ==> KeptDrained(log, limit) == Drained(log)
    ensures (forall i :: 0 <= i < |log| ==> log[i].drained) ==>
              KeptDrained(log, limit) == Kept(log, limit) && Pieces(log) == Drained(log)
    decreases |log|
  {
    if log != [] {
      KeptIsPrefix(log[..|log| - 1], limit);
    }
  }

  class Output {
    const limit: nat
    var data: seq<Byte>
    var truncated: bool
    ghost var log: seq<Piece>

    /** Kept: the first `limit` bytes of everything added. */
    ghost predicate Valid()
      reads this
    {
      && data == Kept(log, limit)
      && truncated == (|Pieces(log)| > limit)
    }

    constructor (limit: nat)
      ensures Valid() && this.limit == limit && log == []
    {
      this.limit := limit;
      data, truncated, log := [], false, [];
    }

    method Add(raw: seq<Byte>, ghost drained: bool)
      requires Valid()
      modifies this
      ensures Valid() && log == old(log) + [Piece(drained, raw)]
    {
      var chunk := raw[..Min(Max(0, limit - |data|), |raw|)];
      KeptOneMore(log, Piece(drained, raw), limit);
      data := data + chunk;
      truncated := truncated || |chunk| != |raw|;
      log := log + [Piece(drained, raw)];
    }
  }

  // ---------- one turn of the drain thread ----------

  datatype Turn = Turn(added: seq<Byte>, pending: seq<Byte>, found: bool)

  /** What the drain thread does with its pending bytes under the lock. */
  function DrainTurn(pending: seq<Byte>, marker: Option<seq<Byte>>): (t: Turn)
    requires marker.Some? ==> marker.value != []
  {
    match marker
    case None => Turn(pending, [], false)
    case Some(m) =>
      match Find(pending, m, 0)
      case Some(p) => Turn(pending[..p] + pending[p + |m|..], [], true)
      case None =>
        var keep := Min(|pending|, |m| - 1);
        Turn(pending[..|pending| - keep], pending[|pending| - keep..], false)
  }

  /** The drain thread keeps a suffix of what it holds, so what it has disposed of
      is always a prefix of the stream. It holds back less than a marker, and nothing without
      one, and delivers all the rest but for the marker it finds first. */
  lemma TurnKeepsSuffix(pending: seq<Byte>, marker: Option<seq<Byte>>)
    requires marker.Some? ==> marker.value != []
    ensures var t := DrainTurn(pending, marker);
            && |t.pending| <= |pending| && t.pending == pending[|pending| - |t.pending|..]
            && (marker.None? || t.found ==> t.pending == []) && (marker.Some? ==> |t.pending| < |marker.value|)
            && (!t.found ==> t.added + t.pending == pending)
            && (t.found ==> marker.Some? && exists p: nat ::
                  OccursAt(pending, marker.value, p) && t.added == pending[..p] + pending[p + |marker.value|..])
            && (marker.Some? && !t.found ==> forall p :: !OccursAt(pending, marker.value, p))
  {}

  class DescriptorCapture {
    var pending: seq<Byte>
    var output: Output?
    var marker: Option<seq<Byte>>
    var event: bool

    constructor ()
      ensures pending == [] && output == null && marker == None && !event
    {
      pending, output, marker, event := [], null, None, false;
    }

    /** `if self.output: self.output.add(data)`. */
    method Deliver(data: seq<Byte>)
      requires output != null ==> output.Valid()
      modifies output
      ensures output != null ==> output.Valid() && Drained(output.log) == Drained(old(output.log)) + data
    {
      if output != null {
        AddedPiece(output.log, Piece(true, data));
        output.Add(data, true);
      }
    }

    /** The marker has come: what lies before it is delivered, the barrier opens, and what
        lies behind it is delivered too. */
    method Pass(position: nat)
      requires marker.Some? && position + |marker.value| <= |pending| && (output != null ==> output.Valid())
      modifies this`pending, this`marker, this`event, output
      ensures pending == [] && marker == None && event
      ensures output != null ==>
                output.Valid() && Drained(output.log)
                == Drained(old(output.log)) + (old(pending)[..position] + old(pending)[position + |old(marker).value|..])
    {
      Deliver(pending[..position]);
      pending, marker, event := pending[position + |marker.value|..], None, true;
      Flush();
    }

    /** The body of the drain loop for one chunk read from the pipe. */
    method Drain(chunk: seq<Byte>)
      requires marker.Some? ==> marker.value != []
      requires output != null ==> output.Valid()
      modifies this`pending, this`marker, this`event, output
      ensures var t := DrainTurn(old(pending) + chunk, old(marker));
              && pending == t.pending
              && marker == (if t.found then None else old(marker))
              && event == (old(event) || t.found)
              && (output != null ==> output.Valid() && Drained(output.log) == Drained(old(output.log)) + t.added)
    {
      pending := pending + chunk;
      var position := if marker.Some? then Find(pending, marker.value, 0) else None;
      if position.Some? {
        Pass(position.value);
      } else {
        Flush();
      }
    }

    /** Delivers what cannot be the beginning of the marker. */
    method Flush()
      requires (marker.Some? ==> marker.value != []) && (output != null ==> output.Valid())
      modifies this`pending, output
      ensures var keep := if marker.Some? then Min(|old(pending)|, |marker.value| - 1) else 0;
              && pending == old(pending)[|old(pending)| - keep..]
              && (output != null ==>
                    output.Valid() && Drained(output.log) == Drained(old(output.log)) + old(pending)[..|old(pending)| - keep])
    {
      var data;
      if marker.Some? {
        var keep := Min(|pending|, |marker.value| - 1);
        data, pending := pending[..|pending| - keep], pending[|pending| - keep..];
      } else {
        data, pending := pending, [];
      }
      Deliver(data);
    }
  }

  // ---------- slices of a growing stream ----------

  lemma Joined(s: seq<Byte>, a: nat, b: nat, c: nat)
    requires a <= b <= c <= |s|
    ensures s[a..b] + s[b..c] == s[a..c]
  {}

  lemma Grown(s: seq<Byte>, more: seq<Byte>, a: nat, b: nat)
    requires a <= b <= |s|
    ensures (s + more)[a..b] == s[a..b]
  {}

  lemma Inner(s: seq<Byte>, a: nat, b: nat, i: nat, j: nat)
    requires a <= b <= |s| && i <= j <= b - a
    ensures s[a..b][i..j] == s[a + i..a + j]
  {
    assert |s[a..b][i..j]| == |s[a + i..a + j]|;
    forall k | 0 <= k < j - i ensures s[a..b][i..j][k] == s[a + i..a + j][k] {}
  }

  // ---------- markers ----------

  /** NUL and `aidash-capture-`. */
  const PREFIX: seq<Byte> := [0, 97, 105, 100, 97, 115, 104, 45, 99, 97, 112, 116, 117, 114, 101, 45]

  const CORE := 32

  /** The prefix, the random core and a closing NUL. */
  function Marker(core: seq<Byte>): (m: seq<Byte>)
    ensures |m| == |PREFIX| + |core| + 1
  {
    PREFIX + core + [0]
  }

  predicate Contains(s: seq<Byte>, part: seq<Byte>) {
    exists p :: 0 <= p <= |s| && OccursAt(s, part, p)
  }

  /** A marker whose core does not hold the prefix overlaps a copy of itself in its closing
      NUL at most. */
  lemma NoOverlap(core: seq<Byte>, d: nat)
    requires |core| == CORE && !Contains(core, PREFIX) && 1 <= d <= |PREFIX| + CORE - 1
    ensures Marker(core)[d..] != Marker(core)[..|Marker(core)| - d]
  {
    var m := Marker(core);
    var k := |m| - d;
    if d < |PREFIX| {
      assert m[d..][0] == PREFIX[d] != 0 && m[..k][0] == 0;
    } else if d <= CORE {
      assert m[d..][..|PREFIX|] == core[d - |PREFIX|..d] && m[..k][..|PREFIX|] == PREFIX;
      assert !OccursAt(core, PREFIX, d - |PREFIX|);
    } else {
      assert m[d..][k - 1] == 0 && m[..k][k - 1] == PREFIX[k - 1] != 0;
    }
  }

  /** Two places of one marker in a stream are apart by more than the marker's reach. */
  lemma Apart(written: seq<Byte>, core: seq<Byte>, p: nat, q: nat)
    requires |core| == CORE && !Contains(core, PREFIX) && p < q
    requires OccursAt(written, Marker(core), p) && OccursAt(written, Marker(core), q)
    ensures q - p >= |PREFIX| + CORE
  {
    var m, d := Marker(core), q - p;
    if d < |PREFIX| + CORE {
      Inner(written, p, p + |m|, d, |m|);
      Inner(written, q, q + |m|, 0, |m| - d);
      assert m[d..] == m[..|m| - d];
      NoOverlap(core, d);
    }
  }

  /** If the core occurs neither before nor after the marker that was written, the marker
      occurs nowhere else, be it in part. */
  lemma OnlyWhereSent(written: seq<Byte>, core: seq<Byte>, sent: nat, p: nat)
    requires |core| == CORE && !Contains(core, PREFIX) && OccursAt(written, Marker(core), sent)
    requires !Contains(written[0..sent], core) && !Contains(written[sent + |Marker(core)|..|written|], core)
    requires OccursAt(written, Marker(core), p)
    ensures p == sent
  {
    if p < sent {
      Apart(written, core, p, sent);
      CoreWithin(written, core, p, 0, sent);
    } else if sent < p {
      Apart(written, core, sent, p);
      CoreWithin(written, core, p, sent + |Marker(core)|, |written|);
    }
  }

  /** A marker brings its core into every part of the stream that covers it. */
  lemma CoreWithin(written: seq<Byte>, core: seq<Byte>, p: nat, a: nat, b: nat)
    requires |core| == CORE && OccursAt(written, Marker(core), p)
    requires a <= p + |PREFIX| && p + |PREFIX| + CORE <= b <= |written|
    ensures Contains(written[a..b], core)
  {
    CoreOccurs(written, core, p);
    var c := p + |PREFIX|;
    Inner(written, a, b, c - a, c - a + CORE);
    assert OccursAt(written[a..b], core, c - a);
  }

  lemma CoreOccurs(written: seq<Byte>, core: seq<Byte>, p: nat)
    requires |core| == CORE && OccursAt(written, Marker(core), p)
    ensures OccursAt(written, core, p + |PREFIX|)
  {
    var m := Marker(core);
    Inner(written, p, p + |m|, |PREFIX|, |PREFIX| + CORE);
    assert m[|PREFIX|..|PREFIX| + CORE] == core;
  }

  // ---------- the whole session as a state machine ----------

  /** Where the interpreter is between the bodies of `begin` and `end`. A barrier
      that times out leaves the interpreter outside, whatever it left behind. */
  datatype Phase = Outside | BeginArmed | BeginSent | Inside | EndArmed | EndSent

  /** `written` is everything ever written to the pipe, markers included. The drain
      thread has read the first `read` bytes and disposed of the first `disposed`;
      between them lie its pending bytes. `holding` means it has read a chunk and not
      yet taken the lock. `sentAt` and `size` say where the current marker was
      written and how long it is. */
  datatype State = State(
    written: seq<Byte>, read: nat, disposed: nat, holding: bool,
    marker: Option<seq<Byte>>, event: bool, sentAt: Option<nat>, size: nat,
    output: Option<seq<Piece>>, phase: Phase, cell: Cell)

  /** Positions in `written`: the end of the begin marker, where capture started, and
      the length when `begin` returned. */
  datatype Cell = Cell(beginEnd: nat, start: nat, begun: nat)

  function Initial(): (s: State) {
    State([], 0, 0, false, None, false, None, 0, None, Outside, Cell(0, 0, 0))
  }

  datatype Step =
    | Write(data: seq<Byte>)   // any holder of the descriptor
    | Print(data: seq<Byte>)   // the interpreter's redirected stdout and stderr
    | Read(count: nat)         // the drain thread, any read boundary
    | Process                  // the drain thread, under the lock
    | Arm(core: seq<Byte>)     // the interpreter publishes a fresh marker
    | Send                     // the interpreter writes the marker
    | Return                   // the barrier's event is set
    | TimeOut                  // it was not set in time

  function Added(output: Option<seq<Piece>>, drained: bool, data: seq<Byte>): (r: Option<seq<Piece>>) {
    match output
    case None => None
    case Some(log) => Some(log + [Piece(drained, data)])
  }

  predicate InRange(s: State) {
    s.disposed <= s.read <= |s.written| && (s.marker.Some? ==> s.marker.value != [])
  }

  predicate Enabled(s: State, step: Step) {
    InRange(s) &&
    match step
    case Write(_) => true
    case Print(_) => s.phase == Inside
    case Read(count) => !s.holding && 0 < count && s.read + count <= |s.written|
    case Process => s.holding
    case Arm(core) => (s.phase == Outside || s.phase == Inside) && |core| == CORE
    case Send => (s.phase == BeginArmed || s.phase == EndArmed) && s.marker.Some?
    case Return => (s.phase == BeginSent || s.phase == EndSent) && s.event && s.sentAt.Some?
    case TimeOut => (s.phase == BeginSent || s.phase == EndSent) && !s.event
  }

  /** The drain thread's turn on the bytes it holds. */
  function TurnOf(s: State): (t: Turn)
    requires InRange(s)
  {
    DrainTurn(s.written[s.disposed..s.read], s.marker)
  }

  function After(s: State, step: Step): (r: State)
    requires Enabled(s, step)
  {
    match step
    case Write(data) => s.(written := s.written + data)
    case Print(data) => s.(output := Added(s.output, false, data))
    case Read(count) => s.(read := s.read + count, holding := true)
    case Process =>
      var t := TurnOf(s);
      TurnKeepsSuffix(s.written[s.disposed..s.read], s.marker);
      s.(disposed := s.read - |t.pending|, holding := false, output := Added(s.output, true, t.added),
         marker := if t.found then None else s.marker, event := s.event || t.found)
    case Arm(core) =>
      s.(marker := Some(Marker(core)), event := false, sentAt := None, size := |Marker(core)|,
         phase := if s.phase == Outside then BeginArmed else EndArmed)
    case Send =>
      s.(written := s.written + s.marker.value, sentAt := Some(|s.written|),
         phase := if s.phase == BeginArmed then BeginSent else EndSent)
    case Return =>
      if s.phase == BeginSent then
        s.(output := Some([]), phase := Inside, cell := Cell(s.sentAt.value + s.size, s.disposed, |s.written|))
      else s.(output := None, phase := Outside)
    case TimeOut => s.(phase := Outside)
  }

  /** The marker's random core. */
  function Core(m: seq<Byte>): (core: seq<Byte>)
    requires |m| == |PREFIX| + CORE + 1
  {
    m[|PREFIX|..|PREFIX| + CORE]
  }

  /** The 32 random bytes of the current marker do not hold the prefix, and they occur in
      nothing else that was written to the pipe. */
  ghost predicate CoreFresh(s: State) {
    s.marker.Some? && |s.marker.value| == |PREFIX| + CORE + 1 ==>
      var core := Core(s.marker.value);
      && !Contains(core, PREFIX)
      && if s.sentAt.Some? && s.sentAt.value + |s.marker.value| <= |s.written|
         then !Contains(s.written[..s.sentAt.value], core) && !Contains(s.written[s.sentAt.value + |s.marker.value|..], core)
         else !Contains(s.written, core)
  }

  /** The current marker occurs in the pipe only where the interpreter wrote it. */
  ghost predicate MarkerUnique(s: State) {
    s.marker.Some? ==> forall p :: OccursAt(s.written, s.marker.value, p) ==> s.sentAt == Some(p)
  }

  predicate IsMarker(m: seq<Byte>) {
    |m| == |PREFIX| + CORE + 1 && m == Marker(Core(m))
  }

  lemma FreshIsUnique(s: State)
    requires Barrier(s) && CoreFresh(s)
    ensures MarkerUnique(s)
  {
    if s.marker.Some? {
      var core := Core(s.marker.value);
      forall p | OccursAt(s.written, s.marker.value, p) ensures s.sentAt == Some(p) {
        if s.sentAt.Some? {
          var sent, end := s.sentAt.value, s.sentAt.value + |s.marker.value|;
          assert s.written[..sent] == s.written[0..sent] && s.written[end..] == s.written[end..|s.written|];
          OnlyWhereSent(s.written, core, sent, p);
        } else {
          CoreOccurs(s.written, core, p);
          assert Contains(s.written, core);
        }
      }
    }
  }

  /** Where an outstanding marker can be. */
  ghost predicate Barrier(s: State) {
    && InRange(s)
    && (s.marker.Some? ==> |s.marker.value| == s.size && IsMarker(s.marker.value))
    && (s.marker.Some? && s.sentAt.Some? ==> OccursAt(s.written, s.marker.value, s.sentAt.value))
    && (s.phase == BeginArmed || s.phase == EndArmed ==> s.marker.Some? && !s.event && s.sentAt == None)
    && (s.phase == BeginSent || s.phase == EndSent ==>
          && s.sentAt.Some? && s.event == s.marker.None?
          && s.sentAt.value + s.size <= |s.written|
          && if s.event then s.sentAt.value + s.size <= s.disposed
             else && s.disposed <= s.sentAt.value
                  && OccursAt(s.written, s.marker.value, s.sentAt.value)
                  && (s.holding || s.read < s.sentAt.value + s.size))
    && (s.phase == Inside ==> s.marker.None?)
  }

  /** A cell is being captured. */
  predicate InCell(s: State) {
    s.phase == Inside || s.phase == EndArmed || s.phase == EndSent
  }

  /** The stretch of the stream that the running cell should have got so far. */
  function Stretch(s: State): (data: seq<Byte>)
    requires s.cell.start <= s.disposed <= |s.written|
  {
    if s.phase == EndSent && s.event && s.sentAt.Some?
       && s.cell.start <= s.sentAt.value && s.sentAt.value + s.size <= s.disposed
    then s.written[s.cell.start..s.sentAt.value] + s.written[s.sentAt.value + s.size..s.disposed]
    else s.written[s.cell.start..s.disposed]
  }

  ghost predicate Capturing(s: State) {
    InCell(s) ==>
      && s.output.Some?
      && s.cell.beginEnd <= s.cell.start <= s.cell.begun <= |s.written| && s.cell.start <= s.disposed <= |s.written|
      && (s.phase == EndSent ==> s.sentAt.Some? && s.cell.begun <= s.sentAt.value)
      && Drained(s.output.value) == Stretch(s)
  }

  ghost predicate Inv(s: State) {
    Barrier(s) && Capturing(s)
  }

  lemma InitialInv()
    ensures Inv(Initial())
  {
    assert Initial().phase == Outside && Initial().marker == None;
  }

  // ---------- each step keeps the invariant ----------

  lemma PendingOccurs(written: seq<Byte>, q: nat, r: nat, m: seq<Byte>, p: nat)
    requires q <= r <= |written| && OccursAt(written[q..r], m, p)
    ensures q + p + |m| <= r && OccursAt(written, m, q + p)
  {
    Inner(written, q, r, p, p + |m|);
  }

  lemma OccursInPending(written: seq<Byte>, q: nat, r: nat, m: seq<Byte>, p: nat)
    requires q <= p && p + |m| <= r <= |written| && OccursAt(written, m, p)
    ensures OccursAt(written[q..r], m, p - q)
  {
    Inner(written, q, r, p - q, p - q + |m|);
  }

  /** Searching the pending bytes for a marker that occurs at most once in the stream. */
  lemma FindInPending(written: seq<Byte>, q: nat, r: nat, m: seq<Byte>, sent: Option<nat>)
    requires q <= r <= |written| && m != []
    requires forall p :: OccursAt(written, m, p) ==> sent == Some(p)
    requires sent.Some? ==> q <= sent.value && OccursAt(written, m, sent.value)
    ensures Find(written[q..r], m, 0) ==
            if sent.Some? && sent.value + |m| <= r then Some(sent.value - q) else None
  {
    var found := Find(written[q..r], m, 0);
    if found.Some? {
      PendingOccurs(written, q, r, m, found.value);
    } else if sent.Some? && sent.value + |m| <= r {
      OccursInPending(written, q, r, m, sent.value);
    }
  }

  /** One turn on the pending bytes of a stream in which the marker occurs at most once. */
  lemma TurnFinds(written: seq<Byte>, q: nat, r: nat, m: seq<Byte>, sent: Option<nat>)
    requires q <= r <= |written| && m != []
    requires forall p :: OccursAt(written, m, p) ==> sent == Some(p)
    requires sent.Some? ==> q <= sent.value && OccursAt(written, m, sent.value)
    ensures var t := DrainTurn(written[q..r], Some(m));
            if sent.Some? && sent.value + |m| <= r
            then t == Turn(written[q..sent.value] + written[sent.value + |m|..r], [], true)
            else !t.found && (sent.Some? ==> r - |t.pending| <= sent.value)
  {
    FindInPending(written, q, r, m, sent);
    if sent.Some? && sent.value + |m| <= r {
      var p := sent.value - q;
      Inner(written, q, r, 0, p);
      Inner(written, q, r, p + |m|, r - q);
    }
  }

  /** The marker is found exactly when all of it has been read; until then it lies
      beyond everything disposed of. */
  lemma MarkerAhead(s: State)
    requires Barrier(s) && s.holding && s.marker.Some? && MarkerUnique(s) && s.phase != Outside
    ensures var t := TurnOf(s);
            && (t.found <==> s.sentAt.Some? && s.sentAt.value + s.size <= s.read)
            && (t.found ==> s.disposed <= s.sentAt.value && t.pending == []
                            && t.added == s.written[s.disposed..s.sentAt.value] + s.written[s.sentAt.value + s.size..s.read])
            && (!t.found && s.sentAt.Some? ==> s.read - |t.pending| <= s.sentAt.value)
  {
    TurnFinds(s.written, s.disposed, s.read, s.marker.value, s.sentAt);
  }

  lemma UnfoundAdds(s: State)
    requires InRange(s) && s.holding && !TurnOf(s).found
    ensures TurnOf(s).added == s.written[s.disposed..After(s, Process).disposed]
  {
    var pending, r := s.written[s.disposed..s.read], After(s, Process);
    Inner(s.written, s.disposed, s.read, 0, r.disposed - s.disposed);
  }

  lemma ProcessKeepsBarrier(s: State)
    requires Inv(s) && MarkerUnique(s) && Enabled(s, Process)
    ensures Barrier(After(s, Process))
  {
    if s.marker.Some? && s.phase != Outside { MarkerAhead(s); }
    TurnKeepsSuffix(s.written[s.disposed..s.read], s.marker);
  }

  lemma ProcessCaptures(s: State)
    requires Inv(s) && MarkerUnique(s) && Enabled(s, Process) && InCell(s)
    ensures Capturing(After(s, Process))
  {
    var t, r := TurnOf(s), After(s, Process);
    TurnKeepsSuffix(s.written[s.disposed..s.read], s.marker);
    AddedPiece(s.output.value, Piece(true, t.added));
    if s.marker.Some? { MarkerAhead(s); }
    if t.found {
      assert s.phase == EndSent && r.disposed == s.read;
      FoundStretch(s, r);
    } else {
      UnfoundAdds(s);
      UnfoundStretch(s, r);
    }
  }

  lemma FoundStretch(s: State, r: State)
    requires s.phase == EndSent && s.sentAt.Some? && !s.event
    requires s.cell.start <= s.disposed <= s.sentAt.value && s.sentAt.value + s.size <= r.disposed <= |s.written|
    requires r.written == s.written && r.cell == s.cell && r.phase == s.phase && r.event
    requires r.sentAt == s.sentAt && r.size == s.size
    ensures Stretch(r) == Stretch(s) + (s.written[s.disposed..s.sentAt.value] + s.written[s.sentAt.value + s.size..r.disposed])
  {
    Joined(s.written, s.cell.start, s.disposed, s.sentAt.value);
  }

  lemma UnfoundStretch(s: State, r: State)
    requires Barrier(s) && InCell(s) && s.cell.start <= s.disposed <= r.disposed <= |s.written|
    requires s.phase == EndSent ==> s.cell.start <= s.sentAt.value
    requires r.written == s.written && r.cell == s.cell && r.phase == s.phase && r.event == s.event
    requires r.sentAt == s.sentAt && r.size == s.size
    ensures Stretch(r) == Stretch(s) + s.written[s.disposed..r.disposed]
  {
    if s.phase == EndSent && s.event {
      Joined(s.written, s.sentAt.value + s.size, s.disposed, r.disposed);
    } else {
      Joined(s.written, s.cell.start, s.disposed, r.disposed);
    }
  }

  /** More bytes at the end of the stream change nothing that is already settled. */
  lemma GrowKeeps(s: State, data: seq<Byte>)
    requires Inv(s)
    ensures Inv(s.(written := s.written + data))
  {
    var r := s.(written := s.written + data);
    if s.marker.Some? && s.sentAt.Some? && OccursAt(s.written, s.marker.value, s.sentAt.value) {
      Grown(s.written, data, s.sentAt.value, s.sentAt.value + |s.marker.value|);
    }
    if InCell(s) { StretchGrows(s, r, data); }
  }

  lemma StretchGrows(s: State, r: State, data: seq<Byte>)
    requires s.cell.start <= s.disposed <= |s.written| && r.written == s.written + data
    requires r.cell == s.cell && r.disposed == s.disposed && r.event == s.event
    requires r.phase == s.phase && r.sentAt == s.sentAt && r.size == s.size
    ensures Stretch(r) == Stretch(s)
  {
    Grown(s.written, data, s.cell.start, s.disposed);
    if s.sentAt.Some? && s.cell.start <= s.sentAt.value && s.sentAt.value + s.size <= s.disposed {
      Grown(s.written, data, s.cell.start, s.sentAt.value);
      Grown(s.written, data, s.sentAt.value + s.size, s.disposed);
    }
  }

  lemma SendKeeps(s: State)
    requires Inv(s) && Enabled(s, Send)
    ensures Inv(After(s, Send))
  {
    var m, r := s.marker.value, After(s, Send);
    assert r.written[|s.written|..|s.written| + |m|] == m;
    if s.phase == EndArmed { Grown(s.written, m, s.cell.start, s.disposed); }
  }

  lemma {:induction false} InterpreterKeeps(s: State, step: Step)
    requires Inv(s) && Enabled(s, step) && (step.Print? || step.Arm? || step.Return? || step.TimeOut?)
    ensures Inv(After(s, step))
  {
    match step
    case Print(data) => AddedPiece(s.output.value, Piece(false, data));
    case Arm(core) =>
      assert Core(Marker(core)) == core;
    case Return =>
      assert s.written[s.disposed..s.disposed] == [];
    case TimeOut =>
  }

  lemma {:induction false} StepKeeps(s: State, step: Step)
    requires Inv(s) && CoreFresh(s) && Enabled(s, step)
    ensures Inv(After(s, step))
  {
    FreshIsUnique(s);
    match step
    case Write(data) => GrowKeeps(s, data);
    case Read(count) =>
    case Process =>
      ProcessKeepsBarrier(s);
      if InCell(s) { ProcessCaptures(s); }
    case Send => SendKeeps(s);
    case _ => InterpreterKeeps(s, step);
  }

  // ---------- every run ----------

  ghost predicate IsRun(states: seq<State>, steps: seq<Step>) {
    && |states| == |steps| + 1 && states[0] == Initial()
    && forall i :: 0 <= i < |steps| ==> Enabled(states[i], steps[i]) && states[i + 1] == After(states[i], steps[i])
  }

  lemma {:induction false} RunKeeps(states: seq<State>, steps: seq<Step>, n: nat)
    requires IsRun(states, steps) && n < |states|
    requires forall i :: 0 <= i < |states| ==> CoreFresh(states[i])
    ensures Inv(states[n])
  {
    if n == 0 {
      InitialInv();
    } else {
      RunKeeps(states, steps, n - 1);
      StepKeeps(states[n - 1], steps[n - 1]);
    }
  }

  /** When `end` returns, the cell's drained output is one stretch of the pipe with
      end's marker cut out. It starts after begin's marker and no later than
      begin's return, and it contains in order everything written from then until
      end wrote its marker. An output with a limit keeps a first part of it, all of it
      if nothing is cut, and exactly its first bytes if the interpreter printed nothing
      of its own. */
  lemma CellCapture(states: seq<State>, steps: seq<Step>, n: nat, limit: nat)
    requires IsRun(states, steps) && n < |steps|
    requires forall i :: 0 <= i < |states| ==> CoreFresh(states[i])
    requires steps[n] == Return && states[n].phase == EndSent
    ensures var s := states[n];
            && s.output.Some? && s.sentAt.Some?
            && s.cell.beginEnd <= s.cell.start <= s.cell.begun <= s.sentAt.value
            && s.sentAt.value + s.size <= s.disposed <= |s.written|
            && Drained(s.output.value) ==
                 s.written[s.cell.start..s.cell.begun] + s.written[s.cell.begun..s.sentAt.value]
                 + s.written[s.sentAt.value + s.size..s.disposed]
            && KeptDrained(s.output.value, limit) <= Drained(s.output.value)
            && (|Pieces(s.output.value)| <= limit ==> KeptDrained(s.output.value, limit) == Drained(s.output.value))
            && ((forall i :: 0 <= i < |s.output.value| ==> s.output.value[i].drained) ==>
                  Kept(s.output.value, limit) == Drained(s.output.value)[..Min(limit, |Drained(s.output.value)|)])
  {
    RunKeeps(states, steps, n);
    var s := states[n];
    Joined(s.written, s.cell.start, s.cell.begun, s.sentAt.value);
    KeptIsPrefix(s.output.value, limit);
  }

  /** A barrier cannot be missed: once the drain thread has read past its marker and
      is idle, the event is set. */
  lemma BarrierCompletes(states: seq<State>, steps: seq<Step>, n: nat)
    requires IsRun(states, steps) && n < |states|
    requires forall i :: 0 <= i < |states| ==> CoreFresh(states[i])
    requires states[n].phase == BeginSent || states[n].phase == EndSent
    requires !states[n].holding && states[n].read == |states[n].written|
    ensures states[n].event
  {
    RunKeeps(states, steps, n);
  }
}
