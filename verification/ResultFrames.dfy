/** The nonce-framed command result: its writer (runner/sandbox_v2.py) and the
    streaming reader that removes it from stderr (runner/execution_pod.py).

    The reader sees stderr in arbitrary pieces. Its reference is `Scan`, which
    looks at the whole stream at once and is defined by positions, not by
    chunks. */
module ResultFrames {
  import opened Common

  const FRAME_WINDOW: nat := 8192
  const NEWLINE: Byte := 10
  const RECORD_SEPARATOR: Byte := 0x1e

  type Decoder<!V> = seq<Byte> -> Option<V>

  // ---------- what a frame is ----------

  /** A frame occupies s[p..e+1]: the prefix, a JSON object without a newline,
      and a newline fewer than FRAME_WINDOW bytes after the frame's start. */
  ghost predicate FrameAt<V>(decode: Decoder<V>, prefix: seq<Byte>, s: seq<Byte>, p: int, e: int) {
    && OccursAt(s, prefix, p)
    && p + |prefix| <= e < |s|
    && s[e] == NEWLINE
    && (forall k :: p + |prefix| <= k < e ==> s[k] != NEWLINE)
    && e - p < FRAME_WINDOW
    && decode(s[p + |prefix|..e]).Some?
  }

  datatype Scanned<+V> = Scanned(stderr: seq<Byte>, result: Option<V>)

  ghost predicate NoFrameAt<V>(decode: Decoder<V>, prefix: seq<Byte>, s: seq<Byte>, p: int) {
    forall e :: !FrameAt(decode, prefix, s, p, e)
  }

  ghost predicate FirstFrame<V>(decode: Decoder<V>, prefix: seq<Byte>, s: seq<Byte>, p: int, e: int) {
    && FrameAt(decode, prefix, s, p, e)
    && forall q :: 0 <= q < p ==> NoFrameAt(decode, prefix, s, q)
  }

  /** The whole-stream reading: the first frame, and only it, is taken out. */
  ghost function Scan<V>(decode: Decoder<V>, prefix: seq<Byte>, s: seq<Byte>): (r: Scanned<V>) {
    if exists p, e :: FirstFrame(decode, prefix, s, p, e) then
      var p, e :| FirstFrame(decode, prefix, s, p, e);
      Scanned(s[..p] + s[e + 1..], decode(s[p + |prefix|..e]))
    else Scanned(s, None)
  }

  lemma FirstFrameUnique<V>(decode: Decoder<V>, prefix: seq<Byte>, s: seq<Byte>, p: int, e: int, p': int, e': int)
    requires FirstFrame(decode, prefix, s, p, e) && FirstFrame(decode, prefix, s, p', e')
    ensures p == p' && e == e'
  {
    assert p < p' ==> NoFrameAt(decode, prefix, s, p);
    assert p' < p ==> NoFrameAt(decode, prefix, s, p');
  }

  lemma {:induction false} FirstFrameExists<V>(decode: Decoder<V>, prefix: seq<Byte>, s: seq<Byte>, p: nat, e: int)
    returns (p': int, e': int)
    requires FrameAt(decode, prefix, s, p, e)
    ensures FirstFrame(decode, prefix, s, p', e')
  {
    if forall q :: 0 <= q < p ==> NoFrameAt(decode, prefix, s, q) {
      p', e' := p, e;
    } else {
      var q, f :| 0 <= q < p && FrameAt(decode, prefix, s, q, f);
      p', e' := FirstFrameExists(decode, prefix, s, q, f);
    }
  }

  // ---------- the reader's invariant over a growing stream ----------

  /** No frame starts at p, now or (while the stream is open) after any more bytes. */
  ghost predicate Settled<V>(decode: Decoder<V>, prefix: seq<Byte>, s: seq<Byte>, p: int, closed: bool) {
    if closed then NoFrameAt(decode, prefix, s, p)
    else forall t: seq<Byte> :: NoFrameAt(decode, prefix, s + t, p)
  }

  ghost predicate TakenAt<V>(decode: Decoder<V>, prefix: seq<Byte>, s: seq<Byte>, k: int,
                             emitted: seq<Byte>, value: V, p: int, e: int) {
    && FirstFrame(decode, prefix, s, p, e)
    && e < k <= |s|
    && emitted == s[..p] + s[e + 1..k]
    && decode(s[p + |prefix|..e]) == Some(value)
  }

  /** `emitted` accounts for every byte before the pending ones. */
  ghost predicate Tracks<V>(decode: Decoder<V>, prefix: seq<Byte>, s: seq<Byte>, closed: bool,
                            emitted: seq<Byte>, pending: seq<Byte>, result: Option<V>) {
    && |pending| <= |s|
    && pending == s[|s| - |pending|..]
    && var k := |s| - |pending|;
       match result
       case None =>
         && emitted == s[..k]
         && forall p :: 0 <= p < k ==> Settled(decode, prefix, s, p, closed)
       case Some(value) => exists p, e :: TakenAt(decode, prefix, s, k, emitted, value, p, e)
  }

  lemma FrameExtends<V>(decode: Decoder<V>, prefix: seq<Byte>, s: seq<Byte>, t: seq<Byte>, p: int, e: int)
    requires e < |s|
    ensures FrameAt(decode, prefix, s, p, e) <==> FrameAt(decode, prefix, s + t, p, e)
  {
    var u := s + t;
    if p >= 0 && p + |prefix| <= e {
      assert u[p..p + |prefix|] == s[p..p + |prefix|];
      assert u[p + |prefix|..e] == s[p + |prefix|..e];
      assert forall k :: 0 <= k <= e ==> u[k] == s[k];
    }
  }

  lemma SettledNow<V>(decode: Decoder<V>, prefix: seq<Byte>, s: seq<Byte>, p: int, closed: bool)
    requires Settled(decode, prefix, s, p, closed)
    ensures NoFrameAt(decode, prefix, s, p)
  {
    assert s + [] == s;
  }

  lemma SettledGrows<V>(decode: Decoder<V>, prefix: seq<Byte>, s: seq<Byte>, p: int, more: seq<Byte>, closed: bool)
    requires Settled(decode, prefix, s, p, false)
    ensures Settled(decode, prefix, s + more, p, closed)
  {
    forall t: seq<Byte> ensures NoFrameAt(decode, prefix, s + more + t, p) {
      assert s + more + t == s + (more + t);
    }
    assert s + more + [] == s + more;
  }

  lemma FirstFrameGrows<V>(decode: Decoder<V>, prefix: seq<Byte>, s: seq<Byte>, more: seq<Byte>, p: int, e: int)
    requires FirstFrame(decode, prefix, s, p, e)
    ensures FirstFrame(decode, prefix, s + more, p, e)
  {
    FrameExtends(decode, prefix, s, more, p, e);
    forall q | 0 <= q < p ensures NoFrameAt(decode, prefix, s + more, q) {
      assert NoFrameAt(decode, prefix, s, q);
      forall e' ensures !FrameAt(decode, prefix, s + more, q, e') {
        // The newline that ends the frame at p also bounds any frame at q.
        assert (s + more)[e] == NEWLINE;
        FrameExtends(decode, prefix, s, more, q, Min(e', e));
      }
    }
  }

  // ---------- one step of the reader ----------

  lemma TracksGrows<V>(decode: Decoder<V>, prefix: seq<Byte>, s: seq<Byte>, emitted: seq<Byte>, pending: seq<Byte>,
                       result: Option<V>, chunk: seq<Byte>, closed: bool)
    requires Tracks(decode, prefix, s, false, emitted, pending, result)
    ensures Tracks(decode, prefix, s + chunk, closed, emitted, pending + chunk, result)
  {
    var k, u := |s| - |pending|, s + chunk;
    assert pending + chunk == u[|u| - |pending + chunk|..];
    match result
    case None =>
      assert u[..k] == s[..k];
      forall p | 0 <= p < k ensures Settled(decode, prefix, u, p, closed) {
        SettledGrows(decode, prefix, s, p, chunk, closed);
      }
    case Some(value) =>
      var p, e :| TakenAt(decode, prefix, s, k, emitted, value, p, e);
      FirstFrameGrows(decode, prefix, s, chunk, p, e);
      assert u[..p] == s[..p] && u[e + 1..k] == s[e + 1..k];
      assert u[p + |prefix|..e] == s[p + |prefix|..e];
      assert TakenAt(decode, prefix, u, k, emitted, value, p, e);
  }

  /** Passing on n pending bytes in which no frame starts. */
  lemma TracksPass<V>(decode: Decoder<V>, prefix: seq<Byte>, s: seq<Byte>, closed: bool, emitted: seq<Byte>,
                      pending: seq<Byte>, result: Option<V>, n: nat)
    requires Tracks(decode, prefix, s, closed, emitted, pending, result)
    requires n <= |pending|
    requires result.None? ==> forall p :: |s| - |pending| <= p < |s| - |pending| + n ==> Settled(decode, prefix, s, p, closed)
    ensures Tracks(decode, prefix, s, closed, emitted + pending[..n], pending[n..], result)
  {
    var k := |s| - |pending|;
    assert pending[..n] == s[k..k + n];
    match result
    case None =>
      assert s[..k + n] == s[..k] + s[k..k + n];
      forall p | 0 <= p < k + n ensures Settled(decode, prefix, s, p, closed) {
        assert p >= k || Settled(decode, prefix, s, p, closed);
      }
    case Some(value) =>
      var p, e :| TakenAt(decode, prefix, s, k, emitted, value, p, e);
      assert s[e + 1..k + n] == s[e + 1..k] + s[k..k + n];
      assert TakenAt(decode, prefix, s, k + n, emitted + pending[..n], value, p, e);
  }

  /** Taking the frame at the head of the pending bytes. */
  lemma TracksTake<V>(decode: Decoder<V>, prefix: seq<Byte>, s: seq<Byte>, closed: bool, emitted: seq<Byte>,
                      pending: seq<Byte>, end: nat)
    requires Tracks(decode, prefix, s, closed, emitted, pending, None)
    requires FrameAt(decode, prefix, s, |s| - |pending|, |s| - |pending| + end)
    ensures end < |pending| && |prefix| <= end
    ensures Tracks(decode, prefix, s, closed, emitted, pending[end + 1..], decode(pending[|prefix|..end]))
  {
    var k := |s| - |pending|;
    forall q | 0 <= q < k ensures NoFrameAt(decode, prefix, s, q) {
      SettledNow(decode, prefix, s, q, closed);
    }
    var value := decode(s[k + |prefix|..k + end]).value;
    assert pending[|prefix|..end] == s[k + |prefix|..k + end];
    assert TakenAt(decode, prefix, s, k + end + 1, emitted, value, k, k + end);
  }

  /** Pending bytes without a prefix occurrence: all but the last |prefix| - 1 are settled. */
  lemma NoPrefixSettled<V>(decode: Decoder<V>, prefix: seq<Byte>, s: seq<Byte>, pending: seq<Byte>, closed: bool, i: nat)
    requires |pending| <= |s| && pending == s[|s| - |pending|..]
    requires !OccursAt(pending, prefix, i)
    requires closed || i + |prefix| <= |pending|
    ensures Settled(decode, prefix, s, |s| - |pending| + i, closed)
  {
    var k := |s| - |pending|;
    if i + |prefix| <= |pending| {
      assert s[k + i..k + i + |prefix|] == pending[i..i + |prefix|];
      forall t: seq<Byte> ensures NoFrameAt(decode, prefix, s + t, k + i) {
        assert (s + t)[k + i..k + i + |prefix|] == s[k + i..k + i + |prefix|];
      }
    }
  }

  /** The first newline of s at or after `start`, if any. */
  ghost predicate FirstNewline(s: seq<Byte>, start: nat, end: Option<nat>) {
    match end
    case Some(n) => start <= n < |s| && s[n] == NEWLINE && forall i :: start <= i < n ==> s[i] != NEWLINE
    case None => forall i :: start <= i < |s| ==> s[i] != NEWLINE
  }

  lemma FindNewline(s: seq<Byte>, start: nat)
    ensures FirstNewline(s, start, Find(s, [NEWLINE], start))
  {
    forall i | start <= i < |s| ensures OccursAt(s, [NEWLINE], i) <==> s[i] == NEWLINE {
      assert s[i..i + 1] == [s[i]];
    }
    var end := Find(s, [NEWLINE], start);
    if end.Some? { assert OccursAt(s, [NEWLINE], end.value); }
  }

  /** The pending bytes start with the prefix and the reader decides against a
      frame there: a newline comes first but nothing decodes or the window is
      exceeded, or no newline comes in a full window, or the stream is over. */
  ghost predicate Refused<V>(decode: Decoder<V>, prefix: seq<Byte>, pending: seq<Byte>, closed: bool, end: Option<nat>) {
    match end
    case None => closed || |pending| >= FRAME_WINDOW
    case Some(n) => n >= FRAME_WINDOW || (|prefix| <= n <= |pending| && decode(pending[|prefix|..n]).None?)
  }

  lemma RefusedNoFrame<V>(decode: Decoder<V>, prefix: seq<Byte>, u: seq<Byte>, k: nat, pending: seq<Byte>, e: int,
                          closed: bool, end: Option<nat>)
    requires k + |pending| <= |u| && u[k..k + |pending|] == pending
    requires FirstNewline(pending, |prefix|, end)
    requires Refused(decode, prefix, pending, closed, end)
    requires closed ==> k + |pending| == |u|
    ensures !FrameAt(decode, prefix, u, k, e)
  {
    assert forall i :: 0 <= i < |pending| ==> u[k + i] == pending[i];
    if end.Some? {
      var n := end.value;
      assert u[k + |prefix|..k + n] == pending[|prefix|..n];
      assert FrameAt(decode, prefix, u, k, e) ==> e == k + n;
    }
  }

  lemma RefusedSettled<V>(decode: Decoder<V>, prefix: seq<Byte>, s: seq<Byte>, pending: seq<Byte>, closed: bool,
                          end: Option<nat>)
    requires |pending| <= |s| && pending == s[|s| - |pending|..]
    requires FirstNewline(pending, |prefix|, end)
    requires Refused(decode, prefix, pending, closed, end)
    ensures Settled(decode, prefix, s, |s| - |pending|, closed)
  {
    var k := |s| - |pending|;
    forall t: seq<Byte>, e | closed ==> t == [] ensures !FrameAt(decode, prefix, s + t, k, e) {
      RefusedNoFrame(decode, prefix, s + t, k, pending, e, closed, end);
    }
    assert s + [] == s;
  }

  lemma AcceptedFrame<V>(decode: Decoder<V>, prefix: seq<Byte>, s: seq<Byte>, pending: seq<Byte>, end: nat)
    requires |pending| <= |s| && pending == s[|s| - |pending|..]
    requires OccursAt(pending, prefix, 0)
    requires FirstNewline(pending, |prefix|, Some(end)) && end < FRAME_WINDOW
    requires decode(pending[|prefix|..end]).Some?
    ensures FrameAt(decode, prefix, s, |s| - |pending|, |s| - |pending| + end)
  {
    var k := |s| - |pending|;
    assert forall i :: 0 <= i < |pending| ==> s[k + i] == pending[i];
    assert s[k..k + |prefix|] == pending[0..|prefix|];
    assert s[k + |prefix|..k + end] == pending[|prefix|..end];
    forall i | k + |prefix| <= i < k + end ensures s[i] != NEWLINE {
      assert s[i] == pending[i - k];
    }
  }

  // ---------- the bounded collector ----------

  datatype Stream = Stdout | Stderr

  /** Retains at most `limit` bytes over both streams. `outOffered` and
      `errOffered` are everything each stream was given. */
  class BoundedOutput {
    const limit: nat
    var stdout: seq<Byte>
    var stderr: seq<Byte>
    var truncated: bool
    var used: nat
    ghost var outOffered: seq<Byte>
    ghost var errOffered: seq<Byte>

    ghost predicate Valid()
      reads this
    {
      && stdout <= outOffered && stderr <= errOffered
      && used == |stdout| + |stderr| == Min(limit, |outOffered| + |errOffered|)
      && truncated == (|outOffered| + |errOffered| > limit)
    }

    constructor (limit: nat)
      ensures Valid() && this.limit == limit && outOffered == errOffered == []
    {
      this.limit := limit;
      stdout, stderr, truncated, used := [], [], false, 0;
      outOffered, errOffered := [], [];
    }

    /** Keeps as much of the data as there is room for, from its start. */
    method Add(stream: Stream, data: seq<Byte>)
      requires Valid()
      modifies this
      ensures Valid()
      ensures outOffered == old(outOffered) + if stream == Stdout then data else []
      ensures errOffered == old(errOffered) + if stream == Stderr then data else []
    {
      var room := limit - used;
      var chunk := data[..Min(room, |data|)];
      match stream {
        case Stdout =>
          stdout := stdout + chunk;
          outOffered := outOffered + data;
        case Stderr =>
          stderr := stderr + chunk;
          errOffered := errOffered + data;
      }
      used := used + |chunk|;
      truncated := truncated || |chunk| < |data|;
    }
  }

  // ---------- the reader ----------

  class ResultFrameReader<V(!new)> {
    const prefix: seq<Byte>
    const decode: Decoder<V>
    const output: BoundedOutput
    var pending: seq<Byte>
    var result: Option<V>
    ghost var consumed: seq<Byte>
    ghost var emitted: seq<Byte>
    ghost var closed: bool

    ghost predicate Valid()
      reads this, output
    {
      && prefix != []
      && output.Valid()
      && output.errOffered == emitted
      && Tracks(decode, prefix, consumed, closed, emitted, pending, result)
    }

    constructor (prefix: seq<Byte>, decode: Decoder<V>, output: BoundedOutput)
      requires prefix != [] && output.Valid() && output.errOffered == []
      ensures Valid() && this.output == output && this.prefix == prefix && this.decode == decode
      ensures consumed == [] && !closed
    {
      this.prefix, this.decode, this.output := prefix, decode, output;
      pending, result := [], None;
      consumed, emitted, closed := [], [], false;
    }

    /** No frame starts at any of the first n pending bytes. */
    ghost predicate SettledBelow(n: nat)
      reads this
    {
      var k := |consumed| - |pending|;
      forall p :: k <= p < k + n ==> Settled(decode, prefix, consumed, p, closed)
    }

    /** Hands the first n pending bytes to the collector as stderr. */
    method Pass(n: nat)
      requires Valid() && n <= |pending|
      requires result.None? ==> SettledBelow(n)
      modifies this`pending, this`emitted, output
      ensures Valid() && pending == old(pending)[n..]
      ensures output.outOffered == old(output.outOffered)
    {
      TracksPass(decode, prefix, consumed, closed, emitted, pending, result, n);
      output.Add(Stderr, pending[..n]);
      emitted := emitted + pending[..n];
      pending := pending[n..];
    }

    /** Takes the frame at the head of the pending bytes. */
    method Take(end: nat)
      requires Valid() && result.None? && OccursAt(pending, prefix, 0)
      requires Find(pending, [NEWLINE], |prefix|) == Some(end) && end < FRAME_WINDOW && end < |pending|
      requires decode(pending[|prefix|..end]).Some?
      modifies this`pending, this`result
      ensures Valid() && pending == old(pending)[end + 1..] && result == decode(old(pending)[|prefix|..end])
    {
      TakeHead(end);
      result := decode(pending[|prefix|..end]);
      pending := pending[end + 1..];
    }

    /** The pending bytes start with the prefix: wait, take the frame, or pass one byte. */
    method Head(final: bool) returns (again: bool)
      requires Valid() && closed == final && OccursAt(pending, prefix, 0)
      modifies this`pending, this`result, this`emitted, output
      ensures Valid()
      ensures if again then |pending| < |old(pending)| else !final && |pending| < FRAME_WINDOW
      ensures output.outOffered == old(output.outOffered)
    {
      var end := Find(pending, [NEWLINE], |prefix|);
      if end.None? && |pending| < FRAME_WINDOW && !final {
        return false;
      }
      if end.Some? && end.value < FRAME_WINDOW {
        var parsed := decode(pending[|prefix|..end.value]);
        if parsed.Some? && result.None? {
          Take(end.value);
          return true;
        }
      }
      if result.None? {
        RefuseHead(end);
      }
      Pass(1);
      again := true;
    }

    /** One turn of the reading loop; `again` unless more input is needed. */
    method Turn(final: bool) returns (again: bool)
      requires Valid() && closed == final && pending != []
      modifies this`pending, this`result, this`emitted, output
      ensures Valid()
      ensures if again then |pending| < |old(pending)|
              else if final then pending == [] else |pending| < Max(FRAME_WINDOW, |prefix|)
      ensures output.outOffered == old(output.outOffered)
    {
      var position := Find(pending, prefix, 0);
      if position.None? {
        var count := if final then |pending| else Max(0, |pending| - |prefix| + 1);
        SettleWithoutPrefix(count);
        Pass(count);
        return false;
      }
      if position.value > 0 {
        SettleWithoutPrefix(position.value);
        assert pending[position.value..][0..|prefix|] == prefix;
        Pass(position.value);
      }
      again := Head(final);
    }

    /** Reads one more piece of stderr. Every byte read is either passed on,
        part of the first frame, or still pending; an open stream never holds
        back a whole window, and a closed one holds back nothing. */
    method Add(chunk: seq<Byte>, final: bool)
      requires Valid() && !closed
      modifies this`pending, this`result, this`consumed, this`emitted, this`closed, output
      ensures Valid()
      ensures consumed == old(consumed) + chunk && closed == final
      ensures if final then pending == [] else |pending| < Max(FRAME_WINDOW, |prefix|)
      ensures output.outOffered == old(output.outOffered)
    {
      TracksGrows(decode, prefix, consumed, emitted, pending, result, chunk, final);
      pending := pending + chunk;
      consumed, closed := consumed + chunk, final;
      while pending != []
        invariant Valid() && closed == final && consumed == old(consumed) + chunk
        invariant output.outOffered == old(output.outOffered)
        decreases |pending|
      {
        var again := Turn(final);
        if !again {
          return;
        }
      }
    }

    lemma TakeHead(end: nat)
      requires Valid() && result.None? && OccursAt(pending, prefix, 0)
      requires Find(pending, [NEWLINE], |prefix|) == Some(end) && end < FRAME_WINDOW && end < |pending|
      requires decode(pending[|prefix|..end]).Some?
      ensures Tracks(decode, prefix, consumed, closed, emitted, pending[end + 1..], decode(pending[|prefix|..end]))
    {
      FindNewline(pending, |prefix|);
      AcceptedFrame(decode, prefix, consumed, pending, end);
      TracksTake(decode, prefix, consumed, closed, emitted, pending, end);
    }

    lemma RefuseHead(end: Option<nat>)
      requires Valid() && OccursAt(pending, prefix, 0)
      requires end == Find(pending, [NEWLINE], |prefix|) && Refused(decode, prefix, pending, closed, end)
      ensures SettledBelow(1)
    {
      FindNewline(pending, |prefix|);
      RefusedSettled(decode, prefix, consumed, pending, closed, end);
    }

    /** Once the stream is closed, the reader has done exactly the whole-stream scan. */
    method Close()
      requires Valid() && !closed
      modifies this`pending, this`result, this`consumed, this`emitted, this`closed, output
      ensures output.Valid() && output.outOffered == old(output.outOffered)
      ensures Scan(decode, prefix, old(consumed)) == Scanned(output.errOffered, result)
    {
      Add([], true);
      assert consumed == old(consumed);
      ClosedIsScan(decode, prefix, consumed, emitted, result);
    }

    lemma SettleWithoutPrefix(n: nat)
      requires Valid() && n <= |pending|
      requires forall i :: 0 <= i < n ==> !OccursAt(pending, prefix, i)
      requires n == 0 || closed || n + |prefix| <= |pending| + 1
      ensures SettledBelow(n)
    {
      var k := |consumed| - |pending|;
      forall p | k <= p < k + n ensures Settled(decode, prefix, consumed, p, closed) {
        NoPrefixSettled(decode, prefix, consumed, pending, closed, p - k);
      }
    }
  }

  /** Once the stream is closed, the reader has done exactly the whole-stream scan. */
  lemma ClosedIsScan<V>(decode: Decoder<V>, prefix: seq<Byte>, s: seq<Byte>, emitted: seq<Byte>, result: Option<V>)
    requires Tracks(decode, prefix, s, true, emitted, [], result)
    ensures Scan(decode, prefix, s) == Scanned(emitted, result)
  {
    match result
    case None =>
      assert s[..|s|] == s;
      forall p, e ensures !FirstFrame(decode, prefix, s, p, e) {
        if 0 <= p < |s| { assert Settled(decode, prefix, s, p, true); }
      }
    case Some(value) =>
      var p, e :| TakenAt(decode, prefix, s, |s|, emitted, value, p, e);
      assert s[e + 1..|s|] == s[e + 1..];
      ScanAt(decode, prefix, s, p, e);
  }

  lemma ScanAt<V>(decode: Decoder<V>, prefix: seq<Byte>, s: seq<Byte>, p: int, e: int)
    requires FirstFrame(decode, prefix, s, p, e)
    ensures Scan(decode, prefix, s) == Scanned(s[..p] + s[e + 1..], decode(s[p + |prefix|..e]))
  {
    var p', e' :| FirstFrame(decode, prefix, s, p', e')
               && Scan(decode, prefix, s) == Scanned(s[..p'] + s[e' + 1..], decode(s[p' + |prefix|..e']));
    FirstFrameUnique(decode, prefix, s, p, e, p', e');
  }

  /** The emitted bytes are the stream with exactly the first frame removed, or the stream itself. */
  lemma ScanRemovesAtMostOneFrame<V>(decode: Decoder<V>, prefix: seq<Byte>, s: seq<Byte>)
    ensures var r := Scan(decode, prefix, s);
            if r.result.None? then r.stderr == s && forall p: nat :: NoFrameAt(decode, prefix, s, p)
            else exists p, e :: FirstFrame(decode, prefix, s, p, e) && r.stderr == s[..p] + s[e + 1..]
  {
    if p: nat, e :| FrameAt(decode, prefix, s, p, e) {
      var p', e' := FirstFrameExists(decode, prefix, s, p, e);
      ScanAt(decode, prefix, s, p', e');
    }
  }

  // ---------- draining a transport ----------

  datatype Event = Event(stream: Stream, chunk: seq<Byte>)

  /** Everything one stream carried, however it was cut. */
  function Carried(events: seq<Event>, stream: Stream): (s: seq<Byte>) {
    if events == [] then []
    else
      var last := events[|events| - 1];
      Carried(events[..|events| - 1], stream) + if last.stream == stream then last.chunk else []
  }

  datatype Drained<+V> = Drained(stdout: seq<Byte>, stderr: seq<Byte>, truncated: bool, result: Option<V>)

  /** Gives one event to the reader or the collector. */
  method Feed<V(!new)>(frame: ResultFrameReader<V>, event: Event)
    requires frame.Valid() && !frame.closed
    modifies frame`pending, frame`result, frame`consumed, frame`emitted, frame`closed, frame.output
    ensures frame.Valid() && !frame.closed
    ensures frame.consumed == old(frame.consumed) + if event.stream == Stderr then event.chunk else []
    ensures frame.output.outOffered ==
            old(frame.output.outOffered) + if event.stream == Stdout then event.chunk else []
  {
    if event.stream == Stderr {
      frame.Add(event.chunk, false);
    } else {
      frame.output.Add(Stdout, event.chunk);
    }
  }

  /** Reads both streams of a framed transport to their end. */
  method FeedAll<V(!new)>(frame: ResultFrameReader<V>, events: seq<Event>)
    requires frame.Valid() && !frame.closed && frame.consumed == [] && frame.output.outOffered == []
    modifies frame`pending, frame`result, frame`consumed, frame`emitted, frame`closed, frame.output
    ensures frame.Valid() && !frame.closed
    ensures frame.consumed == Carried(events, Stderr) && frame.output.outOffered == Carried(events, Stdout)
  {
    for i := 0 to |events|
      invariant frame.Valid() && !frame.closed
      invariant frame.consumed == Carried(events[..i], Stderr)
      invariant frame.output.outOffered == Carried(events[..i], Stdout)
    {
      assert events[..i + 1][..i] == events[..i];
      Feed(frame, events[i]);
    }
    assert events[..|events|] == events;
  }

  method ReadToEnd<V(!new)>(frame: ResultFrameReader<V>, events: seq<Event>)
    requires frame.Valid() && !frame.closed && frame.consumed == [] && frame.output.outOffered == []
    modifies frame`pending, frame`result, frame`consumed, frame`emitted, frame`closed, frame.output
    ensures frame.output.Valid() && frame.output.outOffered == Carried(events, Stdout)
    ensures Scan(frame.decode, frame.prefix, Carried(events, Stderr)) == Scanned(frame.output.errOffered, frame.result)
  {
    FeedAll(frame, events);
    frame.Close();
  }

  /** The result and the collected bytes of a framed transport are those of its
      uncut streams, whatever the chunks and their interleaving were. */
  method DrainProcess<V(!new)>(events: seq<Event>, limit: nat, prefix: seq<Byte>, decode: Decoder<V>)
    returns (d: Drained<V>)
    requires prefix != []
    ensures var out, err := Carried(events, Stdout), Scan(decode, prefix, Carried(events, Stderr));
            && d.result == err.result
            && d.stdout <= out && d.stderr <= err.stderr
            && |d.stdout| + |d.stderr| == Min(limit, |out| + |err.stderr|)
            && (d.truncated <==> |out| + |err.stderr| > limit)
  {
    var output := new BoundedOutput(limit);
    var frame := new ResultFrameReader<V>(prefix, decode, output);
    ReadToEnd(frame, events);
    d := Drained(output.stdout, output.stderr, output.truncated, frame.result);
  }

  // ---------- the writer, and the round trip ----------

  /** "aidash-result:" */
  const LABEL: seq<Byte> := [97, 105, 100, 97, 115, 104, 45, 114, 101, 115, 117, 108, 116, 58]

  const COLON: Byte := 58

  predicate HexToken(token: seq<Byte>) {
    |token| == 64 && forall i :: 0 <= i < |token| ==> 48 <= token[i] <= 57 || 97 <= token[i] <= 102
  }

  function Prefix(token: seq<Byte>): (prefix: seq<Byte>) {
    [RECORD_SEPARATOR] + LABEL + token + [COLON]
  }

  function Frame(token: seq<Byte>, json: seq<Byte>): (frame: seq<Byte>) {
    Prefix(token) + json + [NEWLINE]
  }

  /** The prefix has no self-overlap: its first byte occurs nowhere else in it. */
  lemma PrefixUnbordered(token: seq<Byte>, i: nat)
    requires HexToken(token) && 0 < i < |Prefix(token)|
    ensures Prefix(token)[i] != RECORD_SEPARATOR && |Prefix(token)| == 80
  {
    assert 15 <= i < 79 ==> Prefix(token)[i] == token[i - 15];
  }

  /** The prefix cannot occur across the boundary between the user's bytes and the frame. */
  lemma PrefixNotAcross(token: seq<Byte>, user: seq<Byte>, rest: seq<Byte>, p: nat)
    requires HexToken(token) && p < |user| < p + |Prefix(token)|
    ensures !OccursAt(user + Prefix(token) + rest, Prefix(token), p)
  {
    var prefix := Prefix(token);
    var s := user + prefix + rest;
    PrefixUnbordered(token, |user| - p);
    assert s[|user|] == RECORD_SEPARATOR;
    assert s[p..p + |prefix|][|user| - p] == s[|user|];
  }

  /** Whatever surrounds it and however the stream is cut, a frame that fits the
      window is recovered and the user's bytes come back unchanged. */
  lemma FrameRoundTrip<V>(decode: Decoder<V>, token: seq<Byte>, user: seq<Byte>, json: seq<Byte>, tail: seq<Byte>)
    requires HexToken(token)
    requires forall p :: !OccursAt(user, Prefix(token), p)
    requires NEWLINE !in json && decode(json).Some?
    requires |Prefix(token)| + |json| < FRAME_WINDOW
    ensures Scan(decode, Prefix(token), user + Frame(token, json) + tail) == Scanned(user + tail, decode(json))
  {
    var prefix := Prefix(token);
    var s, p := user + Frame(token, json) + tail, |user|;
    var e := p + |prefix| + |json|;
    assert s == user + prefix + (json + [NEWLINE] + tail);
    assert s[p..p + |prefix|] == prefix;
    assert s[p + |prefix|..e] == json;
    assert s[e] == NEWLINE;
    assert forall k :: p + |prefix| <= k < e ==> s[k] == json[k - p - |prefix|];
    assert FrameAt(decode, prefix, s, p, e);
    forall q | 0 <= q < p ensures NoFrameAt(decode, prefix, s, q) {
      if q + |prefix| > |user| {
        PrefixNotAcross(token, user, json + [NEWLINE] + tail, q);
      } else {
        assert s[q..q + |prefix|] == user[q..q + |prefix|];
        assert !OccursAt(user, prefix, q);
      }
    }
    ScanAt(decode, prefix, s, p, e);
    assert s[..p] == user && s[e + 1..] == tail;
  }

  /** If the prefix occurs nowhere else, the window is exactly what decides recovery: a
      longer frame is passed on as ordinary stderr and no result is found. JSON text has no
      separator byte, for it escapes control characters. */
  lemma FrameRecoveredIffFits<V>(decode: Decoder<V>, token: seq<Byte>, user: seq<Byte>, json: seq<Byte>, tail: seq<Byte>)
    requires HexToken(token)
    requires forall p :: !OccursAt(user, Prefix(token), p)
    requires NEWLINE !in json && decode(json).Some? && RECORD_SEPARATOR !in json
    requires forall p :: !OccursAt(tail, Prefix(token), p)
    ensures var fits, s := 80 + |json| < 8192, user + Frame(token, json) + tail;
            Scan(decode, Prefix(token), s) == if fits then Scanned(user + tail, decode(json)) else Scanned(s, None)
  {
    var prefix := Prefix(token);
    PrefixUnbordered(token, 1);
    var s := user + Frame(token, json) + tail;
    if |prefix| + |json| < FRAME_WINDOW {
      FrameRoundTrip(decode, token, user, json, tail);
    } else {
      forall p, e ensures !FrameAt(decode, prefix, s, p, e) {
        if 0 <= p < |s| { PrefixPlaces(token, user, json, tail, p); }
        var end := |user| + |prefix| + |json|;
        assert s[end] == NEWLINE;
        assert forall k :: |user| + |prefix| <= k < end ==> s[k] == json[k - |user| - |prefix|];
      }
    }
  }

  lemma PrefixInTail(head: seq<Byte>, tail: seq<Byte>, prefix: seq<Byte>, p: nat)
    requires |head| <= p && forall q :: !OccursAt(tail, prefix, q)
    ensures !OccursAt(head + tail, prefix, p)
  {
    assert !OccursAt(tail, prefix, p - |head|);
    assert p + |prefix| <= |head + tail| ==>
             (head + tail)[p..p + |prefix|] == tail[p - |head|..p - |head| + |prefix|];
  }

  lemma PrefixPlaces(token: seq<Byte>, user: seq<Byte>, json: seq<Byte>, tail: seq<Byte>, p: nat)
    requires HexToken(token) && p < |user + Frame(token, json) + tail|
    requires forall q :: !OccursAt(user, Prefix(token), q)
    requires RECORD_SEPARATOR !in json && forall q :: !OccursAt(tail, Prefix(token), q)
    ensures OccursAt(user + Frame(token, json) + tail, Prefix(token), p) ==> p == |user|
  {
    var prefix := Prefix(token);
    var s := user + Frame(token, json) + tail;
    assert s == user + prefix + (json + [NEWLINE] + tail);
    if p + |prefix| <= |user| {
      assert s[p..p + |prefix|] == user[p..p + |prefix|];
      assert !OccursAt(user, prefix, p);
    } else if p < |user| {
      PrefixNotAcross(token, user, json + [NEWLINE] + tail, p);
    } else if |user| < p < |user| + |prefix| {
      PrefixUnbordered(token, p - |user|);
    } else if |user| < p < |s| - |tail| {
      assert s[p] == (json + [NEWLINE] + tail)[p - |user| - |prefix|];
      assert s[p] != RECORD_SEPARATOR;
    } else if p >= |s| - |tail| {
      PrefixInTail(user + Frame(token, json), tail, prefix, p);
    }
    assert OccursAt(s, prefix, p) ==> s[p..p + |prefix|][0] == s[p];
  }
}
