/** Staged input files: chunked upload into the runner's journal (runner/control.py),
    then forwarding into the sandbox and publication there (runner/collector.py).

    SHA-256 is a parameter `sha`; where a result needs it, it is assumed injective.
    A path stands for a scope and a relative path. */
module StagedInput {
  import opened Common

  const CHUNK: nat := 4194304

  type Sha = seq<Byte> -> string

  ghost predicate Injective(sha: Sha) {
    forall a, b :: sha(a) == sha(b) ==> a == b
  }

  /** One entry of a request's file manifest. */
  datatype Entry = Entry(id: string, path: string, size: nat, digest: string)

  type Files = map<string, seq<Byte>>

  /** Files are only ever created or appended to. */
  ghost predicate Extends(before: Files, after: Files) {
    forall id :: id in before ==> id in after && before[id] <= after[id]
  }

  ghost predicate Staged(files: Files, id: string, offset: int, data: seq<Byte>) {
    id in files && 0 <= offset && offset + |data| <= |files[id]| && files[id][offset..offset + |data|] == data
  }

  function EntryOf(manifest: seq<Entry>, id: string): (r: Option<Entry>)
    ensures r.Some? ==> r.value in manifest && r.value.id == id
    ensures r.None? ==> forall e :: e in manifest ==> e.id != id
  {
    if manifest == [] then None
    else if manifest[0].id == id then Some(manifest[0])
    else EntryOf(manifest[1..], id)
  }

  /** Every manifest file is there, with its declared size and digest. */
  ghost predicate Complete(sha: Sha, manifest: seq<Entry>, files: Files) {
    forall e :: e in manifest ==> e.id in files && |files[e.id]| == e.size && sha(files[e.id]) == e.digest
  }

  // ---------- upload ----------

  class Upload {
    const sha: Sha
    const manifest: seq<Entry>
    var awaiting: bool
    var staged: Files

    constructor (sha: Sha, manifest: seq<Entry>)
      ensures this.sha == sha && this.manifest == manifest && awaiting && staged == map[]
    {
      this.sha, this.manifest := sha, manifest;
      awaiting, staged := true, map[];
    }

    /** Accepts a chunk that continues the file or repeats bytes it already has. */
    method InputChunk(id: string, offset: int, data: seq<Byte>) returns (r: Result<int>)
      modifies this`staged
      ensures Extends(old(staged), staged)
      ensures forall other :: other != id && other in staged ==>
                                other in old(staged) && staged[other] == old(staged)[other]
      ensures r.Ok? ==> r.value == offset + |data| && Staged(staged, id, offset, data)
      ensures r.Ok? <==>
              && awaiting && (exists e :: e in manifest && e.id == id) && 0 <= offset && |data| <= CHUNK
              && offset + |data| <= EntryOf(manifest, id).value.size
              && var now := if id in old(staged) then old(staged)[id] else [];
                 offset == |now| || (offset < |now| && Staged(map[id := now], id, offset, data))
      ensures id in staged ==>
              var now := if id in old(staged) then old(staged)[id] else [];
              staged[id] == if r.Ok? && offset == |now| then now + data else now
    {
      var entry := EntryOf(manifest, id);
      if !awaiting {
        return Err("input staging is closed");
      }
      if entry.None? {
        return Err("input unavailable");
      }
      if offset < 0 || |data| > CHUNK || offset + |data| > entry.value.size {
        return Err("invalid chunk range");
      }
      if id !in staged {
        staged := staged[id := []];
      }
      var now := staged[id];
      if offset < |now| {
        // A read past the end is short and so differs from the data.
        if now[offset..Min(offset + |data|, |now|)] != data {
          return Err("chunk digest conflict");
        }
      } else if offset == |now| {
        staged := staged[id := now + data];
        assert (now + data)[offset..offset + |data|] == data;
      } else {
        return Err("missing preceding chunk");
      }
      r := Ok(offset + |data|);
    }

    /** Closes the upload once every file is complete, and never reopens it. */
    method CommitInputs() returns (r: Result<bool>)
      modifies this`awaiting
      ensures !old(awaiting) ==> r == Ok(false) && !awaiting
      ensures old(awaiting) ==> (r.Ok? <==> Complete(sha, manifest, staged)) && awaiting == r.Err?
    {
      if !awaiting {
        return Ok(false);
      }
      for i := 0 to |manifest|
        invariant awaiting
        invariant Complete(sha, manifest[..i], staged)
      {
        var file := manifest[i];
        assert file in manifest;
        if file.id !in staged || |staged[file.id]| != file.size {
          return Err("incomplete input");
        }
        if sha(staged[file.id]) != file.digest {
          return Err("input digest mismatch");
        }
        assert manifest[..i + 1] == manifest[..i] + [file];
      }
      assert manifest[..|manifest|] == manifest;
      awaiting := false;
      r := Ok(true);
    }
  }

  /** Over any number of later requests, an accepted chunk stays where it was put. */
  lemma {:induction false} AcceptedChunkStays(history: seq<Files>, id: string, offset: int, data: seq<Byte>)
    requires history != [] && Staged(history[0], id, offset, data)
    requires forall i :: 0 <= i < |history| - 1 ==> Extends(history[i], history[i + 1])
    ensures Staged(history[|history| - 1], id, offset, data)
    decreases |history|
  {
    if |history| > 1 {
      var a, b := history[0], history[1];
      assert Extends(a, b);
      assert b[id][offset..offset + |data|] == a[id][offset..offset + |data|];
      forall i | 0 <= i < |history[1..]| - 1 ensures Extends(history[1..][i], history[1..][i + 1]) {
        assert Extends(history[i + 1], history[i + 2]);
      }
      AcceptedChunkStays(history[1..], id, offset, data);
    }
  }

  // ---------- forwarding ----------

  /** `seek(offset); write(data)` on a file: what it overwrites, and zeros in a gap. Writing
      nothing changes nothing. */
  function Written(content: seq<Byte>, offset: nat, data: seq<Byte>): (r: seq<Byte>) {
    if data == [] then content
    else
      var start := if |content| < offset then content + seq(offset - |content|, _ => 0) else content[..offset];
      start + data + if offset + |data| < |content| then content[offset + |data|..] else []
  }

  /** The data is where it was written, what lies before and behind it stays, and a gap reads
      as zeros. */
  lemma WrittenExactly(content: seq<Byte>, offset: nat, data: seq<Byte>, i: nat)
    requires data != [] && i < |Written(content, offset, data)|
    ensures var r := Written(content, offset, data);
            && |r| == Max(|content|, offset + |data|)
            && r[i] == if offset <= i < offset + |data| then data[i - offset] else if i < |content| then content[i] else 0
  {
  }

  /** The sandbox side: its input files and, once published, its request. */
  class Collector {
    const sha: Sha
    var files: Files
    var request: Option<string>

    constructor (sha: Sha)
      ensures this.sha == sha && files == map[] && request == None
    {
      this.sha := sha;
      files, request := map[], None;
    }

    /** Writes one chunk; the first one starts the file over. Refused once the request is published. */
    method WriteInput(path: string, offset: int, data: seq<Byte>) returns (ok: bool)
      modifies this`files
      ensures ok <==> request.None? && |data| <= CHUNK && 0 <= offset
      ensures !ok ==> files == old(files)
      ensures ok ==>
              var now := if path in old(files) && offset != 0 then old(files)[path] else [];
              files == old(files)[path := Written(now, offset, data)]
    {
      if request.Some? {
        return false;
      }
      if |data| > CHUNK || offset < 0 {
        return false;
      }
      var content := if path in files && offset != 0 then files[path] else [];
      files := files[path := Written(content, offset, data)];
      ok := true;
    }

    /** The controller's forwarding loop for one file. Whatever an earlier attempt
        left behind, the sandbox ends with exactly the staged bytes. */
    method Forward(path: string, source: seq<Byte>)
      requires request.None?
      modifies this`files
      ensures files == old(files)[path := source]
    {
      var offset := 0;
      while true
        invariant 0 <= offset <= |source|
        invariant files == if offset == 0 then old(files) else old(files)[path := source[..offset]]
        decreases |source| - offset
      {
        var data := source[offset..Min(offset + CHUNK, |source|)];
        if data == [] && offset != 0 {
          assert source[..offset] == source;
          return;
        }
        var ok := WriteInput(path, offset, data);
        assert Written(source[..offset], offset, data) == source[..offset + |data|];
        offset := offset + |data|;
        if data == [] {
          assert source[..offset] == source;
          return;
        }
      }
    }

    /** Forwards every file of a manifest. */
    method ForwardAll(manifest: seq<Entry>, staged: Files)
      requires request.None? && forall e :: e in manifest ==> e.id in staged
      modifies this`files
      ensures DistinctPaths(manifest) ==> Arrived(manifest, staged, files)
    {
      for i := 0 to |manifest|
        invariant DistinctPaths(manifest) ==> Arrived(manifest[..i], staged, files)
      {
        assert manifest[i] in manifest;
        ghost var before := files;
        Forward(manifest[i].path, staged[manifest[i].id]);
        assert manifest[..i + 1] == manifest[..i] + [manifest[i]];
        if DistinctPaths(manifest) {
          forall e | e in manifest[..i] ensures e.path != manifest[i].path {
            var j :| 0 <= j < i && manifest[j] == e;
          }
        }
      }
      assert manifest[..|manifest|] == manifest;
    }

    /** The checks before publication: no path twice, sizes and digests as declared, within quota. */
    method CheckFiles(manifest: seq<Entry>, quota: nat) returns (ok: bool)
      ensures ok <==> DistinctPaths(manifest) && Checked(sha, manifest, files) && Total(manifest) <= quota
    {
      var total, seen := 0, {};
      for i := 0 to |manifest|
        invariant total == Total(manifest[..i]) <= quota
        invariant seen == Paths(manifest[..i])
        invariant DistinctPaths(manifest[..i]) && Checked(sha, manifest[..i], files)
      {
        var entry := manifest[i];
        OneMore(sha, files, manifest, i);
        assert entry in manifest;
        if entry.path in seen {
          SeenTwice(manifest, i);
          return false;
        }
        seen := seen + {entry.path};
        total := total + entry.size;
        if entry.path !in files || |files[entry.path]| != entry.size {
          return false;
        }
        if total > quota || sha(files[entry.path]) != entry.digest {
          TotalWithin(manifest, i + 1);
          return false;
        }
      }
      assert manifest[..|manifest|] == manifest;
      ok := true;
    }

    /** Publishes the request after checking every file; a repeat only compares digests. */
    method Hydrate(manifest: seq<Entry>, quota: nat, digest: string) returns (ok: bool)
      modifies this`request
      ensures old(request).Some? ==> request == old(request) && (ok <==> request == Some(digest))
      ensures old(request).None? ==>
              && (ok <==> DistinctPaths(manifest) && Checked(sha, manifest, files) && Total(manifest) <= quota)
              && request == if ok then Some(digest) else None
    {
      if request.Some? {
        return request.value == digest;
      }
      ok := CheckFiles(manifest, quota);
      if ok {
        request := Some(digest);
      }
    }
  }

  ghost function Paths(manifest: seq<Entry>): (paths: set<string>) {
    set e | e in manifest :: e.path
  }

  /** What one more manifest entry adds to each check. */
  lemma OneMore(sha: Sha, files: Files, manifest: seq<Entry>, i: nat)
    requires i < |manifest|
    ensures var m, n, e := manifest[..i], manifest[..i + 1], manifest[i];
            && Paths(n) == Paths(m) + {e.path} && Total(n) == Total(m) + e.size
            && (DistinctPaths(n) <==> DistinctPaths(m) && e.path !in Paths(m))
            && (Checked(sha, n, files) <==> Checked(sha, m, files) && Checked(sha, [e], files))
  {
    var m, n, e := manifest[..i], manifest[..i + 1], manifest[i];
    assert n == m + [e] && n[..i] == m;
    if e.path in Paths(m) { SeenTwice(n, i); }
  }

  lemma SeenTwice(manifest: seq<Entry>, i: nat)
    requires i < |manifest| && manifest[i].path in Paths(manifest[..i])
    ensures !DistinctPaths(manifest)
  {
    var e :| e in manifest[..i] && e.path == manifest[i].path;
    var j :| 0 <= j < i && manifest[j] == e;
  }

  ghost predicate DistinctPaths(manifest: seq<Entry>) {
    forall i, j :: 0 <= i < j < |manifest| ==> manifest[i].path != manifest[j].path
  }

  /** The sandbox has every file of the manifest as it was staged. */
  ghost predicate Arrived(manifest: seq<Entry>, staged: Files, files: Files) {
    forall e :: e in manifest ==>
                  e.id in staged && e.path in files && files[e.path] == staged[e.id]
  }

  ghost predicate Checked(sha: Sha, manifest: seq<Entry>, files: Files) {
    forall e :: e in manifest ==> e.path in files && |files[e.path]| == e.size && sha(files[e.path]) == e.digest
  }

  function Total(manifest: seq<Entry>): (n: nat) {
    if manifest == [] then 0 else Total(manifest[..|manifest| - 1]) + manifest[|manifest| - 1].size
  }

  lemma {:induction false} TotalWithin(manifest: seq<Entry>, n: nat)
    requires n <= |manifest|
    ensures Total(manifest[..n]) <= Total(manifest)
    decreases |manifest| - n
  {
    if n < |manifest| {
      assert manifest[..n + 1][..n] == manifest[..n];
      TotalWithin(manifest, n + 1);
    } else {
      assert manifest[..n] == manifest;
    }
  }

  // ---------- end to end ----------

  /** A committed upload, forwarded after any cut-off attempts and then published:
      the forwarded files pass the sandbox's own check. */
  lemma ForwardedIsAccepted(sha: Sha, manifest: seq<Entry>, staged: Files, files: Files)
    requires Complete(sha, manifest, staged) && Arrived(manifest, staged, files)
    ensures Checked(sha, manifest, files)
  {}

  /** One thing that can happen to the sandbox's input before and around publication:
      a chunk written by any forwarding attempt (complete or cut off), or a publication. */
  datatype Action = Write(path: string, offset: int, data: seq<Byte>) | Publish(manifest: seq<Entry>, quota: nat, digest: string)

  datatype Sandbox = Sandbox(files: Files, request: Option<string>)

  ghost function After(sha: Sha, s: Sandbox, action: Action): (r: Sandbox) {
    if s.request.Some? then s
    else
      match action
      case Write(path, offset, data) =>
        if |data| > CHUNK || offset < 0 then s
        else
          var now := if path in s.files && offset != 0 then s.files[path] else [];
          s.(files := s.files[path := Written(now, offset, data)])
      case Publish(manifest, quota, digest) =>
        if DistinctPaths(manifest) && Checked(sha, manifest, s.files) && Total(manifest) <= quota
        then s.(request := Some(digest)) else s
  }

  ghost function Run(sha: Sha, s: Sandbox, actions: seq<Action>): (r: Sandbox)
    decreases |actions|
  {
    if actions == [] then s else Run(sha, After(sha, s, actions[0]), actions[1..])
  }

  /** Every publication in these actions carries this request's own manifest. */
  ghost predicate PublishesOnly(actions: seq<Action>, manifest: seq<Entry>) {
    forall a :: a in actions && a.Publish? ==> a.manifest == manifest
  }

  /** However forwarding attempts were cut off or repeated, a published request
      means that the sandbox holds exactly the committed bytes of every file. */
  lemma {:induction false} PublishedIsStaged(sha: Sha, manifest: seq<Entry>, staged: Files, s: Sandbox, actions: seq<Action>)
    requires Injective(sha) && Complete(sha, manifest, staged)
    requires PublishesOnly(actions, manifest)
    requires s.request.Some? ==> Arrived(manifest, staged, s.files)
    ensures var r := Run(sha, s, actions); r.request.Some? ==> Arrived(manifest, staged, r.files)
    decreases |actions|
  {
    if actions != [] {
      assert actions[0] in actions;
      PublishedIsStaged(sha, manifest, staged, After(sha, s, actions[0]), actions[1..]);
    }
  }
}
