/** The gVisor installer (runner/gvisor_installer.py) as a protocol that survives a
    crash at any point: fence, drain, replace, unfence. Sandboxes start and exit
    on their own whenever the shim can be executed.

    SHA-256 is the parameter `sha`, assumed injective where file contents are
    concluded from digests; `archive` gives the files of the archive with a checksum. */
module Installer {
  import opened Common

  const SHIM: string := "containerd-shim-runsc-v1"
  const REQUIRED: set<string> := {"runsc", SHIM, "gvisor-bin/gvisor_sentry"}
  const RUNTIMES: set<string> := {"runsc", "runsc-docker"}

  /** Permission bits as far as the installer looks at them. */
  datatype Mode = Executable | Plain | OtherMode   // 0755, 0644, anything else

  datatype File = File(data: string, mode: Mode)

  datatype Receipt = Receipt(version: string, checksum: string, files: map<string, string>)

  /** containerd's own configuration: its format version and the registered runtimes. */
  datatype Config = Config(version: int, runtimes: map<string, string>)

  /** Everything durable the installer reads or writes. */
  datatype Host = Host(bin: map<string, File>, receipt: Option<Receipt>, config: Config, tomls: map<string, File>)

  type Sha = string -> string
  type Archive = string -> Option<map<string, string>>

  ghost predicate Injective(sha: Sha) {
    forall a, b :: sha(a) == sha(b) ==> a == b
  }

  function Matches(sha: Sha, bin: map<string, File>, name: string, digest: string, mode: Mode): (ok: bool) {
    name in bin && bin[name].mode == mode && sha(bin[name].data) == digest
  }

  /** The receipt is for this release and every file it lists is as recorded. */
  predicate Installed(sha: Sha, host: Host, version: string, checksum: string, shimMode: Mode) {
    && host.receipt.Some?
    && var receipt := host.receipt.value;
       && receipt.version == version && receipt.checksum == checksum && REQUIRED <= receipt.files.Keys
       && forall name :: name in receipt.files ==>
            Matches(sha, host.bin, name, receipt.files[name], if name == SHIM then shimMode else Executable)
  }

  function Registration(name: string): (text: string) {
    "/etc/containerd/" + name + ".toml"
  }

  function TomlText(name: string, runscRoot: string): (text: string) {
    name + " root = " + runscRoot
  }

  /** Runtime files for different roots differ. */
  lemma RootsDiffer(name: string, root: string, other: string)
    ensures TomlText(name, root) == TomlText(name, other) ==> root == other
  {
    var head := name + " root = ";
    assert TomlText(name, root) == head + root && TomlText(name, other) == head + other;
    assert (head + root)[|head|..] == root && (head + other)[|head|..] == other;
  }

  /** containerd has format 2, and for both runtimes exactly the file for this root and the
      registration that points to it. */
  predicate Configured(host: Host, runscRoot: string) {
    && host.config.version == 2
    && (forall name :: name in {"runsc", "runsc-docker"} ==>
          && name in host.tomls && host.tomls[name] == File(name + " root = " + runscRoot, Plain)
          && name in host.config.runtimes && host.config.runtimes[name] == "/etc/containerd/" + name + ".toml")
  }

  /** The configuration is one that the installer works on: format 2, and neither runtime is
      registered with another file. */
  predicate Configurable(host: Host) {
    && host.config.version == 2
    && (forall name :: name in {"runsc", "runsc-docker"} && name in host.config.runtimes ==>
          host.config.runtimes[name] == "/etc/containerd/" + name + ".toml")
  }

  lemma ConfiguredExactly(host: Host, runscRoot: string)
    ensures Configuration(host, runscRoot).Some? <==> Configurable(host)
    ensures ConfigDone(host, runscRoot) <==> Configured(host, runscRoot)
  {
    var stale, unknown := StaleTomls(host, runscRoot), Unregistered(host);
    assert forall name :: name in RUNTIMES <==> name in {"runsc", "runsc-docker"};
    if stale == {} {
      forall name | name in RUNTIMES ensures name in host.tomls && host.tomls[name] == File(name + " root = " + runscRoot, Plain) {
        assert name !in stale;
      }
    }
    if unknown == {} {
      forall name | name in RUNTIMES ensures name in host.config.runtimes {
        assert name !in unknown;
      }
    }
  }

  /** What `configuration` would change: runtime files to write and runtimes to register. */
  datatype Changes = Changes(tomls: set<string>, runtimes: set<string>)

  function Configuration(host: Host, runscRoot: string): (r: Option<Changes>) {
    if host.config.version != 2
       || (exists name :: name in RUNTIMES && name in host.config.runtimes
                          && host.config.runtimes[name] != Registration(name)) then None
    else Some(Changes(StaleTomls(host, runscRoot), Unregistered(host)))
  }

  function StaleTomls(host: Host, runscRoot: string): (names: set<string>) {
    set name | name in RUNTIMES && (name !in host.tomls || host.tomls[name] != File(TomlText(name, runscRoot), Plain))
  }

  function Unregistered(host: Host): (names: set<string>) {
    set name | name in RUNTIMES && name !in host.config.runtimes
  }

  predicate ShimExecutable(host: Host) {
    SHIM in host.bin && host.bin[SHIM].mode == Executable
  }

  // ---------- the protocol ----------

  /** What one installer run set out to do. */
  datatype Plan = Plan(version: string, checksum: string, runscRoot: string,
                       replaced: bool, files: map<string, string>, changes: Changes)

  datatype Pc =
    | Idle
    | Fencing(plan: Plan)
    | Scanning(plan: Plan, confirmed: bool)
    | Pausing(plan: Plan, confirmed: bool)
    | Replacing(plan: Plan, left: set<string>)
    | Verifying(plan: Plan)
    | Configuring(plan: Plan, tomls: set<string>, register: bool)
    | Unfencing(plan: Plan)
    | Returned(plan: Plan)

  /** `launching` holds sandboxes past execve's permission check that no scan can see
      yet; `live` holds visible shims and sentries. `closed` remembers a fence that
      no unfence has followed. */
  datatype World = World(host: Host, pc: Pc, live: set<int>, launching: set<int>, closed: bool)

  datatype Step =
    | Start(version: string, checksum: string, runscRoot: string)
    | Fence
    | Scan
    | Pause
    | WriteFile(name: string)
    | WriteReceipt
    | Verify
    | WriteToml(name: string)
    | Register
    | Unfence
    | Crash                      // or any refusal or failure: nothing is undone
    | Exec(pid: int) | Land(pid: int) | Spawn(parent: int, pid: int) | Exit(pid: int)

  function Planned(sha: Sha, archive: Archive, host: Host, version: string, checksum: string, runscRoot: string): (r: Option<Plan>)
  {
    var replaced := !Installed(sha, host, version, checksum, Executable);
    var files := if replaced then archive(checksum) else Some(map[]);
    var changes := Configuration(host, runscRoot);
    if files.None? || changes.None? || (replaced && !(REQUIRED <= files.value.Keys)) then None
    else Some(Plan(version, checksum, runscRoot, replaced, files.value, changes.value))
  }

  predicate Fenced(plan: Plan) {
    plan.replaced || plan.changes != Changes({}, {})
  }

  predicate Enabled(sha: Sha, archive: Archive, w: World, step: Step) {
    match step
    case Start(version, checksum, runscRoot) =>
      w.pc.Idle? && Planned(sha, archive, w.host, version, checksum, runscRoot).Some?
    case Fence => w.pc.Fencing?
    case Scan => w.pc.Scanning?
    // The pause outlasts every launch that was already past the permission check.
    case Pause => w.pc.Pausing? && w.launching == {}
    case WriteFile(name) => w.pc.Replacing? && name in w.pc.left && name in w.pc.plan.files
    case WriteReceipt => w.pc.Replacing? && w.pc.left == {}
    case Verify => w.pc.Verifying?
                   && Installed(sha, w.host, w.pc.plan.version, w.pc.plan.checksum,
                                if Fenced(w.pc.plan) then Plain else Executable)
    case WriteToml(name) => w.pc.Configuring? && name in w.pc.tomls
    case Register => w.pc.Configuring? && w.pc.tomls == {}
    case Unfence => w.pc.Unfencing? && SHIM in w.host.bin
    case Crash => true
    case Exec(pid) => ShimExecutable(w.host) && pid !in w.live + w.launching
    case Land(pid) => pid in w.launching
    case Spawn(parent, pid) => parent in w.live && pid !in w.live + w.launching
    case Exit(pid) => pid in w.live + w.launching
  }

  function After(sha: Sha, archive: Archive, w: World, step: Step): (r: World)
    requires Enabled(sha, archive, w, step)
  {
    match step
    case Start(version, checksum, runscRoot) =>
      var plan := Planned(sha, archive, w.host, version, checksum, runscRoot).value;
      w.(pc := if Fenced(plan) then Fencing(plan) else Verifying(plan))
    case Fence =>
      var bin := if SHIM in w.host.bin then w.host.bin[SHIM := w.host.bin[SHIM].(mode := Plain)] else w.host.bin;
      w.(host := w.host.(bin := bin), closed := true, pc := Scanning(w.pc.plan, false))
    case Scan =>
      if w.live != {} then w.(pc := Pausing(w.pc.plan, false))
      else if !w.pc.confirmed then w.(pc := Pausing(w.pc.plan, true))
      else if w.pc.plan.replaced then w.(pc := Replacing(w.pc.plan, w.pc.plan.files.Keys))
      else w.(pc := Verifying(w.pc.plan))
    case Pause => w.(pc := Scanning(w.pc.plan, w.pc.confirmed))
    case WriteFile(name) =>
      var file := File(w.pc.plan.files[name], if name == SHIM then Plain else Executable);
      w.(host := w.host.(bin := w.host.bin[name := file]), pc := Replacing(w.pc.plan, w.pc.left - {name}))
    case WriteReceipt =>
      var plan := w.pc.plan;
      var digests := map name | name in plan.files :: sha(plan.files[name]);
      w.(host := w.host.(receipt := Some(Receipt(plan.version, plan.checksum, digests))), pc := Verifying(plan))
    case Verify =>
      if Fenced(w.pc.plan) then w.(pc := Configuring(w.pc.plan, w.pc.plan.changes.tomls, w.pc.plan.changes.runtimes != {}))
      else w.(pc := Returned(w.pc.plan))
    case WriteToml(name) =>
      w.(host := w.host.(tomls := w.host.tomls[name := File(TomlText(name, w.pc.plan.runscRoot), Plain)]),
         pc := Configuring(w.pc.plan, w.pc.tomls - {name}, w.pc.register))
    case Register =>
      var runtimes := w.host.config.runtimes + map name | name in w.pc.plan.changes.runtimes :: Registration(name);
      w.(host := w.host.(config := w.host.config.(runtimes := runtimes)), pc := Unfencing(w.pc.plan))
    case Unfence =>
      w.(host := w.host.(bin := w.host.bin[SHIM := w.host.bin[SHIM].(mode := Executable)]),
         closed := false, pc := Returned(w.pc.plan))
    case Crash => w.(pc := Idle)
    case Exec(pid) => w.(launching := w.launching + {pid})
    case Land(pid) => w.(launching := w.launching - {pid}, live := w.live + {pid})
    case Spawn(parent, pid) => w.(live := w.live + {pid})
    case Exit(pid) => w.(live := w.live - {pid}, launching := w.launching - {pid})
  }

  // ---------- what every step keeps ----------

  /** The receipt on disk lists the digests of the archive it names. */
  ghost predicate Honest(sha: Sha, archive: Archive, host: Host) {
    host.receipt.Some? ==>
      var receipt := host.receipt.value;
      var files := archive(receipt.checksum);
      files.Some? && receipt.files == map name | name in files.value :: sha(files.value[name])
  }

  /** The installer has fenced and not yet unfenced. */
  predicate Behind(pc: Pc) {
    match pc
    case Scanning(_, _) => true
    case Pausing(_, _) => true
    case Replacing(_, _) => true
    case Verifying(plan) => Fenced(plan)
    case Configuring(_, _, _) => true
    case Unfencing(_) => true
    case _ => false
  }

  /** The installer may be changing runtime files or configuration. */
  predicate Changing(pc: Pc) {
    Behind(pc) && !pc.Scanning? && !pc.Pausing?
  }

  ghost predicate FenceInv(w: World) {
    && (w.closed ==> !ShimExecutable(w.host))
    && (Behind(w.pc) ==> w.closed)
    && (w.pc.Scanning? && w.pc.confirmed ==> w.launching == {})
    && (Changing(w.pc) ==> w.live == {} && w.launching == {})
  }

  /** Configuration is complete for this runsc root: nothing is left to change. */
  predicate ConfigDone(host: Host, runscRoot: string) {
    Configuration(host, runscRoot) == Some(Changes({}, {}))
  }

  ghost predicate PlanInv(sha: Sha, archive: Archive, w: World) {
    match w.pc
    case Idle => true
    case Fencing(plan) => PlanOk(archive, plan) && Configuration(w.host, plan.runscRoot) == Some(plan.changes)
    case Scanning(plan, _) => PlanOk(archive, plan) && Configuration(w.host, plan.runscRoot) == Some(plan.changes)
    case Pausing(plan, _) => PlanOk(archive, plan) && Configuration(w.host, plan.runscRoot) == Some(plan.changes)
    case Replacing(plan, left) =>
      PlanOk(archive, plan) && plan.replaced && Configuration(w.host, plan.runscRoot) == Some(plan.changes)
    case Verifying(plan) => Configuration(w.host, plan.runscRoot) == Some(plan.changes)
    case Configuring(plan, tomls, register) =>
      && Installed(sha, w.host, plan.version, plan.checksum, Plain)
      && tomls <= plan.changes.tomls
      && Configuration(w.host, plan.runscRoot) == Some(Changes(tomls, plan.changes.runtimes))
    case Unfencing(plan) =>
      Installed(sha, w.host, plan.version, plan.checksum, Plain) && ConfigDone(w.host, plan.runscRoot)
    case Returned(plan) =>
      Installed(sha, w.host, plan.version, plan.checksum, Executable) && ConfigDone(w.host, plan.runscRoot)
  }

  ghost predicate PlanOk(archive: Archive, plan: Plan) {
    plan.replaced ==> archive(plan.checksum) == Some(plan.files)
  }

  ghost predicate Inv(sha: Sha, archive: Archive, w: World) {
    FenceInv(w) && Honest(sha, archive, w.host) && PlanInv(sha, archive, w)
  }

  lemma FenceStep(sha: Sha, archive: Archive, w: World, step: Step)
    requires FenceInv(w) && Enabled(sha, archive, w, step)
    ensures FenceInv(After(sha, archive, w, step))
  {}

  lemma HonestStep(sha: Sha, archive: Archive, w: World, step: Step)
    requires Inv(sha, archive, w) && Enabled(sha, archive, w, step)
    ensures Honest(sha, archive, After(sha, archive, w, step).host)
  {}

  lemma WriteTomlKeeps(host: Host, name: string, runscRoot: string, changes: Changes)
    requires Configuration(host, runscRoot) == Some(changes) && name in changes.tomls
    ensures var after := host.(tomls := host.tomls[name := File(TomlText(name, runscRoot), Plain)]);
            Configuration(after, runscRoot) == Some(changes.(tomls := changes.tomls - {name}))
  {
    var after := host.(tomls := host.tomls[name := File(TomlText(name, runscRoot), Plain)]);
    assert StaleTomls(after, runscRoot) == StaleTomls(host, runscRoot) - {name};
    assert Unregistered(after) == Unregistered(host);
  }

  lemma RegisterCompletes(host: Host, runscRoot: string, runtimes: set<string>)
    requires Configuration(host, runscRoot) == Some(Changes({}, runtimes))
    ensures var all := host.config.runtimes + map name | name in runtimes :: Registration(name);
            ConfigDone(host.(config := host.config.(runtimes := all)), runscRoot)
  {
    var all := host.config.runtimes + map name | name in runtimes :: Registration(name);
    var after := host.(config := host.config.(runtimes := all));
    assert Unregistered(after) == {};
    assert StaleTomls(after, runscRoot) == StaleTomls(host, runscRoot);
  }

  lemma UnfenceInstalls(sha: Sha, host: Host, version: string, checksum: string)
    requires Installed(sha, host, version, checksum, Plain) && SHIM in host.bin
    ensures Installed(sha, host.(bin := host.bin[SHIM := host.bin[SHIM].(mode := Executable)]), version, checksum, Executable)
  {}

  lemma FencedInstalls(sha: Sha, host: Host, version: string, checksum: string)
    requires Installed(sha, host, version, checksum, Executable)
    ensures SHIM in host.bin && host.bin[SHIM].mode == Executable
    ensures Installed(sha, host.(bin := host.bin[SHIM := host.bin[SHIM].(mode := Plain)]), version, checksum, Plain)
  {
    assert SHIM in host.receipt.value.files;
  }

  lemma PlanStep(sha: Sha, archive: Archive, w: World, step: Step)
    requires Inv(sha, archive, w) && Enabled(sha, archive, w, step)
    ensures PlanInv(sha, archive, After(sha, archive, w, step))
  {
    match step
    case WriteToml(name) =>
      WriteTomlKeeps(w.host, name, w.pc.plan.runscRoot, Changes(w.pc.tomls, w.pc.plan.changes.runtimes));
    case Register => RegisterCompletes(w.host, w.pc.plan.runscRoot, w.pc.plan.changes.runtimes);
    case Unfence => UnfenceInstalls(sha, w.host, w.pc.plan.version, w.pc.plan.checksum);
    case _ =>
  }

  // ---------- every run, with crashes and retries ----------

  ghost predicate IsRun(sha: Sha, archive: Archive, worlds: seq<World>, steps: seq<Step>) {
    && |worlds| == |steps| + 1
    && worlds[0].pc == Idle && !worlds[0].closed && Honest(sha, archive, worlds[0].host)
    && forall i :: 0 <= i < |steps| ==>
         Enabled(sha, archive, worlds[i], steps[i]) && worlds[i + 1] == After(sha, archive, worlds[i], steps[i])
  }

  lemma {:induction false} RunKeeps(sha: Sha, archive: Archive, worlds: seq<World>, steps: seq<Step>, n: nat)
    requires IsRun(sha, archive, worlds, steps) && n < |worlds|
    ensures Inv(sha, archive, worlds[n])
  {
    if n > 0 {
      RunKeeps(sha, archive, worlds, steps, n - 1);
      FenceStep(sha, archive, worlds[n - 1], steps[n - 1]);
      HonestStep(sha, archive, worlds[n - 1], steps[n - 1]);
      PlanStep(sha, archive, worlds[n - 1], steps[n - 1]);
    }
  }

  /** From a fence on, through any crash and any retry, no sandbox can be started
      until some run reaches its unfence. */
  lemma {:induction false} FenceHolds(sha: Sha, archive: Archive, worlds: seq<World>, steps: seq<Step>, i: nat, j: nat)
    requires IsRun(sha, archive, worlds, steps) && i < j < |worlds|
    requires steps[i] == Fence && forall k :: i < k < j ==> steps[k] != Unfence
    ensures worlds[j].closed && !ShimExecutable(worlds[j].host)
    ensures forall pid :: !Enabled(sha, archive, worlds[j], Exec(pid))
  {
    RunKeeps(sha, archive, worlds, steps, j);
    if j > i + 1 {
      FenceHolds(sha, archive, worlds, steps, i, j - 1);
    }
    assert worlds[j] == After(sha, archive, worlds[j - 1], steps[j - 1]);
  }

  /** Runtime files, the receipt and containerd's configuration change only while no
      sandbox is live or starting. The fence and the unfence change a mode only. */
  lemma QuietChanges(sha: Sha, archive: Archive, worlds: seq<World>, steps: seq<Step>, n: nat)
    requires IsRun(sha, archive, worlds, steps) && n < |steps|
    requires worlds[n + 1].host != worlds[n].host
    ensures steps[n] == Fence || (worlds[n].live == {} && worlds[n].launching == {} && worlds[n].closed)
    ensures steps[n] == Fence || steps[n] == Unfence ==>
              && worlds[n + 1].host == worlds[n].host.(bin := worlds[n + 1].host.bin)
              && worlds[n + 1].host.bin.Keys == worlds[n].host.bin.Keys
              && forall name :: name in worlds[n].host.bin ==>
                   worlds[n + 1].host.bin[name].data == worlds[n].host.bin[name].data
  {
    RunKeeps(sha, archive, worlds, steps, n);
  }

  /** The node holds every file of the archive, executable, and among them those it needs. */
  ghost predicate Holds(host: Host, archive: Archive, checksum: string) {
    && archive(checksum).Some? && REQUIRED <= archive(checksum).value.Keys
    && (forall name :: name in archive(checksum).value ==>
          name in host.bin && host.bin[name] == File(archive(checksum).value[name], Executable))
  }

  lemma InstalledHolds(sha: Sha, archive: Archive, host: Host, version: string, checksum: string)
    requires Injective(sha) && Honest(sha, archive, host) && Installed(sha, host, version, checksum, Executable)
    ensures Holds(host, archive, checksum)
  {
    var files, receipt := archive(checksum).value, host.receipt.value;
    forall name | name in files ensures name in host.bin && host.bin[name] == File(files[name], Executable) {
      assert name in receipt.files && receipt.files[name] == sha(files[name]);
      assert Matches(sha, host.bin, name, receipt.files[name], Executable);
    }
  }

  /** A normal return means that the disk holds exactly the pinned release and the
      verified configuration, and that installing again would change nothing. */
  lemma ReturnVerified(sha: Sha, archive: Archive, worlds: seq<World>, steps: seq<Step>, n: nat)
    requires IsRun(sha, archive, worlds, steps) && n < |worlds| && worlds[n].pc.Returned?
    requires Injective(sha)
    ensures var plan, host := worlds[n].pc.plan, worlds[n].host;
            && Holds(host, archive, plan.checksum)
            && Configured(host, plan.runscRoot)
            && Planned(sha, archive, host, plan.version, plan.checksum, plan.runscRoot) ==
                 Some(Plan(plan.version, plan.checksum, plan.runscRoot, false, map[], Changes({}, {})))
  {
    RunKeeps(sha, archive, worlds, steps, n);
    var plan, host := worlds[n].pc.plan, worlds[n].host;
    ConfiguredExactly(host, plan.runscRoot);
    InstalledHolds(sha, archive, host, plan.version, plan.checksum);
  }

  // ---------- draining ----------

  const PAUSE: nat := 5

  /** Scans until two in a row are empty, or until one past the deadline is not.
      `live(i)` is what scan i sees and `clock(i)` the time it reads; a pause takes at
      least five seconds. */
  method Drain(seconds: int, start: int, clock: nat -> int, live: nat -> set<int>) returns (ok: bool, scans: nat)
    requires start <= clock(0) && forall i: nat :: clock(i) + PAUSE <= clock(i + 1)
    ensures ok ==> scans >= 2 && live(scans - 2) == {} && live(scans - 1) == {}
    ensures !ok ==> scans >= 1 && live(scans - 1) != {} && clock(scans - 1) >= start + seconds
    ensures forall i: nat :: i + 2 <= scans && (i + 2 < scans || !ok) ==> live(i) != {} || live(i + 1) != {}
    ensures forall i: nat :: i + 1 < scans && live(i) != {} ==> clock(i) < start + seconds
    ensures PAUSE * (scans - 3) < Max(0, seconds)
  {
    var end := start + seconds;
    var confirmed := false;
    scans := 0;
    while true
      invariant start + PAUSE * scans <= clock(scans)
      invariant confirmed ==> scans >= 1 && live(scans - 1) == {}
      invariant scans >= 1 && live(scans - 1) == {} ==> confirmed
      invariant forall i: nat :: i + 2 <= scans ==> live(i) != {} || live(i + 1) != {}
      invariant forall i: nat :: i < scans && live(i) != {} ==> clock(i) < end
      invariant confirmed && scans >= 2 ==> PAUSE * (scans - 2) < Max(0, seconds)
      invariant !confirmed && scans >= 1 ==> PAUSE * (scans - 1) < Max(0, seconds)
      decreases Max(0, end - clock(scans)), !confirmed
    {
      assert clock(scans) + PAUSE <= clock(scans + 1);
      if live(scans) != {} {
        confirmed := false;
        if clock(scans) >= end {
          return false, scans + 1;
        }
      } else if confirmed {
        return true, scans + 1;
      } else {
        confirmed := true;
      }
      scans := scans + 1;
    }
  }

  // ---------- the installer's own code ----------

  /** No state of the host in this stretch of its history lets a sandbox start. */
  ghost predicate ClosedFrom(history: seq<Host>, from: nat, to: nat) {
    to <= |history| && forall i :: from <= i < to ==> !ShimExecutable(history[i])
  }

  /** In this stretch only the last state has a new receipt, and it has the final files. */
  ghost predicate ReceiptLast(history: seq<Host>, from: nat, receipt: Option<Receipt>, host: Host) {
    && from < |history| && history[|history| - 1] == host
    && forall i :: from <= i < |history| - 1 ==> history[i].receipt == receipt
  }

  /** The node holds exactly these files of the release, but perhaps for the shim's mode, and
      the receipt that lists them. */
  ghost predicate Bears(sha: Sha, host: Host, version: string, checksum: string, files: map<string, string>) {
    && (forall name :: name in files ==>
          name in host.bin && host.bin[name].data == files[name] && (name != SHIM ==> host.bin[name].mode == Executable))
    && host.receipt == Some(Receipt(version, checksum, map name | name in files :: sha(files[name])))
  }

  /** One Cluster Node. `history` records every durable state, so that a crash anywhere
      leaves one of them behind. */
  class Node {
    const sha: Sha
    const archive: Archive
    var host: Host
    ghost var history: seq<Host>

    constructor (sha: Sha, archive: Archive, host: Host)
      ensures this.sha == sha && this.archive == archive && this.host == host && history == []
    {
      this.sha, this.archive, this.host := sha, archive, host;
      history := [];
    }

    /** One atomic change of the host. */
    method Save(next: Host)
      modifies this
      ensures host == next && history == old(history) + [next]
    {
      host := next;
      history := history + [next];
    }

    /** Clears the shim's execute bits; only its mode changes. */
    method FenceShim()
      modifies this
      ensures !ShimExecutable(host) && old(history) <= history && ClosedFrom(history, |old(history)|, |history|)
      ensures host == old(host).(bin := host.bin) && host.bin.Keys == old(host).bin.Keys
      ensures forall name :: name in host.bin ==> host.bin[name].data == old(host).bin[name].data
      ensures forall name :: name in host.bin && name != SHIM ==> host.bin[name] == old(host).bin[name]
      ensures forall runscRoot :: Configuration(host, runscRoot) == Configuration(old(host), runscRoot)
      ensures SHIM in old(host).bin ==> host.bin == old(host).bin[SHIM := old(host).bin[SHIM].(mode := Plain)]
    {
      if SHIM in host.bin {
        Save(host.(bin := host.bin[SHIM := host.bin[SHIM].(mode := Plain)]));
      }
    }

    /** Writes every file of the archive, the shim still fenced, and then the receipt. */
    method Replace(version: string, checksum: string, files: map<string, string>)
      requires !ShimExecutable(host)
      modifies this
      ensures !ShimExecutable(host) && old(history) <= history && ClosedFrom(history, |old(history)|, |history|)
      ensures host.config == old(host).config && host.tomls == old(host).tomls
      ensures REQUIRED <= files.Keys ==> Installed(sha, host, version, checksum, Plain)
      ensures Bears(sha, host, version, checksum, files)
      ensures old(history) < history && ReceiptLast(history, |old(history)|, old(host).receipt, host)
      ensures forall name :: name in files ==>
                name in host.bin && host.bin[name] == File(files[name], if name == SHIM then Plain else Executable)
      ensures forall name :: name !in files && name in old(host).bin ==>
                name in host.bin && host.bin[name] == old(host).bin[name]
    {
      var left := files.Keys;
      while left != {}
        invariant left <= files.Keys && !ShimExecutable(host)
        invariant host == old(host).(bin := host.bin)
        invariant old(history) <= history && ClosedFrom(history, |old(history)|, |history|)
        invariant forall i :: |old(history)| <= i < |history| ==> history[i].receipt == old(host).receipt
        invariant forall name :: name !in files && name in old(host).bin ==>
                    name in host.bin && host.bin[name] == old(host).bin[name]
        invariant forall name :: name in files && name !in left ==>
                    name in host.bin && host.bin[name] == File(files[name], if name == SHIM then Plain else Executable)
        decreases left
      {
        var name :| name in left;
        Save(host.(bin := host.bin[name := File(files[name], if name == SHIM then Plain else Executable)]));
        left := left - {name};
      }
      var digests := map name | name in files :: sha(files[name]);
      Save(host.(receipt := Some(Receipt(version, checksum, digests))));
    }

    /** Writes the containerd files that differ, then the registrations. */
    method Configure(runscRoot: string, changes: Changes)
      requires Configuration(host, runscRoot) == Some(changes) && !ShimExecutable(host)
      modifies this
      ensures Configured(host, runscRoot) && host.bin == old(host).bin && host.receipt == old(host).receipt
      ensures forall name :: name in old(host).config.runtimes ==>
                name in host.config.runtimes && host.config.runtimes[name] == old(host).config.runtimes[name]
      ensures old(history) <= history && ClosedFrom(history, |old(history)|, |history|)
    {
      var left := changes.tomls;
      while left != {}
        invariant Configuration(host, runscRoot) == Some(changes.(tomls := left))
        invariant host.bin == old(host).bin && host.receipt == old(host).receipt && host.config == old(host).config
        invariant old(history) <= history && ClosedFrom(history, |old(history)|, |history|)
        decreases left
      {
        var name :| name in left;
        WriteTomlKeeps(host, name, runscRoot, changes.(tomls := left));
        Save(host.(tomls := host.tomls[name := File(TomlText(name, runscRoot), Plain)]));
        left := left - {name};
      }
      RegisterCompletes(host, runscRoot, changes.runtimes);
      var all := host.config.runtimes + map name | name in changes.runtimes :: Registration(name);
      Save(host.(config := host.config.(runtimes := all)));
      ConfiguredExactly(host, runscRoot);
    }

    /** Everything after the fence, up to the unfence. */
    method ReplaceAndConfigure(plan: Plan) returns (ok: bool)
      requires !ShimExecutable(host) && Configuration(host, plan.runscRoot) == Some(plan.changes)
      requires if plan.replaced then REQUIRED <= plan.files.Keys else Installed(sha, host, plan.version, plan.checksum, Plain)
      modifies this
      ensures ok && Installed(sha, host, plan.version, plan.checksum, Plain) && Configured(host, plan.runscRoot)
      ensures plan.replaced ==> Bears(sha, host, plan.version, plan.checksum, plan.files)
      ensures !plan.replaced ==> host.bin == old(host).bin && host.receipt == old(host).receipt
      ensures !ShimExecutable(host) && old(history) <= history && ClosedFrom(history, |old(history)|, |history|)
    {
      if plan.replaced {
        Replace(plan.version, plan.checksum, plan.files);
      }
      assert Configuration(host, plan.runscRoot) == Some(plan.changes);
      if !Installed(sha, host, plan.version, plan.checksum, Plain) {
        return false;
      }
      Configure(plan.runscRoot, plan.changes);
      ok := true;
    }

    /** A whole installer run; `drained` says whether the drain succeeded. Success is a
        verified node. After a fence, every durable state but the last one of a
        success is closed to new sandboxes. */
    method Install(version: string, checksum: string, runscRoot: string, drained: bool) returns (ok: bool)
      modifies this
      ensures var current := Installed(sha, old(host), version, checksum, Executable);
              && (ok <==> Configurable(old(host)) && (current || (archive(checksum).Some? && REQUIRED <= archive(checksum).value.Keys))
                          && ((current && Configured(old(host), runscRoot)) || drained))
              && (ok && !current ==> Bears(sha, host, version, checksum, archive(checksum).value))
              && (ok && current ==> host.receipt == old(host).receipt && host.bin == old(host).bin)
      ensures ok ==> Installed(sha, host, version, checksum, Executable) && Configured(host, runscRoot)
      ensures ok && Injective(sha) && Honest(sha, archive, old(host)) ==> Holds(host, archive, checksum)
      ensures old(history) <= history && (old(history) == history ==> host == old(host) || !ShimExecutable(host))
      ensures old(history) < history && ok ==>
                ShimExecutable(host) && ClosedFrom(history, |old(history)|, |history| - 1)
      ensures old(history) < history && !ok ==> !ShimExecutable(host) && ClosedFrom(history, |old(history)|, |history|)
    {
      var planned := Planned(sha, archive, host, version, checksum, runscRoot);
      ConfiguredExactly(host, runscRoot);
      if planned.None? {
        return false;
      }
      if !Fenced(planned.value) {
        if Injective(sha) && Honest(sha, archive, host) { InstalledHolds(sha, archive, host, version, checksum); }
        return true;
      }
      if !planned.value.replaced { FencedInstalls(sha, host, version, checksum); }
      FenceShim();
      if !drained {
        return false;
      }
      ok := ReplaceAndConfigure(planned.value);
      if ok {
        UnfenceInstalls(sha, host, version, checksum);
        Save(host.(bin := host.bin[SHIM := host.bin[SHIM].(mode := Executable)]));
        if Injective(sha) && Honest(sha, archive, host) { InstalledHolds(sha, archive, host, version, checksum); }
      }
    }
  }
}
