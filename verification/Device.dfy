/** Whole runs of a device: boots, processes, requests, settings writes and crashes, in any order. */
module Device {
  import opened Configuration
  import opened Faults
  import opened Journal
  import opened Manager
  import Storage

  /** One product: the daemon's profile and the storage policy of the same device. */
  datatype Site = Site(profile: Profile, policy: Storage.Policy)

  /** The daemon's memory while it runs. */
  datatype Sys = Sys(daemon: Option<Memory>, w: World)

  /** What prepare did in one boot, as far as the system manager can tell. */
  datatype BootReport = BootReport(
    boot: Storage.Boot,
    devices: map<Storage.Role, string>,
    effects: seq<Storage.Effect>,
    choice: Choice)

  /**
   * What the power cut and an unfinished command leave open: the journal that is found, the files
   * that an unfinished deletion has reached, and whether an unfinished status file can be read.
   */
  datatype Choice = Choice(found: Option<State>, reached: set<Path>, readable: bool)

  datatype Action =
    | PowerCycle(report: BootReport, inherited: Network)
    | RunBootstrap
    | StartDaemon(found: Configuration)
    | KillDaemon
    | WriteSettings(hash: string)
    | TickCall
    | ApplyCall(configuration: Configuration)
    | BeginCall(proposal: Proposal)
    | PrepareCall(id: nat)
    | FinishCall(id: nat, commit: bool)
    | PowerCallRequest(shutdown: bool)
    | ResetCall(confirmed: bool)

  /** An action, the time since the last one, and the fates of its effects. */
  datatype Event = Event(action: Action, elapsed: nat, fates: seq<Fate>)

  const STATE_ROOT: Path := ["state"]

  /** A tree that covers the file was deleted completely, or the unfinished deletion came that far. */
  ghost predicate ClearsPath(r: BootReport, path: Path) {
    exists i :: 0 <= i < |r.effects| && r.effects[i].Clear? && STATE_ROOT + r.effects[i].tree <= path
                && (r.effects[i].done || path in r.choice.reached)
  }

  /** The journal that this boot finds on the partition. */
  function Found(d: Disk, r: BootReport): Option<State> {
    if r.choice.found in Possible(d) then r.choice.found else d.journal
  }

  /** The disk of a partition after prepare has deleted its reset trees. */
  ghost function AfterClearing(p: Profile, d: Disk, r: BootReport): Disk {
    Disk(if ClearsPath(r, p.journal) then None else Found(d, r),
         if ClearsPath(r, p.settings) then "" else d.settings, {})
  }

  ghost function Published(r: BootReport): Option<Storage.Status> {
    var n := |r.effects|;
    if n > 0 && r.effects[n - 1].Publish? && (r.effects[n - 1].done || r.choice.readable)
    then Some(r.effects[n - 1].status) else None
  }

  /** A new boot: memory, runtime files and everything put in force are gone; the partition is not. */
  ghost function Rebooted(site: Site, w: World, report: BootReport, inherited: Network): World {
    var e := report.effects;
    var disk := AfterClearing(site.profile, Partition(w), report);
    var mounted := Storage.Mounted(e, Storage.StateRole);
    w.(live := if mounted then disk else Disk(None, "", {}),
       parked := if mounted then None else Some(disk),
       platform := Platform(In(inherited), Mixed, Mixed, Mixed, Mixed),
       boot := ThisBoot(w.boot.number + 1, 0, Published(report), Storage.Formatted(e),
           Storage.Cleared(site.policy, e), {}, false))
  }

  /** Time has passed, and the coming action has its fates. */
  function Passed(w: World, e: Event): World {
    w.(boot := w.boot.(now := w.boot.now + e.elapsed), fates := e.fates)
  }

  /** The bootstrap process: load, recover, exit. */
  function Bootstrapped(p: Profile, w: World): World {
    var r := Bootstrap(p, Load(p, w.live.journal), w);
    if r.out.Ok? then r.w.(boot := r.w.boot.(recovered := true)) else r.w
  }

  /** The daemon process up to its event loop; an exception on the way ends it. */
  ghost function Started(p: Profile, w: World, found: Configuration): Sys {
    var r := Start(Load(p, w.live.journal), w, found);
    Sys(if r.out.Ok? then Some(r.m) else None, r.w)
  }

  ghost function Requested(p: Profile, m: Memory, w: World, a: Action): Sys
    requires IsRequest(a)
  {
    var r := Request(p, m, w, a);
    Sys(if r.out.Crashed? then None else Some(r.m), r.w)
  }

  ghost function Act(site: Site, s: Sys, a: Action): Sys {
    match a
    case PowerCycle(report, inherited) => Sys(None, Rebooted(site, s.w, report, inherited))
    case WriteSettings(hash) => s.(w := s.w.(live := s.w.live.(settings := hash)))
    case KillDaemon => s.(daemon := None)
    case RunBootstrap => if s.daemon.Some? then s else Sys(None, Bootstrapped(site.profile, s.w))
    case StartDaemon(found) => if s.daemon.Some? then s else Started(site.profile, s.w, found)
    case _ => if s.daemon.None? then s else Requested(site.profile, s.daemon.value, s.w, a)
  }

  ghost function Step(site: Site, s: Sys, e: Event): Sys {
    Act(site, s.(w := Passed(s.w, e)), e.action)
  }

  ghost predicate IsRequest(a: Action) {
    !a.PowerCycle? && !a.RunBootstrap? && !a.StartDaemon? && !a.KillDaemon? && !a.WriteSettings?
  }

  ghost function Request(p: Profile, m: Memory, w: World, a: Action): Result
    requires IsRequest(a)
  {
    match a
    case TickCall => Tick(m, w)
    case ApplyCall(c) => Apply(p, m, w, c)
    case BeginCall(q) => BeginNetwork(p, m, w, q)
    case PrepareCall(id) => PrepareCommit(m, w, id)
    case FinishCall(id, commit) => FinishNetwork(m, w, id, commit)
    case PowerCallRequest(shutdown) => Power(m, w, shutdown)
    case ResetCall(confirmed) => ResetDevice(p, m, w, confirmed)
  }

  /** A boot whose storage trace is one that `prepare` can leave behind, given the partition's journal. */
  ghost predicate PossibleBoot(site: Site, w: World, report: BootReport) {
    && Storage.LawfulTrace(site.policy, report.devices, report.boot, report.effects)
    && report.boot.intent == Intends(Found(Partition(w), report))
  }

  /** No reset tree of the storage policy and no reset path of the profile covers the journal. */
  ghost predicate JournalIsSafe(site: Site) {
    && (forall i :: 0 <= i < |site.profile.resetPaths| ==> !Covers(site.profile.resetPaths[i], site.profile.journal))
    && (forall i :: 0 <= i < |Storage.ResetTrees(site.policy)| ==>
          !(STATE_ROOT + Storage.ResetTrees(site.policy)[i] <= site.profile.journal))
  }
}
