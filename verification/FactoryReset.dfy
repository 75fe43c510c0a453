/**
 * Factory reset end to end: the intent written by `resetDevice` survives every crash and reboot, and
 * is cleared only in a boot in which storage preparation and bootstrap have done all of the work.
 */
module FactoryReset {
  import opened Configuration
  import opened Validation
  import opened Faults
  import opened Journal
  import opened Manager
  import opened Device
  import opened Invariant
  import opened Runs
  import opened Agreement
  import Storage

  /** Whatever journal a power cut leaves asks for the reset. */
  ghost predicate DurablyIntends(d: Disk) {
    forall j :: j in Possible(d) ==> Intends(j)
  }

  /** An intent that a reader finds stays, and so does one that is durable. */
  ghost predicate KeepsIntent(d: Disk, e: Disk) {
    && (Intends(d.journal) ==> Intends(e.journal))
    && (DurablyIntends(d) ==> DurablyIntends(e))
  }

  // ---------------------------------------------------------------------------------------------
  // Requests keep the intent
  // ---------------------------------------------------------------------------------------------

  lemma DispatchIntent(m: Memory, w: World)
    requires m.state.resetIntent
    ensures DispatchJob(m, w).w.boot == w.boot
    ensures KeepsIntent(w.live, DispatchJob(m, w).w.live)
  {
    var m1 := m.(jobDeadline := 0, state := m.state.(job := m.state.job.(state := Dispatched)));
    PersistFacts(m1, w);
    var r1 := Persist(m1, w);
    if r1.out.Ok? {
      var r2 := CallPower(r1.m, r1.w);
      CallPowerFacts(r1.m, r1.w);
      if r2.out.Threw? {
        PersistFacts(r2.m.(state := r2.m.state.(job := r2.m.state.job.(state := Failed))), r2.w);
      }
    }
  }

  /** A request leaves an intent on disk alone, and changes no fact of the boot. */
  lemma RequestIntent(p: Profile, m: Memory, w: World, a: Device.Action)
    requires WorldOk(w) && MemoryOk(m, w) && IsRequest(a)
    ensures KeepsIntent(w.live, Request(p, m, w, a).w.live)
    ensures Request(p, m, w, a).w.boot == w.boot
  {
    match a
    case TickCall => TickIntent(m, w);
    case ApplyCall(c) =>
      ApplyKeeps(p, m, w, c);
    case BeginCall(q) => BeginIntent(p, m, w, q);
    case PrepareCall(id) => PrepareIntent(m, w, id);
    case FinishCall(id, commit) => FinishIntent(m, w, id, commit);
    case PowerCallRequest(shutdown) =>
      if Obstacle(m).None? { AcceptIntent(m, w, if shutdown then Shutdown else Reboot); }
    case ResetCall(confirmed) =>
      if Obstacle(m).None? { AcceptIntent(m, w, DeviceReset); }
  }

  lemma TickIntent(m: Memory, w: World)
    requires WorldOk(w) && MemoryOk(m, w)
    ensures KeepsIntent(w.live, Tick(m, w).w.live)
    ensures Tick(m, w).w.boot == w.boot
  {
    TickKeeps(m, w);
    if Intends(w.live.journal) && !m.storageFailed && m.jobDeadline != 0 && w.boot.now >= m.jobDeadline {
      DispatchIntent(m, w);
    }
  }

  lemma PrepareIntent(m: Memory, w: World, id: nat)
    requires WorldOk(w) && MemoryOk(m, w)
    ensures KeepsIntent(w.live, PrepareCommit(m, w, id).w.live)
    ensures PrepareCommit(m, w, id).w.boot == w.boot
  {
    PrepareKeeps(m, w, id);
    TickIntent(m, w);
    TickKeeps(m, w);
    var r := Tick(m, w);
    if Intends(w.live.journal) && r.out.Ok? {
      TickLeavesTime(m, w);
      assert !InFlight(r.m.state);
    }
  }

  lemma FinishIntent(m: Memory, w: World, id: nat, commit: bool)
    requires WorldOk(w) && MemoryOk(m, w)
    ensures KeepsIntent(w.live, FinishNetwork(m, w, id, commit).w.live)
    ensures FinishNetwork(m, w, id, commit).w.boot == w.boot
  {
    FinishKeeps(m, w, id, commit);
    if Current(m, id) {
      var next := if commit then m.state.pending.network else m.state.pending.previous;
      NetworkFacts(m, w, next);
      PersistFacts(m.(state := Settled(m.state, commit)), ApplyNetwork(m, w, next).w);
    }
  }

  lemma BeginIntent(p: Profile, m: Memory, w: World, q: Proposal)
    requires WorldOk(w) && MemoryOk(m, w)
    ensures KeepsIntent(w.live, BeginNetwork(p, m, w, q).w.live)
    ensures BeginNetwork(p, m, w, q).w.boot == w.boot
  {
    ConsultFacts(m, w);
    var r0 := Consult(m, w);
    if Obstacle(m).None? && FreshProposal(q, w.live.settings) {
      PlatformKept(m, w, r0.w);
      ProposeSound(m, r0.w, q);
      EnterKeeps(m.(state := Propose(m, r0.w, q)), Drawn(r0.w));
    }
  }

  lemma AcceptIntent(m: Memory, w: World, action: Journal.Action)
    requires WorldOk(w) && MemoryOk(m, w) && Obstacle(m).None?
    ensures !Intends(w.live.journal) && AcceptJob(m, w, action).w.boot == w.boot
  {
    PersistFacts(m.(state := Taking(m, w, action)), Counted(w, action));
  }

  // ---------------------------------------------------------------------------------------------
  // Process start keeps it, or completes the reset
  // ---------------------------------------------------------------------------------------------

  lemma StartFrame(p: Profile, w: World, found: Configuration)
    requires WorldOk(w)
    ensures Started(p, w, found).w.boot == w.boot
    ensures Intends(w.live.journal) ==> Started(p, w, found).w.live == w.live
  {
    var m := Load(p, w.live.journal);
    if !m.state.resetIntent {
      ConsultFacts(m, w);
      var c := if w.platform.network.In? then WithNetwork(found, w.platform.network.value) else found;
      PersistFacts(m.(state := m.state.(configuration := c, initialized := true)), Consult(m, w).w);
      var r1 := if m.state.initialized then Result(m, w, Ok) else Discover(m, w, found);
      RecoverFrame(r1.m, r1.w);
      var r2 := RecoverNetwork(r1.m, r1.w);
      PersistFacts(r2.m.(state := r2.m.state.(job := r2.m.state.job.(state := Interrupted))), r2.w);
    }
  }

  lemma RecoverFrame(m: Memory, w: World)
    ensures RecoverNetwork(m, w).w.boot == w.boot
  {
    var commit := Verdict(m.state, w.live.settings);
    var next := if commit then m.state.pending.network else m.state.pending.previous;
    NetworkFacts(m, w, next);
    PersistFacts(m.(state := Settled(m.state, commit)), ApplyNetwork(m, w, next).w);
  }

  /** The product defaults, under the managed host name where there is one. */
  predicate DefaultsIn(p: Profile, c: Configuration) {
    && c.system.network == p.defaults.system.network && c.system.sshEnabled == p.defaults.system.sshEnabled
    && c.time == p.defaults.time
    && (c.system.hostname == p.defaults.system.hostname
        || (p.bootPreferences.Some? && c.system.hostname == p.bootPreferences.value.managedHostname))
  }

  /** Everything a reset has to do, done in this boot, with the journal to say so. */
  ghost predicate ResetDone(p: Profile, v: World) {
    && (p.storageStatus ==> v.boot.status.Some? && v.boot.status.value.resetPrepared)
    && (forall i :: 0 <= i < |p.resetPaths| ==> p.resetPaths[i] in v.boot.removed)
    && v.platform.network == In(p.defaults.system.network)
    && v.platform.ssh == In(p.defaults.system.sshEnabled)
    && v.platform.clock == In(p.defaults.time)
    && AtRest(v.live.journal) && v.live.journal.value.job.state.Completed?
    && DefaultsIn(p, v.live.journal.value.configuration)
    && v.live.journal.value.pending == NO_PENDING
    && ((exists i :: 0 <= i < |p.resetPaths| && Covers(p.resetPaths[i], p.settings)) ==> v.live.settings == "")
  }

  ghost predicate SafePaths(p: Profile) {
    forall i :: 0 <= i < |p.resetPaths| ==> !Covers(p.resetPaths[i], p.journal)
  }

  lemma CompleteResetIntent(p: Profile, m: Memory, w: World)
    requires Intends(w.live.journal) && OnDisk(m, w) && SafePaths(p)
    ensures var r := CompleteReset(p, m, w);
            && ((r.w.live.journal == w.live.journal && r.w.live.shadows == w.live.shadows) || ResetDone(p, r.w))
            && (r.out.Ok? ==> ResetDone(p, r.w) && r.w.live.journal == Some(r.m.state))
            && r.w.parked == w.parked && r.w.boot == w.boot.(removed := r.w.boot.removed)
  {
    RemoveFacts(p, m, w, p.resetPaths);
    var r1 := RemovePaths(p, m, w, p.resetPaths);
    if ResetPrepared(p, w) && r1.out.Ok? {
      var m1 := m.(state := ResetState(p, m.state));
      BootPolicyFacts(m1, r1.w);
      var r2 := ApplyBootPolicies(m1, r1.w);
      if r2.out.Ok? {
        PersistFacts(m1.(state := m1.state.(resetIntent := false, job := m1.state.job.(state := Completed))), r2.w);
      }
    }
  }

  lemma IdentityAfterReset(p: Profile, b: BootPreferences, r: Result)
    requires ResetDone(p, r.w) && r.w.live.journal == Some(r.m.state) && p.bootPreferences == Some(b)
    ensures var v := BootIdentity(b, r.m, r.w).w;
            ResetDone(p, v) && v.parked == r.w.parked && v.boot == r.w.boot
  {
    var m, w, c := r.m, r.w, r.m.state.configuration;
    var m1 := m.(state := m.state.(configuration := c.(system := c.system.(hostname := b.managedHostname))));
    HostnameFacts(m1, w, b.managedHostname);
    PersistFacts(m1, ApplyHostname(m1, w, b.managedHostname).w);
  }

  /** Bootstrap on an intent: the journal is untouched, or the reset is done. */
  lemma BootstrapIntent(p: Profile, w: World)
    requires WorldOk(w) && Intends(w.live.journal) && SafePaths(p)
    ensures var v := Bootstrapped(p, w);
            && (KeepsIntent(w.live, v.live) || ResetDone(p, v))
            && v.parked == w.parked
  {
    LoadSound(p, w);
    var m := Load(p, w.live.journal);
    CompleteResetIntent(p, m, w);
    var r := CompleteReset(p, m, w);
    if r.out.Ok? && p.bootPreferences.Some? {
      IdentityAfterReset(p, p.bootPreferences.value, r);
    }
  }

  // ---------------------------------------------------------------------------------------------
  // The flag that crosses from storage preparation to bootstrap
  // ---------------------------------------------------------------------------------------------

  /** The runtime flag stands for deeds of this boot. */
  predicate FlagIsEarned(w: World) {
    w.boot.status.Some? && w.boot.status.value.resetPrepared ==> w.boot.formatted && w.boot.cleared
  }

  predicate SameDeeds(a: World, b: World) {
    b.boot.status == a.boot.status && b.boot.formatted == a.boot.formatted && b.boot.cleared == a.boot.cleared
  }

  lemma IdentityDeeds(p: Profile, r: Result)
    ensures SameDeeds(r.w, Identified(p, r).w)
  {
    if p.bootPreferences.Some? {
      var b, c := p.bootPreferences.value, r.m.state.configuration;
      var m1 := r.m.(state := r.m.state.(configuration := c.(system := c.system.(hostname := b.managedHostname))));
      HostnameFacts(m1, r.w, b.managedHostname);
      PersistFacts(m1, ApplyHostname(m1, r.w, b.managedHostname).w);
    }
  }

  lemma ResetDeeds(p: Profile, m: Memory, w: World)
    ensures SameDeeds(w, CompleteReset(p, m, w).w)
  {
    RemoveFacts(p, m, w, p.resetPaths);
    var r1 := RemovePaths(p, m, w, p.resetPaths);
    var m1 := m.(state := ResetState(p, m.state));
    BootPolicyFacts(m1, r1.w);
    var r2 := ApplyBootPolicies(m1, r1.w);
    PersistFacts(m1.(state := m1.state.(resetIntent := false, job := m1.state.job.(state := Completed))), r2.w);
  }

  lemma RestoreDeeds(m: Memory, w: World)
    ensures SameDeeds(w, RestoreBoot(m, w).w)
  {
    RecoverFrame(m, w);
    BootPolicyFacts(RecoverNetwork(m, w).m, RecoverNetwork(m, w).w);
  }

  lemma FirstBootDeeds(b: BootPreferences, m: Memory, w: World)
    ensures SameDeeds(w, FirstBoot(b, m, w).w)
  {
    var m1 := m.(state := m.state.(configuration := b.initial));
    BootPolicyFacts(m1, w);
    PersistFacts(m1.(state := m1.state.(initialized := true)), ApplyBootPolicies(m1, w).w);
  }

  lemma BootstrapDeeds(p: Profile, w: World)
    ensures SameDeeds(w, Bootstrapped(p, w))
  {
    var m := Load(p, w.live.journal);
    if m.state.resetIntent {
      ResetDeeds(p, m, w);
      IdentityDeeds(p, CompleteReset(p, m, w));
    } else if m.state.initialized {
      RestoreDeeds(m, w);
      IdentityDeeds(p, RestoreBoot(m, w));
    } else if p.bootPreferences.Some? {
      FirstBootDeeds(p.bootPreferences.value, m, w);
      IdentityDeeds(p, FirstBoot(p.bootPreferences.value, m, w));
    } else {
      ClockFacts(m, w, p.defaults.time);
    }
  }

  lemma RebootEarns(site: Site, w: World, report: BootReport, inherited: Network)
    requires PossibleBoot(site, w, report)
    ensures FlagIsEarned(Rebooted(site, w, report, inherited))
  {
    var e := report.effects;
    if Published(report).Some? && Published(report).value.resetPrepared {
      var n := |e| - 1;
      assert Storage.Lawful(site.policy, report.devices, report.boot, e[..n], e[n]);
      FormattedStays(e, n);
      Storage.ClearedGrows(site.policy, e[..n], e);
    }
  }

  lemma FormattedStays(effects: seq<Storage.Effect>, n: nat)
    requires n <= |effects| && Storage.Formatted(effects[..n])
    ensures Storage.Formatted(effects)
  {
    var i :| 0 <= i < n && effects[..n][i].Mkfs? && effects[..n][i].done;
    assert effects[i] == effects[..n][i];
  }

  /** With the journal out of the way of every deletion, storage preparation cannot lose it. */
  lemma RebootIntent(site: Site, w: World, report: BootReport, inherited: Network)
    requires PossibleBoot(site, w, report) && JournalIsSafe(site)
    ensures var v := Partition(Rebooted(site, w, report, inherited));
            v.journal == Found(Partition(w), report) && v.shadows == {} && v.journal in Possible(Partition(w))
  {
    var e := report.effects;
    forall i | 0 <= i < |e| && e[i].Clear?
      ensures !(STATE_ROOT + e[i].tree <= site.profile.journal)
    {
      assert Storage.Lawful(site.policy, report.devices, report.boot, e[..i], e[i]);
    }
  }

  // ---------------------------------------------------------------------------------------------
  // Theorem
  // ---------------------------------------------------------------------------------------------

  /** What one action does to an intent on the partition. */
  ghost predicate IntentAfter(p: Profile, w: World, v: World, a: Device.Action) {
    || KeepsIntent(Partition(w), Partition(v))
    || (a.PowerCycle? && (DurablyIntends(Partition(w)) ==> DurablyIntends(Partition(v))))
    || (a.RunBootstrap? && v.parked.None? && ResetDone(p, v))
  }

  lemma RebootReset(site: Site, w: World, report: BootReport, inherited: Network)
    requires PossibleBoot(site, w, report) && JournalIsSafe(site)
    ensures var v := Rebooted(site, w, report, inherited);
            FlagIsEarned(v) && (DurablyIntends(Partition(w)) ==> DurablyIntends(Partition(v)))
  {
    RebootEarns(site, w, report, inherited);
    RebootIntent(site, w, report, inherited);
  }

  lemma BootstrapReset(site: Site, w: World)
    requires WorldOk(w) && FlagIsEarned(w) && JournalIsSafe(site)
    ensures var v := Bootstrapped(site.profile, w);
            FlagIsEarned(v) && IntentAfter(site.profile, w, v, RunBootstrap)
  {
    BootstrapDeeds(site.profile, w);
    BootstrapMoves(site.profile, w);
    if Intends(w.live.journal) { BootstrapIntent(site.profile, w); }
  }

  lemma StartReset(p: Profile, w: World, found: Configuration)
    requires WorldOk(w) && FlagIsEarned(w)
    ensures FlagIsEarned(Started(p, w, found).w) && KeepsIntent(Partition(w), Partition(Started(p, w, found).w))
  {
    StartFrame(p, w, found);
    StartMoves(p, w, found);
  }

  lemma RequestReset(p: Profile, m: Memory, w: World, a: Device.Action)
    requires WorldOk(w) && MemoryOk(m, w) && IsRequest(a) && FlagIsEarned(w)
    ensures var v := Requested(p, m, w, a).w; FlagIsEarned(v) && KeepsIntent(Partition(w), Partition(v))
  {
    RequestIntent(p, m, w, a);
    RequestParked(p, m, w, a);
  }

  lemma ActReset(site: Site, s: Sys, a: Device.Action)
    requires SysOk(s) && FlagIsEarned(s.w) && JournalIsSafe(site)
    requires a.PowerCycle? ==> PossibleBoot(site, s.w, a.report)
    ensures FlagIsEarned(Act(site, s, a).w) && IntentAfter(site.profile, s.w, Act(site, s, a).w, a)
  {
    if IsRequest(a) {
      if s.daemon.Some? { RequestReset(site.profile, s.daemon.value, s.w, a); }
    } else {
      match a
      case PowerCycle(report, inherited) => RebootReset(site, s.w, report, inherited);
      case RunBootstrap => BootstrapReset(site, s.w);
      case StartDaemon(found) => StartReset(site.profile, s.w, found);
      case _ =>
    }
  }

  lemma RequestParked(p: Profile, m: Memory, w: World, a: Device.Action)
    requires WorldOk(w) && MemoryOk(m, w) && IsRequest(a)
    ensures Request(p, m, w, a).w.parked == w.parked
  {
    if a.BeginCall? {
      BeginParked(p, m, w, a.proposal);
    } else {
      RequestMoves(p, m, w, a);
    }
  }

  lemma BeginParked(p: Profile, m: Memory, w: World, q: Proposal)
    requires WorldOk(w) && MemoryOk(m, w)
    ensures BeginNetwork(p, m, w, q).w.parked == w.parked
  {
    ConsultFacts(m, w);
    var r0 := Consult(m, w);
    if Obstacle(m).None? && FreshProposal(q, w.live.settings) {
      PlatformKept(m, w, r0.w);
      ProposeSound(m, r0.w, q);
      EnterKeeps(m.(state := Propose(m, r0.w, q)), Drawn(r0.w));
    }
  }

  /** Every boot of the run leaves a storage trace that `prepare` can leave. */
  ghost predicate PossibleRun(site: Site, s: Sys, es: seq<Event>) {
    es == [] ||
    var before, e := es[..|es| - 1], es[|es| - 1];
    PossibleRun(site, s, before)
    && (e.action.PowerCycle? ==> PossibleBoot(site, Passed(Run(site, s, before).w, e), e.action.report))
  }

  lemma {:induction false} RunEarns(site: Site, s: Sys, es: seq<Event>)
    requires Fresh(s) && s.w.boot.status.None? && JournalIsSafe(site) && PossibleRun(site, s, es)
    ensures SysOk(Run(site, s, es)) && FlagIsEarned(Run(site, s, es).w)
  {
    RunKeeps(site, s, es);
    if es != [] {
      var before, e := es[..|es| - 1], es[|es| - 1];
      RunEarns(site, s, before);
      var t := Run(site, s, before);
      PassedKeeps(t, e);
      ActReset(site, t.(w := Passed(t.w, e)), e.action);
    }
  }

  /**
   * Over any sequence of boots, crashes and requests, a durable intent, one that no power cut can
   * take back, is no longer durable after an event only if that event is a bootstrap, in a boot in
   * which `prepare` has formatted data and cleared all its trees, that removed every reset path and
   * put network, SSH and clock at the defaults. Short of a power cut the same holds of an intent
   * that is merely the last one written.
   */
  lemma ResetEndToEnd(site: Site, s: Sys, es: seq<Event>)
    requires Fresh(s) && s.w.boot.status.None? && JournalIsSafe(site) && PossibleRun(site, s, es) && es != []
    requires site.profile.storageStatus
    ensures var before, after := Run(site, s, es[..|es| - 1]).w, Run(site, s, es).w;
            || (DurablyIntends(Partition(before)) && !DurablyIntends(Partition(after)))
            || (Intends(Partition(before).journal) && !Intends(Partition(after).journal)
                && !es[|es| - 1].action.PowerCycle?) ==>
              && es[|es| - 1].action.RunBootstrap?
              && after.boot.formatted && after.boot.cleared
              && ResetDone(site.profile, after)
  {
    var before, e := es[..|es| - 1], es[|es| - 1];
    RunEarns(site, s, before);
    var t := Run(site, s, before);
    PassedKeeps(t, e);
    ActReset(site, t.(w := Passed(t.w, e)), e.action);
  }

  // ---------------------------------------------------------------------------------------------
  // Progress
  // ---------------------------------------------------------------------------------------------

  lemma {:induction false} RemoveWithoutFaults(p: Profile, m: Memory, w: World, paths: seq<ResetPath>)
    requires forall i :: 0 <= i < |paths| && i < |w.fates| ==> w.fates[i].Done?
    ensures var r := RemovePaths(p, m, w, paths);
            && r.out.Ok? && r.w.fates == (if |w.fates| < |paths| then [] else w.fates[|paths|..])
            && ((exists i :: 0 <= i < |paths| && Covers(paths[i], p.journal)) || w.live.journal.None? ==>
                r.w.live.journal.None?)
    decreases |paths|
  {
    if paths != [] {
      var r := RemovePath(p, m, w, paths[0]);
      RemoveWithoutFaults(p, m, r.w, paths[1..]);
      assert forall i :: 1 <= i < |paths| ==> paths[i] == paths[1..][i - 1];
    } else {
      assert w.fates[0..] == w.fates;
    }
  }

  /** A prepared reset that meets no fault completes, durably, whatever earlier attempts left behind. */
  lemma ResetCompletes(p: Profile, w: World)
    requires WorldOk(w) && Intends(w.live.journal) && ResetPrepared(p, w) && w.fates == [] && SafePaths(p)
    ensures var v := Bootstrapped(p, w); ResetDone(p, v) && v.live.shadows == {} && v.boot.recovered
  {
    LoadSound(p, w);
    var m := Load(p, w.live.journal);
    CompleteWithoutFaults(p, m, w);
    CompleteResetIntent(p, m, w);
    var r := CompleteReset(p, m, w);
    if p.bootPreferences.Some? {
      IdentityAfterReset(p, p.bootPreferences.value, r);
      IdentityWithoutFaults(p.bootPreferences.value, r.m, r.w);
    }
  }

  lemma CompleteWithoutFaults(p: Profile, m: Memory, w: World)
    requires w.fates == [] && !m.storageFailed && ResetPrepared(p, w)
    ensures var r := CompleteReset(p, m, w);
            r.out.Ok? && r.w.fates == [] && !r.m.storageFailed && r.w.live.shadows == {}
  {
    RemoveWithoutFaults(p, m, w, p.resetPaths);
    RemoveFacts(p, m, w, p.resetPaths);
    var r1 := RemovePaths(p, m, w, p.resetPaths);
    PoliciesWithoutFaults(m.(state := ResetState(p, m.state)), r1.w);
  }

  lemma PoliciesWithoutFaults(m: Memory, w: World)
    requires w.fates == []
    ensures ApplyBootPolicies(m, w).out.Ok? && ApplyBootPolicies(m, w).w.fates == [] && ApplyBootPolicies(m, w).m == m
  {
  }

  lemma IdentityWithoutFaults(b: BootPreferences, m: Memory, w: World)
    requires w.fates == [] && !m.storageFailed
    ensures BootIdentity(b, m, w).out.Ok? && BootIdentity(b, m, w).w.live.shadows == {}
  {
  }
}
