/** Every run keeps the invariant; and what that means for jobs, networks, deadlines and preferences. */
module Runs {
  import opened Configuration
  import opened Validation
  import opened Faults
  import opened Journal
  import opened Manager
  import opened Device
  import opened Invariant

  ghost predicate SysOk(s: Sys) {
    WorldOk(s.w) && (s.daemon.Some? ==> MemoryOk(s.daemon.value, s.w))
  }

  /** A device as it leaves the factory: no journal, no settings, nothing running. */
  ghost predicate Fresh(s: Sys) {
    && s.daemon.None? && s.w.live == Disk(None, "", {}) && s.w.parked.None?
    && s.w.past.powerCalls == [] && s.w.past.nextId > 0 && !s.w.boot.recovered
  }

  ghost function Run(site: Site, s: Sys, es: seq<Event>): Sys {
    if es == [] then s else Step(site, Run(site, s, es[..|es| - 1]), es[|es| - 1])
  }

  lemma RequestKeeps(p: Profile, m: Memory, w: World, a: Device.Action)
    requires WorldOk(w) && MemoryOk(m, w) && IsRequest(a)
    ensures Keeps(Request(p, m, w, a))
  {
    match a
    case TickCall => TickKeeps(m, w);
    case ApplyCall(c) => ApplyKeeps(p, m, w, c);
    case BeginCall(q) => BeginKeeps(p, m, w, q);
    case PrepareCall(id) => PrepareKeeps(m, w, id);
    case FinishCall(id, commit) => FinishKeeps(m, w, id, commit);
    case PowerCallRequest(shutdown) =>
      if Obstacle(m).None? { AcceptKeeps(m, w, if shutdown then Shutdown else Reboot); }
    case ResetCall(confirmed) =>
      if Obstacle(m).None? { AcceptKeeps(m, w, DeviceReset); }
  }

  /** Time passes and new fates are drawn; settings may change. */
  lemma TimeKeeps(m: Memory, w: World, v: World)
    requires WorldOk(w) && v == w.(live := v.live, boot := w.boot.(now := v.boot.now), fates := v.fates)
    requires v.boot.now >= w.boot.now && v.live.journal == w.live.journal && v.live.shadows == w.live.shadows
    ensures WorldOk(v)
    ensures MemoryOk(m, w) ==> MemoryOk(m, v)
  {
  }

  lemma RebootKeeps(site: Site, w: World, report: BootReport, inherited: Network)
    requires WorldOk(w)
    ensures WorldOk(Rebooted(site, w, report, inherited))
  {
  }

  lemma BootstrappedKeeps(p: Profile, w: World)
    requires WorldOk(w)
    ensures WorldOk(Bootstrapped(p, w))
  {
    BootstrapKeeps(p, w);
    var r := Bootstrap(p, Load(p, w.live.journal), w);
    if r.out.Ok? { UnrestedKept(r.w, r.w.(boot := r.w.boot.(recovered := true))); }
  }

  lemma ActKeeps(site: Site, s: Sys, a: Device.Action)
    requires SysOk(s)
    ensures SysOk(Act(site, s, a))
  {
    match a
    case PowerCycle(report, inherited) => RebootKeeps(site, s.w, report, inherited);
    case WriteSettings(hash) =>
      TimeKeeps(if s.daemon.Some? then s.daemon.value else Load(site.profile, None), s.w,
                s.w.(live := s.w.live.(settings := hash)));
    case KillDaemon =>
    case RunBootstrap => BootstrappedKeeps(site.profile, s.w);
    case StartDaemon(found) => StartKeeps(site.profile, s.w, found);
    case _ => if s.daemon.Some? { RequestKeeps(site.profile, s.daemon.value, s.w, a); }
  }

  lemma StepKeeps(site: Site, s: Sys, e: Event)
    requires SysOk(s)
    ensures SysOk(Step(site, s, e))
  {
    PassedKeeps(s, e);
    ActKeeps(site, s.(w := Passed(s.w, e)), e.action);
  }

  lemma PassedKeeps(s: Sys, e: Event)
    requires SysOk(s)
    ensures SysOk(s.(w := Passed(s.w, e)))
  {
    if s.daemon.Some? {
      TimeKeeps(s.daemon.value, s.w, Passed(s.w, e));
    }
  }

  /** The invariant holds after every run of a fresh device, whatever fails and whenever it dies. */
  lemma {:induction false} RunKeeps(site: Site, s: Sys, es: seq<Event>)
    requires SysOk(s) || Fresh(s)
    ensures SysOk(Run(site, s, es))
  {
    if es != [] {
      RunKeeps(site, s, es[..|es| - 1]);
      StepKeeps(site, Run(site, s, es[..|es| - 1]), es[|es| - 1]);
    }
  }

  // ---------------------------------------------------------------------------------------------
  // Consequences for every run
  // ---------------------------------------------------------------------------------------------

  /** In memory, in whatever journal a power cut may leave, and on a parked partition; an armed deadline has a cause. */
  lemma ExclusivityInEveryRun(site: Site, s: Sys, es: seq<Event>)
    requires Fresh(s)
    ensures var t := Run(site, s, es);
            && (t.daemon.Some? ==>
                  && Exclusive(t.daemon.value.state)
                  && (t.daemon.value.jobDeadline != 0 ==>
                        t.daemon.value.state.job.state.Accepted? || t.daemon.value.state.resetIntent))
            && (forall j :: j in Possible(t.w.live) && j.Some? ==> Exclusive(j.value))
            && (forall j :: j in Possible(Partition(t.w)) && j.Some? ==> Exclusive(j.value))
  {
    RunKeeps(site, s, es);
  }

  /** No transaction survives a normal return of bootstrap or start, even the early return for a reset. */
  lemma NothingPendingAfterBoot(site: Site, s: Sys, es: seq<Event>, found: Configuration)
    requires Fresh(s)
    ensures var w := Run(site, s, es).w;
            var m := Load(site.profile, w.live.journal);
            && (Bootstrap(site.profile, m, w).out.Ok? ==> !LiveInFlight(Bootstrap(site.profile, m, w).w))
            && (Start(m, w, found).out.Ok? ==> !InFlight(Start(m, w, found).m.state))
  {
    RunKeeps(site, s, es);
    var w := Run(site, s, es).w;
    BootstrapKeeps(site.profile, w);
    StartKeeps(site.profile, w, found);
  }

  /** Write-ahead consistency, from the end of each boot's recovery on. */
  lemma WriteAheadInEveryRun(site: Site, s: Sys, es: seq<Event>)
    requires Fresh(s)
    ensures var w := Run(site, s, es).w;
            w.boot.recovered && AtRest(w.live.journal) ==> w.platform.network == In(NetworkOf(w.live.journal.value))
  {
    RunKeeps(site, s, es);
  }

  /**
   * Each power call finds its job durably dispatched and does what the job says; no job causes two,
   * unless both were for a reset that the journal still asked for, which only reboots.
   */
  lemma PowerAtMostOnce(site: Site, s: Sys, es: seq<Event>)
    requires Fresh(s)
    ensures var calls := Run(site, s, es).w.past.powerCalls;
            && (forall i :: 0 <= i < |calls| ==>
                  && calls[i].durable.Some? && calls[i].durable.value.job.state.Dispatched?
                  && calls[i].durable.value.job.id == calls[i].id
                  && calls[i].shutdown == calls[i].durable.value.job.action.Shutdown?)
            && (forall i, j :: 0 <= i < j < |calls| && calls[i].id == calls[j].id ==>
                  && ForReset(calls[i]) && calls[i].durable.value.job.action.DeviceReset? && !calls[i].shutdown
                  && ForReset(calls[j]) && calls[j].durable.value.job.action.DeviceReset? && !calls[j].shutdown)
  {
    RunKeeps(site, s, es);
  }

  /** Bounded lifetime: 150 seconds after a transaction began, a tick that returns has settled it. */
  lemma SettledInTime(site: Site, s: Sys, es: seq<Event>, e: Event)
    requires Fresh(s) && Run(site, s, es).daemon.Some?
    ensures var t := Run(site, s, es);
            var m, w := t.daemon.value, Passed(t.w, e);
            Tick(m, w).out.Ok? && InFlight(m.state) ==>
              && m.state.pending.id in w.past.begun
              && (w.boot.now >= w.past.begun[m.state.pending.id].time + 150000 ==>
                    !InFlight(Tick(m, w).m.state) && !LiveInFlight(Tick(m, w).w))
  {
    RunKeeps(site, s, es);
    var t := Run(site, s, es);
    PassedKeeps(t, e);
    var m, w := t.daemon.value, Passed(t.w, e);
    if Tick(m, w).out.Ok? {
      TickLeavesTime(m, w);
      TickKeeps(m, w);
    }
  }

  // ---------------------------------------------------------------------------------------------
  // Preferences are all or nothing
  // ---------------------------------------------------------------------------------------------

  /** Memory, disk and platform all at one configuration, whatever happens next. */
  ghost predicate Everywhere(m: Memory, w: World, c: Configuration) {
    && m.state.configuration == c && w.live.journal == Some(m.state) && w.live.shadows == {}
    && w.platform.preferences == In(c) && w.platform.ssh == In(c.system.sshEnabled) && w.platform.clock == In(c.time)
  }

  ghost predicate NetworkUnchanged(m: Memory, w: World, r: Result) {
    && NetworkOf(r.m.state) == NetworkOf(m.state) && r.w.platform.network == w.platform.network
    && r.w.live.journal.Some? && NetworkOf(r.w.live.journal.value) == NetworkOf(m.state)
  }

  lemma InstallEverywhere(m: Memory, w: World, c: Configuration)
    requires InstallPreferences(m, w, c).out.Ok?
    ensures Everywhere(InstallPreferences(m, w, c).m, InstallPreferences(m, w, c).w, c)
  {
    PreferencesFacts(m, w, c);
    var r1 := ApplyPreferences(m, w, c);
    SshFacts(m, r1.w, c.system.sshEnabled);
    PersistFacts(m.(state := m.state.(configuration := c, initialized := true)),
        ApplySsh(m, r1.w, c.system.sshEnabled).w);
  }

  lemma RollBackEverywhere(m: Memory, w: World, r1: Result, b: State)
    requires MemoryOk(m, w) && Obstacle(m).None? && Repreferred(m.state, b) && Rewrote(m, w, r1, b)
    requires r1.out.Threw? && r1.out != Threw(NeedsRecovery)
    ensures var r := RollBackPreferences(r1.m, r1.w, m.state.configuration, r1.out);
            NetworkUnchanged(m, w, r)
            && (r.out.Crashed? || r.out == Threw(NeedsRecovery)
                || (r.out == r1.out && Everywhere(r.m, r.w, m.state.configuration)))
  {
    RollBackRewrites(r1.m, r1.w, m.state.configuration, r1.out);
  }

  lemma RewroteNetwork(m: Memory, w: World, r: Result, b: State)
    requires OnDisk(m, w) && Repreferred(m.state, b) && Rewrote(m, w, r, b)
    ensures NetworkUnchanged(m, w, r)
  {
  }

  /**
   * `apply` ends with the new configuration everywhere, or with the previous one everywhere, or
   * without having touched anything, or it says that recovery is needed; the network never changes.
   */
  ghost predicate AllOrNothing(m: Memory, w: World, c: Configuration, r: Result) {
    && (r.out.Ok? ==> Everywhere(r.m, r.w, c))
    && (r.out.Threw? ==>
          || r.out == Threw(NeedsRecovery)
          || (r.m == m && r.w == w.(fates := r.w.fates))
          || Everywhere(r.m, r.w, m.state.configuration))
    && (Obstacle(m).None? ==> NetworkUnchanged(m, w, r))
  }

  lemma ApplyAllOrNothing(p: Profile, m: Memory, w: World, c: Configuration)
    requires WorldOk(w) && MemoryOk(m, w)
    ensures AllOrNothing(m, w, c, Apply(p, m, w, c))
  {
    if Obstacle(m).None? && ValidConfiguration(c) && ManagedHostname(p, c) {
      ConsultFacts(m, w);
      var v := Consult(m, w).w;
      PlatformKept(m, w, v);
      if Consult(m, w).out.Ok? && c.system.network == NetworkOf(m.state) {
        var b := m.state.(configuration := c, initialized := true);
        var r1 := InstallPreferences(m, v, c);
        InstallRewrites(m, v, c);
        RewroteNetwork(m, v, r1, b);
        if r1.out.Ok? {
          InstallEverywhere(m, v, c);
        } else if r1.out.Threw? {
          InstallCause(m, v, c);
          RollBackEverywhere(m, v, r1, b);
        }
      }
    }
  }

  /** The same of every request to apply preferences, in every run. */
  lemma ApplyInEveryRun(site: Site, s: Sys, es: seq<Event>, e: Event)
    requires Fresh(s) && e.action.ApplyCall?
    ensures var t, c := Run(site, s, es), e.action.configuration;
            t.daemon.Some? ==>
              && AllOrNothing(t.daemon.value, Passed(t.w, e), c, Apply(site.profile, t.daemon.value, Passed(t.w, e), c))
              && Step(site, t, e).w == Apply(site.profile, t.daemon.value, Passed(t.w, e), c).w
  {
    RunKeeps(site, s, es);
    var t, c := Run(site, s, es), e.action.configuration;
    PassedKeeps(t, e);
    if t.daemon.Some? {
      ApplyAllOrNothing(site.profile, t.daemon.value, Passed(t.w, e), c);
      ApplyIsTheStep(site, t, e);
    }
  }

  lemma ApplyIsTheStep(site: Site, t: Sys, e: Event)
    requires t.daemon.Some? && e.action.ApplyCall?
    ensures Step(site, t, e).w == Apply(site.profile, t.daemon.value, Passed(t.w, e), e.action.configuration).w
  {
  }

  lemma InstallCause(m: Memory, w: World, c: Configuration)
    ensures InstallPreferences(m, w, c).out != Threw(NeedsRecovery)
  {
  }
}
