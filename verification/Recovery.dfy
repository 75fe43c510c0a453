/** Recoverability: whatever a run has done to a device, a boot without further faults brings it back. */
module Recovery {
  import opened Configuration
  import opened Validation
  import opened Faults
  import opened Journal
  import opened Manager
  import opened Device
  import opened Invariant
  import opened Runs
  import opened Outcomes
  import opened FactoryReset

  // ---------------------------------------------------------------------------------------------
  // Bootstrap
  // ---------------------------------------------------------------------------------------------

  lemma SettleWithoutFaults(m: Memory, w: World, commit: bool)
    requires w.fates == [] && !m.storageFailed
    ensures var r := SettleNetwork(m, w, commit);
            r.out.Ok? && r.w.fates == [] && r.m == m.(state := Settled(m.state, commit))
  {
  }

  lemma RestoreWithoutFaults(m: Memory, w: World)
    requires w.fates == [] && !m.storageFailed
    ensures var r := RestoreBoot(m, w); r.out.Ok? && r.w.fates == [] && !r.m.storageFailed
  {
    SettleWithoutFaults(m, w, Verdict(m.state, w.live.settings));
    var r := RecoverNetwork(m, w);
    PoliciesWithoutFaults(r.m, r.w);
  }

  lemma FirstBootWithoutFaults(b: BootPreferences, m: Memory, w: World)
    requires w.fates == [] && !m.storageFailed
    ensures var r := FirstBoot(b, m, w); r.out.Ok? && r.w.fates == [] && !r.m.storageFailed
  {
    PoliciesWithoutFaults(m.(state := m.state.(configuration := b.initial)), w);
  }

  /** A boot without faults returns normally and has recovered, unless it finds a reset that is not prepared. */
  lemma BootRecovers(p: Profile, w: World)
    requires WorldOk(w) && w.fates == []
    ensures var r := Bootstrap(p, Load(p, w.live.journal), w);
            && (r.out.Ok? <==> !Intends(w.live.journal) || ResetPrepared(p, w))
            && (r.out.Ok? ==> Recovered(r.w))
  {
    LoadSound(p, w);
    BootstrapKeeps(p, w);
    BootReturns(p, Load(p, w.live.journal), w);
  }

  lemma BootReturns(p: Profile, m: Memory, w: World)
    requires w.fates == [] && !m.storageFailed
    ensures Bootstrap(p, m, w).out.Ok? <==> !m.state.resetIntent || ResetPrepared(p, w)
  {
    if m.state.resetIntent {
      if ResetPrepared(p, w) {
        CompleteWithoutFaults(p, m, w);
        IdentityReturns(p, CompleteReset(p, m, w));
      }
    } else if m.state.initialized {
      RestoreWithoutFaults(m, w);
      IdentityReturns(p, RestoreBoot(m, w));
    } else if p.bootPreferences.Some? {
      FirstBootWithoutFaults(p.bootPreferences.value, m, w);
      IdentityReturns(p, FirstBoot(p.bootPreferences.value, m, w));
    }
  }

  lemma IdentityReturns(p: Profile, r: Result)
    requires r.w.fates == [] && !r.m.storageFailed && r.out.Ok?
    ensures p.bootPreferences.Some? ==> BootIdentity(p.bootPreferences.value, r.m, r.w).out.Ok?
  {
    if p.bootPreferences.Some? { IdentityWithoutFaults(p.bootPreferences.value, r.m, r.w); }
  }

  // ---------------------------------------------------------------------------------------------
  // Start
  // ---------------------------------------------------------------------------------------------

  /** What a device that was never configured can take over as its configuration. */
  ghost predicate Discoverable(w: World, found: Configuration) {
    w.platform.network.In? && ValidConfiguration(WithNetwork(found, w.platform.network.value))
  }

  /** A start without faults returns normally unless it has to discover what cannot be taken over. */
  lemma StartReturns(p: Profile, w: World, found: Configuration)
    requires w.fates == []
    ensures var m := Load(p, w.live.journal);
            Start(m, w, found).out.Ok? <==> m.state.resetIntent || m.state.initialized || Discoverable(w, found)
  {
    var m := Load(p, w.live.journal);
    if !m.state.resetIntent && m.state.initialized {
      SettleWithoutFaults(m, w, Verdict(m.state, w.live.settings));
    }
  }

  // ---------------------------------------------------------------------------------------------
  // Every run
  // ---------------------------------------------------------------------------------------------

  /** A device that has been configured, with no daemon running and no reset to complete. */
  predicate Configured(s: Sys) {
    && s.daemon.None? && s.w.live.journal.Some?
    && s.w.live.journal.value.initialized && !s.w.live.journal.value.resetIntent
  }

  /** The daemon answers requests, nothing is in flight, and the network in force is the configured one. */
  ghost predicate InService(s: Sys) {
    && s.daemon.Some? && SysOk(s) && s.w.boot.recovered
    && !s.daemon.value.storageFailed && Obstacle(s.daemon.value).None?
    && s.w.platform.network == In(NetworkOf(s.daemon.value.state))
  }

  lemma BootstrapStep(site: Site, s: Sys, elapsed: nat)
    requires SysOk(s) && Configured(s)
    ensures var t := Step(site, s, Event(RunBootstrap, elapsed, []));
            && SysOk(t) && t.daemon.None? && t.w.boot.recovered && Recovered(t.w) && Configured(t)
  {
    var e := Event(RunBootstrap, elapsed, []);
    var w := Passed(s.w, e);
    StepKeeps(site, s, e);
    PassedKeeps(s, e);
    BootRecovers(site.profile, w);
    BootStaysConfigured(site.profile, w);
  }

  lemma BootStaysConfigured(p: Profile, w: World)
    requires WorldOk(w) && w.live.journal.Some? && w.live.journal.value.initialized && !w.live.journal.value.resetIntent
    ensures var v := Bootstrapped(p, w); v.live.journal.Some? && v.live.journal.value.initialized
  {
    LoadSound(p, w);
    var m := Load(p, w.live.journal);
    RestoreStaysConfigured(m, w);
    var r := RestoreBoot(m, w);
    if p.bootPreferences.Some? { IdentityStaysConfigured(p.bootPreferences.value, r.m, r.w); }
  }

  lemma RestoreStaysConfigured(m: Memory, w: World)
    requires m.state.initialized && w.live.journal.Some? && w.live.journal.value.initialized
    ensures var r := RestoreBoot(m, w);
            r.m.state.initialized && r.w.live.journal.Some? && r.w.live.journal.value.initialized
  {
    var commit := Verdict(m.state, w.live.settings);
    var next := if commit then m.state.pending.network else m.state.pending.previous;
    NetworkFacts(m, w, next);
    PersistFacts(m.(state := Settled(m.state, commit)), ApplyNetwork(m, w, next).w);
    var r := RecoverNetwork(m, w);
    BootPolicyFacts(r.m, r.w);
  }

  lemma IdentityStaysConfigured(b: BootPreferences, m: Memory, w: World)
    requires m.state.initialized && w.live.journal.Some? && w.live.journal.value.initialized
    ensures var v := BootIdentity(b, m, w).w; v.live.journal.Some? && v.live.journal.value.initialized
  {
    var c := m.state.configuration;
    var m1 := m.(state := m.state.(configuration := c.(system := c.system.(hostname := b.managedHostname))));
    HostnameFacts(m1, w, b.managedHostname);
    PersistFacts(m1, ApplyHostname(m1, w, b.managedHostname).w);
  }

  lemma StartStep(site: Site, s: Sys, elapsed: nat, found: Configuration)
    requires SysOk(s) && Configured(s) && s.w.boot.recovered && Recovered(s.w)
    ensures InService(Step(site, s, Event(StartDaemon(found), elapsed, [])))
  {
    var e := Event(StartDaemon(found), elapsed, []);
    var w := Passed(s.w, e);
    PassedKeeps(s, e);
    StepKeeps(site, s, e);
    StartReturns(site.profile, w, found);
    StartInService(site.profile, w, found);
  }

  lemma StartInService(p: Profile, w: World, found: Configuration)
    requires WorldOk(w) && w.fates == [] && Configured(Sys(None, w)) && w.boot.recovered && !LiveInFlight(w)
    ensures var r := Start(Load(p, w.live.journal), w, found);
            && !r.m.storageFailed && Obstacle(r.m).None? && r.w.platform == w.platform && r.w.boot == w.boot
            && NetworkOf(r.m.state) == NetworkOf(w.live.journal.value)
  {
  }

  /**
   * After any run of a fresh device, however its calls failed and wherever it died: if it has been
   * configured, one bootstrap and one start without faults put it in service again, with any
   * transaction settled and the configured network in force.
   */
  lemma RecoversInEveryRun(site: Site, s: Sys, es: seq<Event>, first: nat, second: nat, found: Configuration)
    requires Fresh(s)
    ensures var t := Run(site, s, es);
            Configured(t) ==>
              InService(Step(site, Step(site, t, Event(RunBootstrap, first, [])),
                  Event(StartDaemon(found), second, [])))
  {
    RunKeeps(site, s, es);
    var t := Run(site, s, es);
    if Configured(t) {
      BootstrapStep(site, t, first);
      StartStep(site, Step(site, t, Event(RunBootstrap, first, [])), second, found);
    }
  }
}
