/** A power job left over by a process that died is interrupted, and never fires. */
module PowerJobs {
  import opened Configuration
  import opened Validation
  import opened Faults
  import opened Journal
  import opened Manager
  import opened Device
  import opened Invariant
  import opened Runs
  import opened Agreement
  import opened FactoryReset

  /** Job x is no reset of this record. */
  predicate Plain(s: State, x: nat) {
    s.job.id == x ==> !s.resetIntent
  }

  /** Nothing in memory will fire job x. */
  predicate Disarmed(m: Memory, x: nat) {
    Plain(m.state, x) && (m.jobDeadline != 0 ==> m.state.job.id != x)
  }

  ghost predicate Uncalled(w: World, x: nat) {
    forall i :: 0 <= i < |w.past.powerCalls| ==> w.past.powerCalls[i].id != x
  }

  /** Nothing on disk will fire job x, and nothing has. */
  ghost predicate Spent(w: World, x: nat) {
    && 0 < x < w.past.nextId && Uncalled(w, x)
    && (forall j :: j in Possible(w.live) && j.Some? ==> Plain(j.value, x))
    && (w.parked.Some? ==> forall j :: j in Possible(w.parked.value) && j.Some? ==> Plain(j.value, x))
  }

  ghost predicate DeadJob(s: Sys, x: nat) {
    Spent(s.w, x) && (s.daemon.Some? ==> Disarmed(s.daemon.value, x))
  }

  ghost predicate StaysDead(r: Result, x: nat) {
    Spent(r.w, x) && Disarmed(r.m, x)
  }

  lemma PersistDead(m: Memory, w: World, x: nat)
    requires Spent(w, x) && Plain(m.state, x)
    ensures Spent(Persist(m, w).w, x)
  {
    PersistFacts(m, w);
  }

  lemma SettleDead(m: Memory, w: World, commit: bool, x: nat)
    requires Spent(w, x) && Disarmed(m, x)
    ensures StaysDead(SettleNetwork(m, w, commit), x)
  {
    var next := if commit then m.state.pending.network else m.state.pending.previous;
    NetworkFacts(m, w, next);
    var r := ApplyNetwork(m, w, next);
    var m1 := m.(state := Settled(m.state, commit));
    PersistFacts(m1, r.w);
    if r.out.Ok? { PersistDead(m1, r.w, x); }
  }

  lemma DispatchDead(m: Memory, w: World, x: nat)
    requires Spent(w, x) && Disarmed(m, x) && m.jobDeadline != 0
    ensures StaysDead(DispatchJob(m, w), x)
  {
    var m1 := m.(jobDeadline := 0, state := m.state.(job := m.state.job.(state := Dispatched)));
    PersistFacts(m1, w);
    PersistDead(m1, w, x);
    var r1 := Persist(m1, w);
    if r1.out.Ok? {
      var r2 := CallPower(r1.m, r1.w);
      CallPowerDead(r1.m, r1.w, x);
      if r2.out.Threw? {
        var m3 := r2.m.(state := r2.m.state.(job := r2.m.state.job.(state := Failed)));
        PersistFacts(m3, r2.w);
        PersistDead(m3, r2.w, x);
      }
    }
  }

  lemma CallPowerDead(m: Memory, w: World, x: nat)
    requires Spent(w, x) && m.state.job.id != x
    ensures Spent(CallPower(m, w).w, x) && CallPower(m, w).m == m
  {
  }

  lemma TickDead(m: Memory, w: World, x: nat)
    requires Spent(w, x) && Disarmed(m, x)
    ensures StaysDead(Tick(m, w), x)
  {
    SettleDead(m, w, Verdict(m.state, w.live.settings), x);
    var r := if InFlight(m.state) && w.boot.now >= m.state.pending.deadline then RecoverNetwork(m, w)
        else Result(m, w, Ok);
    if r.m.jobDeadline != 0 { DispatchDead(r.m, r.w, x); }
  }

  lemma AcceptDead(m: Memory, w: World, action: Journal.Action, x: nat)
    requires Spent(w, x) && Disarmed(m, x)
    ensures StaysDead(AcceptJob(m, w, action), x)
  {
    var s := Taking(m, w, action);
    var v := Counted(w, action);
    PersistFacts(m.(state := s), v);
    PersistDead(m.(state := s), v, x);
  }

  lemma ApplyDead(p: Profile, m: Memory, w: World, c: Configuration, x: nat)
    requires Spent(w, x) && Disarmed(m, x)
    ensures StaysDead(Apply(p, m, w, c), x)
  {
    if Obstacle(m).None? {
      ConsultFacts(m, w);
      InstallDead(m, Consult(m, w).w, c, x);
    }
  }

  lemma InstallDead(m: Memory, w: World, c: Configuration, x: nat)
    requires Spent(w, x) && Disarmed(m, x) && !m.storageFailed
    ensures var r := InstallPreferences(m, w, c);
            && StaysDead(r, x)
            && (r.out.Threw? ==> StaysDead(RollBackPreferences(r.m, r.w, m.state.configuration, r.out), x))
  {
    InstallRewrites(m, w, c);
    var r := InstallPreferences(m, w, c);
    if r.out.Threw? {
      RollBackRewrites(r.m, r.w, m.state.configuration, r.out);
    }
  }

  lemma BeginDead(p: Profile, m: Memory, w: World, q: Proposal, x: nat)
    requires Spent(w, x) && Disarmed(m, x)
    ensures StaysDead(BeginNetwork(p, m, w, q), x)
  {
    ConsultFacts(m, w);
    var v := Consult(m, w).w;
    EnterDead(m.(state := Propose(m, v, q)), Drawn(v), x);
  }

  lemma EnterDead(m: Memory, w: World, x: nat)
    requires Spent(w, x) && Disarmed(m, x)
    ensures StaysDead(EnterTransaction(m, w), x)
  {
    PersistFacts(m, w);
    PersistDead(m, w, x);
    var r1 := Persist(m, w);
    if r1.out.Ok? {
      NetworkFacts(m, r1.w, m.state.pending.network);
      var r2 := ApplyNetwork(m, r1.w, m.state.pending.network);
      TickDead(m, r2.w, x);
      SettleDead(m, r2.w, false, x);
    }
  }

  lemma PrepareDead(m: Memory, w: World, id: nat, x: nat)
    requires Spent(w, x) && Disarmed(m, x)
    ensures StaysDead(PrepareCommit(m, w, id), x)
  {
    TickDead(m, w, x);
    var r := Tick(m, w);
    PersistFacts(ToCommitting(r.m, r.w), r.w);
    PersistDead(ToCommitting(r.m, r.w), r.w, x);
  }

  lemma RequestDead(p: Profile, m: Memory, w: World, a: Device.Action, x: nat)
    requires Spent(w, x) && Disarmed(m, x) && IsRequest(a)
    ensures StaysDead(Request(p, m, w, a), x)
  {
    match a
    case TickCall => TickDead(m, w, x);
    case ApplyCall(c) => ApplyDead(p, m, w, c, x);
    case BeginCall(q) => BeginDead(p, m, w, q, x);
    case PrepareCall(id) => PrepareDead(m, w, id, x);
    case FinishCall(id, commit) => SettleDead(m, w, commit, x);
    case PowerCallRequest(shutdown) => AcceptDead(m, w, if shutdown then Shutdown else Reboot, x);
    case ResetCall(confirmed) => AcceptDead(m, w, DeviceReset, x);
  }

  // ---------------------------------------------------------------------------------------------
  // Process start
  // ---------------------------------------------------------------------------------------------

  lemma LoadDead(p: Profile, w: World, x: nat)
    requires Spent(w, x)
    ensures Disarmed(Load(p, w.live.journal), x)
  {
  }

  lemma StartDead(p: Profile, w: World, found: Configuration, x: nat)
    requires Spent(w, x)
    ensures StaysDead(Start(Load(p, w.live.journal), w, found), x)
  {
    LoadDead(p, w, x);
    var m := Load(p, w.live.journal);
    if !m.state.resetIntent {
      DiscoverDead(m, w, found, x);
      var r1 := if m.state.initialized then Result(m, w, Ok) else Discover(m, w, found);
      SettleDead(r1.m, r1.w, Verdict(r1.m.state, r1.w.live.settings), x);
      var r2 := RecoverNetwork(r1.m, r1.w);
      var m3 := r2.m.(state := r2.m.state.(job := r2.m.state.job.(state := Interrupted)));
      PersistFacts(m3, r2.w);
      PersistDead(m3, r2.w, x);
    }
  }

  lemma DiscoverDead(m: Memory, w: World, found: Configuration, x: nat)
    requires Spent(w, x) && Disarmed(m, x)
    ensures StaysDead(Discover(m, w, found), x)
  {
    ConsultFacts(m, w);
    if w.platform.network.In? {
      var m1 := m.(state := m.state.(configuration := WithNetwork(found, w.platform.network.value),
          initialized := true));
      PersistFacts(m1, Consult(m, w).w);
      PersistDead(m1, Consult(m, w).w, x);
    }
  }

  /** What bootstrap writes keeps the job, and never adds an intent. */
  lemma BootstrapDead(p: Profile, m: Memory, w: World, x: nat)
    requires Spent(w, x) && Disarmed(m, x)
    ensures Spent(Bootstrap(p, m, w).w, x)
  {
    CompleteResetDead(p, m, w, x);
    RestoreDead(m, w, x);
    ClockFacts(m, w, p.defaults.time);
    if p.bootPreferences.Some? {
      var b := p.bootPreferences.value;
      FirstBootDead(b, m, w, x);
      IdentityDead(b, CompleteReset(p, m, w), x);
      IdentityDead(b, RestoreBoot(m, w), x);
      IdentityDead(b, FirstBoot(b, m, w), x);
    }
  }

  lemma CompleteResetDead(p: Profile, m: Memory, w: World, x: nat)
    requires Spent(w, x) && Disarmed(m, x)
    ensures StaysDead(CompleteReset(p, m, w), x)
  {
    RemoveFacts(p, m, w, p.resetPaths);
    var r1 := RemovePaths(p, m, w, p.resetPaths);
    var m1 := m.(state := ResetState(p, m.state));
    BootPolicyFacts(m1, r1.w);
    var r2 := ApplyBootPolicies(m1, r1.w);
    var m2 := m1.(state := m1.state.(resetIntent := false, job := m1.state.job.(state := Completed)));
    PersistFacts(m2, r2.w);
    PersistDead(m2, r2.w, x);
  }

  lemma RestoreDead(m: Memory, w: World, x: nat)
    requires Spent(w, x) && Disarmed(m, x)
    ensures StaysDead(RestoreBoot(m, w), x)
  {
    SettleDead(m, w, Verdict(m.state, w.live.settings), x);
    var r := RecoverNetwork(m, w);
    BootPolicyFacts(r.m, r.w);
  }

  lemma FirstBootDead(b: BootPreferences, m: Memory, w: World, x: nat)
    requires Spent(w, x) && Disarmed(m, x)
    ensures StaysDead(FirstBoot(b, m, w), x)
  {
    var m1 := m.(state := m.state.(configuration := b.initial));
    BootPolicyFacts(m1, w);
    var r := ApplyBootPolicies(m1, w);
    var m2 := m1.(state := m1.state.(initialized := true));
    PersistFacts(m2, r.w);
    PersistDead(m2, r.w, x);
  }

  lemma IdentityDead(b: BootPreferences, r: Result, x: nat)
    requires StaysDead(r, x)
    ensures Spent(BootIdentity(b, r.m, r.w).w, x)
  {
    var c := r.m.state.configuration;
    var m1 := r.m.(state := r.m.state.(configuration := c.(system := c.system.(hostname := b.managedHostname))));
    HostnameFacts(m1, r.w, b.managedHostname);
    PersistDead(m1, ApplyHostname(m1, r.w, b.managedHostname).w, x);
  }

  // ---------------------------------------------------------------------------------------------
  // Theorem
  // ---------------------------------------------------------------------------------------------

  lemma BootstrappedDead(p: Profile, w: World, x: nat)
    requires Spent(w, x)
    ensures Spent(Bootstrapped(p, w), x)
  {
    LoadDead(p, w, x);
    BootstrapDead(p, Load(p, w.live.journal), w, x);
  }

  lemma RequestedDead(p: Profile, m: Memory, w: World, a: Device.Action, x: nat)
    requires Spent(w, x) && Disarmed(m, x) && IsRequest(a)
    ensures DeadJob(Requested(p, m, w, a), x)
  {
    RequestDead(p, m, w, a, x);
  }

  lemma ActDead(site: Site, s: Sys, a: Device.Action, x: nat)
    requires DeadJob(s, x)
    ensures DeadJob(Act(site, s, a), x)
  {
    match a
    case PowerCycle(report, inherited) =>
    case WriteSettings(hash) =>
    case KillDaemon =>
    case RunBootstrap => BootstrappedDead(site.profile, s.w, x);
    case StartDaemon(found) => StartDead(site.profile, s.w, found, x);
    case _ => if s.daemon.Some? { RequestedDead(site.profile, s.daemon.value, s.w, a, x); }
  }

  lemma StepDead(site: Site, s: Sys, e: Event, x: nat)
    requires DeadJob(s, x)
    ensures DeadJob(Step(site, s, e), x)
  {
    assert Spent(Passed(s.w, e), x);
    ActDead(site, s.(w := Passed(s.w, e)), e.action, x);
  }

  lemma {:induction false} RunDead(site: Site, s: Sys, es: seq<Event>, x: nat)
    requires DeadJob(s, x)
    ensures DeadJob(Run(site, s, es), x)
  {
    if es != [] {
      RunDead(site, s, es[..|es| - 1], x);
      StepDead(site, Run(site, s, es[..|es| - 1]), es[|es| - 1], x);
    }
  }

  /**
   * A reboot or shutdown that the journal still has as accepted, or as interrupted, when no daemon
   * is running was never carried out, and no continuation of the run ever carries it out.
   */
  lemma InterruptedNeverFires(site: Site, s: Sys, es: seq<Event>, more: seq<Event>)
    requires Fresh(s)
    ensures var t := Run(site, s, es);
            LeftOver(t) ==> Uncalled(Run(site, t, more).w, t.w.live.journal.value.job.id)
  {
    RunKeeps(site, s, es);
    var t := Run(site, s, es);
    if LeftOver(t) {
      LeftOverIsDead(t);
      RunDead(site, t, more, t.w.live.journal.value.job.id);
    }
  }

  /** No daemon is running, and the journal has a reboot or shutdown as accepted, or as interrupted. */
  ghost predicate LeftOver(s: Sys) {
    && s.daemon.None? && s.w.live.journal.Some?
    && var state := s.w.live.journal.value;
    && !state.resetIntent && state.job.id != 0 && (state.job.state.Accepted? || state.job.state.Interrupted?)
  }

  lemma LeftOverIsDead(s: Sys)
    requires SysOk(s) && LeftOver(s)
    ensures DeadJob(s, s.w.live.journal.value.job.id)
  {
    assert Quiet(s.w.live.journal.value, s.w.past.powerCalls) && Apart(s.w.live.journal.value, s.w);
  }
}
