/** What a normal return of each request promises its caller, and what a handled failure leaves behind. */
module Outcomes {
  import opened Configuration
  import opened Validation
  import opened Faults
  import opened Journal
  import opened Manager
  import opened Invariant

  /** The journal holds what memory holds, and no power cut brings anything else back. */
  predicate Durable(m: Memory, w: World) {
    w.live.journal == Some(m.state) && w.live.shadows == {}
  }

  /** The proposal as journalled, in memory and in force, for 120 seconds from now. */
  predicate ProposalStands(m: Memory, w: World, q: Proposal, r: Result) {
    && r.m.state.pending == Pending(w.past.nextId, Proposed, q.network, NetworkOf(m.state), q.previousHash,
        q.candidateHash, w.boot.now + 120000)
    && Durable(r.m, r.w) && r.w.platform.network == In(q.network)
    && r.m.state.configuration == m.state.configuration
  }

  lemma EnterPromises(m: Memory, w: World)
    requires m.jobDeadline == 0 && InFlight(m.state) && m.state.pending.deadline > w.boot.now
    ensures var r := EnterTransaction(m, w);
            && (r.out.Ok? ==> r.m == m && Durable(m, r.w) && r.w.platform.network == In(m.state.pending.network))
            && (r.out.Threw? && !r.m.storageFailed && !InFlight(r.m.state) ==>
                  && r.m.state == Settled(m.state, false) && Durable(r.m, r.w)
                  && r.w.platform.network == In(m.state.pending.previous))
  {
    PersistFacts(m, w);
    var r1 := Persist(m, w);
    if r1.out.Ok? {
      NetworkFacts(r1.m, r1.w, m.state.pending.network);
      var r2 := ApplyNetwork(r1.m, r1.w, m.state.pending.network);
      if r2.out.Threw? {
        SettlePromises(r2.m, r2.w, false);
      }
    }
  }

  lemma SettlePromises(m: Memory, w: World, commit: bool)
    requires InFlight(m.state)
    ensures var r := SettleNetwork(m, w, commit);
            && (r.m.state == m.state || r.m.state == Settled(m.state, commit))
            && (r.out.Ok? || (!r.out.Crashed? && !r.m.storageFailed && !InFlight(r.m.state)) ==>
                  && r.m.state == Settled(m.state, commit) && Durable(r.m, r.w)
                  && r.w.platform.network == In(NetworkOf(r.m.state)))
  {
    var next := if commit then m.state.pending.network else m.state.pending.previous;
    NetworkFacts(m, w, next);
    PersistFacts(m.(state := Settled(m.state, commit)), ApplyNetwork(m, w, next).w);
  }

  /**
   * `beginNetwork`: the proposal is durable and in force for 120 seconds, or, if it failed and was undone, as
   * before.
   */
  lemma BeginPromises(p: Profile, m: Memory, w: World, q: Proposal)
    requires WorldOk(w) && MemoryOk(m, w)
    ensures var r := BeginNetwork(p, m, w, q);
            && (r.out.Ok? ==> ProposalStands(m, w, q, r))
            && (r.out.Threw? && Obstacle(m).None? && !r.m.storageFailed && !InFlight(r.m.state)
                && r.m.state != m.state ==>
                  && r.m.state.pending.phase.RolledBack? && r.m.state.configuration == m.state.configuration
                  && Durable(r.m, r.w) && r.w.platform.network == In(NetworkOf(m.state)))
  {
    ConsultFacts(m, w);
    var r0 := Consult(m, w);
    if Obstacle(m).None? && r0.out.Ok? {
      EnterPromises(m.(state := Propose(m, r0.w, q)), Drawn(r0.w));
    }
  }

  /**
   * `prepareNetworkCommit`: the named transaction is durably committing, so that no power cut can
   * take the step back; the first time for the settings it was proposed for, later as it was.
   */
  predicate Prepared(m: Memory, w: World, id: nat, r: Result) {
    && r.m.state.pending.phase.Committing? && r.m.state.pending.id == id
    && r.w.live.journal.Some? && r.w.live.journal.value.pending == r.m.state.pending && r.w.live.shadows == {}
    && (m.state.pending.phase.Proposed? ==>
          r.w.live.settings == m.state.pending.previousHash && r.m.state.pending.deadline == w.boot.now + 30000)
    && (m.state.pending.phase.Committing? ==> r.m.state.pending == m.state.pending)
    && r.m.state.pending.network == m.state.pending.network && r.m.state.pending.previous == m.state.pending.previous
  }

  lemma PreparePromises(m: Memory, w: World, id: nat)
    requires WorldOk(w) && MemoryOk(m, w)
    ensures PrepareCommit(m, w, id).out.Ok? ==> Prepared(m, w, id, PrepareCommit(m, w, id))
  {
    TickKeeps(m, w);
    QuietTick(m, w);
    var t := Tick(m, w);
    PersistFacts(ToCommitting(t.m, t.w), t.w);
  }

  /** A tick that returns leaves a transaction alone or settles it; the clock and the settings stay. */
  lemma QuietTick(m: Memory, w: World)
    requires WorldOk(w) && MemoryOk(m, w)
    ensures var r := Tick(m, w);
            r.out.Ok? ==>
              && (InFlight(r.m.state) ==> r.m.state.pending == m.state.pending)
              && r.w.boot == w.boot && r.w.live.settings == w.live.settings && !r.m.storageFailed
  {
    if !m.storageFailed && InFlight(m.state) {
      var commit := Verdict(m.state, w.live.settings);
      var next := if commit then m.state.pending.network else m.state.pending.previous;
      NetworkFacts(m, w, next);
      PersistFacts(m.(state := Settled(m.state, commit)), ApplyNetwork(m, w, next).w);
    } else {
      var m1 := m.(jobDeadline := 0, state := m.state.(job := m.state.job.(state := Dispatched)));
      PersistFacts(m1, w);
    }
  }

  /**
   * `finishNetwork`: the named transaction is settled as asked, in memory, on disk and in force; asking again
   * is harmless.
   */
  predicate Finished(m: Memory, w: World, id: nat, commit: bool, r: Result) {
    && r.m.state.pending.id == id && r.m.state.pending.phase == (if commit then Committed else RolledBack)
    && (!r.m.storageFailed ==> r.w.live.journal.Some? && r.w.live.journal.value.pending == r.m.state.pending)
    && (InFlight(m.state) ==>
          && NetworkOf(r.m.state) == (if commit then m.state.pending.network else m.state.pending.previous)
          && Durable(r.m, r.w) && r.w.platform.network == In(NetworkOf(r.m.state))
          && (commit <==> w.live.settings == m.state.pending.candidateHash && m.state.pending.phase.Committing?)
          && FinishNetwork(r.m, r.w, id, commit) == Result(r.m, r.w, Ok))
  }

  lemma FinishPromises(m: Memory, w: World, id: nat, commit: bool)
    requires WorldOk(w) && MemoryOk(m, w)
    ensures FinishNetwork(m, w, id, commit).out.Ok? ==> Finished(m, w, id, commit, FinishNetwork(m, w, id, commit))
  {
    if InFlight(m.state) { SettlePromises(m, w, commit); }
  }

  /** `power` and `resetDevice`: a fresh job is durably accepted and falls due five seconds later. */
  predicate Taken(m: Memory, w: World, action: Action, r: Result) {
    && r.m.state.job == Job(w.past.nextId, action, Accepted) && Durable(r.m, r.w)
    && r.m.jobDeadline == w.boot.now + 5000
    && (r.m.state.resetIntent <==> action.DeviceReset?)
    && r.m.state.job.id != m.state.job.id
    && r.w.platform == w.platform && r.m.state.configuration == m.state.configuration
  }

  lemma AcceptPromises(m: Memory, w: World, action: Action)
    requires WorldOk(w) && MemoryOk(m, w) && Obstacle(m).None?
    ensures AcceptJob(m, w, action).out.Ok? ==> Taken(m, w, action, AcceptJob(m, w, action))
  {
    PersistFacts(m.(state := Taking(m, w, action)), Counted(w, action));
  }

  /** A dispatched job: durable first, then one power call; a call that throws is durably a failure. */
  predicate Fired(m: Memory, w: World, r: Result) {
    && r.m.jobDeadline == 0
    && (r.out.Ok? ==>
          && Durable(r.m, r.w) && r.m.state == m.state.(job := m.state.job.(state := Dispatched))
          && r.w.past.powerCalls == w.past.powerCalls + [PowerCall(m.state.job.id, m.state.job.action.Shutdown?,
              Some(r.m.state))])
    && (r.out.Threw? && !r.m.storageFailed ==> Durable(r.m, r.w) && r.m.state.job.state.Failed?)
    && (|r.w.past.powerCalls| <= |w.past.powerCalls| + 1)
  }

  lemma DispatchPromises(m: Memory, w: World)
    ensures Fired(m, w, DispatchJob(m, w))
  {
    var m1 := m.(jobDeadline := 0, state := m.state.(job := m.state.job.(state := Dispatched)));
    PersistFacts(m1, w);
    var r1 := Persist(m1, w);
    if r1.out.Ok? {
      var r2 := CallPower(r1.m, r1.w);
      PersistFacts(r2.m.(state := r2.m.state.(job := r2.m.state.job.(state := Failed))), r2.w);
    }
  }

  /** `start` without a reset: a job found accepted is durably interrupted, and the daemon begins with nothing armed. */
  predicate Underway(m: Memory, r: Result) {
    && r.m.state.initialized && !InFlight(r.m.state) && r.m.jobDeadline == 0
    && r.m.state.job == (if m.state.job.state.Accepted? then m.state.job.(state := Interrupted) else m.state.job)
    && r.w.live.journal.Some? && r.w.live.journal.value.job == r.m.state.job
    && (m.state.job.state.Accepted? ==> Durable(r.m, r.w))
  }

  lemma StartPromises(p: Profile, w: World, found: Configuration)
    requires WorldOk(w)
    ensures var m := Load(p, w.live.journal);
            Start(m, w, found).out.Ok? && !m.state.resetIntent ==> Underway(m, Start(m, w, found))
  {
    LoadSound(p, w);
    var m := Load(p, w.live.journal);
    if !m.state.resetIntent {
      ConsultFacts(m, w);
      var r1 := if m.state.initialized then Result(m, w, Ok) else Discover(m, w, found);
      if r1.out.Ok? {
        FoundOnDisk(m, w, found);
        RecoverOnDisk(r1.m, r1.w);
        var r2 := RecoverNetwork(r1.m, r1.w);
        PersistFacts(r2.m.(state := r2.m.state.(job := r2.m.state.job.(state := Interrupted))), r2.w);
      }
    }
  }

  predicate Recorded(m: Memory, w: World, m0: Memory) {
    && m.state.initialized && m.state.job == m0.state.job && m.jobDeadline == m0.jobDeadline && !m.storageFailed
    && w.live.journal.Some? && w.live.journal.value.job == m.state.job
  }

  lemma FoundOnDisk(m: Memory, w: World, found: Configuration)
    requires !m.storageFailed && (m.state.initialized ==> OnDisk(m, w))
    ensures var r := if m.state.initialized then Result(m, w, Ok) else Discover(m, w, found);
            r.out.Ok? ==> Recorded(r.m, r.w, m)
  {
    ConsultFacts(m, w);
    var v := Consult(m, w).w;
    if !w.platform.network.Mixed? {
      PersistFacts(m.(state := m.state.(configuration := WithNetwork(found, w.platform.network.value),
          initialized := true)), v);
    }
  }

  lemma RecoverOnDisk(m: Memory, w: World)
    requires Recorded(m, w, m)
    ensures var r := RecoverNetwork(m, w); r.out.Ok? ==> Recorded(r.m, r.w, m) && !InFlight(r.m.state)
  {
    if InFlight(m.state) { SettlePromises(m, w, Verdict(m.state, w.live.settings)); }
  }

  // ---------------------------------------------------------------------------------------------
  // Boot
  // ---------------------------------------------------------------------------------------------

  /** Network, SSH and clock policy of this configuration are in force. */
  predicate InForceAre(c: Configuration, v: World) {
    && v.platform.network == In(c.system.network) && v.platform.ssh == In(c.system.sshEnabled)
    && v.platform.clock == In(c.time)
  }

  predicate NeverConfigured(journal: Option<State>) {
    journal.None? || (!journal.value.initialized && !journal.value.resetIntent)
  }

  /**
   * `bootstrap` that returns: the journal's own policies are in force, with the default PTP port where
   * it names none; on a first boot those of the boot preferences, and the journal holds them; without
   * any configuration only the default clock policy; after a reset the defaults. The managed host
   * name, where there is one, is in force and in the journal.
   */
  predicate BootedWith(p: Profile, journal: Option<State>, v: World) {
    && (journal.Some? && journal.value.initialized && !journal.value.resetIntent ==>
          && v.live.journal.Some? && v.platform.network == In(NetworkOf(v.live.journal.value))
          && v.platform.ssh == In(journal.value.configuration.system.sshEnabled)
          && var time := journal.value.configuration.time;
          v.platform.clock == In(if time.ptpInterface != "" then time
              else time.(ptpInterface := p.defaults.time.ptpInterface)))
    && (NeverConfigured(journal) && p.bootPreferences.Some? ==>
          var b := p.bootPreferences.value;
          && InForceAre(b.initial, v) && v.live.journal.Some? && v.live.journal.value.initialized
          && v.live.journal.value.configuration ==
             b.initial.(system := b.initial.system.(hostname := b.managedHostname)))
    && (NeverConfigured(journal) && p.bootPreferences.None? ==>
          v.platform.clock == In(p.defaults.time) && v.live.journal == journal)
    && (Intends(journal) ==> InForceAre(p.defaults, v))
    && (p.bootPreferences.Some? ==>
          var name := p.bootPreferences.value.managedHostname;
          && v.platform.hostname == In(name) && v.live.shadows == {}
          && v.live.journal.Some? && v.live.journal.value.configuration.system.hostname == name)
  }

  /** What a branch that returns has put in force, and the configuration it leaves in memory. */
  predicate Branch(c: Configuration, r: Result) {
    r.out.Ok? ==> InForceAre(c, r.w) && r.m.state.configuration == c
  }

  lemma ResetBranch(p: Profile, m: Memory, w: World)
    ensures Branch(p.defaults, CompleteReset(p, m, w))
  {
    RemoveFacts(p, m, w, p.resetPaths);
    var r1 := RemovePaths(p, m, w, p.resetPaths);
    var m1 := m.(state := ResetState(p, m.state));
    BootPolicyFacts(m1, r1.w);
    PersistFacts(m1.(state := m1.state.(resetIntent := false, job := m1.state.job.(state := Completed))),
                 ApplyBootPolicies(m1, r1.w).w);
  }

  lemma RestoreBranch(m: Memory, w: World)
    requires w.live.journal.Some? && NetworkOf(w.live.journal.value) == NetworkOf(m.state)
    ensures var r := RestoreBoot(m, w);
            && Branch(WithNetwork(m.state.configuration, NetworkOf(r.m.state)), r)
            && (r.out.Ok? ==> r.w.live.journal.Some? && NetworkOf(r.w.live.journal.value) == NetworkOf(r.m.state))
  {
    if InFlight(m.state) { SettlePromises(m, w, Verdict(m.state, w.live.settings)); }
    var r := RecoverNetwork(m, w);
    BootPolicyFacts(r.m, r.w);
  }

  lemma FirstBranch(b: BootPreferences, m: Memory, w: World)
    ensures var r := FirstBoot(b, m, w);
            && Branch(b.initial, r)
            && (r.out.Ok? ==> r.w.live.journal == Some(r.m.state) && r.m.state.initialized)
  {
    var m1 := m.(state := m.state.(configuration := b.initial));
    BootPolicyFacts(m1, w);
    PersistFacts(m1.(state := m1.state.(initialized := true)), ApplyBootPolicies(m1, w).w);
  }

  /** The identity step changes the host name, and nothing else that is in force or configured. */
  lemma IdentityNames(b: BootPreferences, m: Memory, w: World)
    ensures var r := BootIdentity(b, m, w);
            r.out.Ok? ==>
              && r.w.platform == w.platform.(hostname := In(b.managedHostname)) && Durable(r.m, r.w)
              && r.m.state == m.state.(configuration := m.state.configuration.(
                                         system := m.state.configuration.system.(hostname := b.managedHostname)))
  {
    var c := m.state.configuration;
    var m1 := m.(state := m.state.(configuration := c.(system := c.system.(hostname := b.managedHostname))));
    HostnameFacts(m1, w, b.managedHostname);
    PersistFacts(m1, ApplyHostname(m1, w, b.managedHostname).w);
  }

  lemma BootPromises(p: Profile, w: World)
    ensures var r := Bootstrap(p, Load(p, w.live.journal), w);
            r.out.Ok? ==> BootedWith(p, w.live.journal, r.w)
  {
    var m := Load(p, w.live.journal);
    if m.state.resetIntent {
      ResetBranch(p, m, w);
      Named(p, CompleteReset(p, m, w));
    } else if m.state.initialized {
      RestoreBranch(m, w);
      Named(p, RestoreBoot(m, w));
    } else if p.bootPreferences.Some? {
      FirstBranch(p.bootPreferences.value, m, w);
      Named(p, FirstBoot(p.bootPreferences.value, m, w));
    } else {
      ClockFacts(m, w, p.defaults.time);
    }
  }

  lemma Named(p: Profile, r: Result)
    ensures p.bootPreferences.Some? && r.out.Ok? && Identified(p, r).out.Ok? ==>
              var b, t := p.bootPreferences.value, Identified(p, r);
              && t.w.platform == r.w.platform.(hostname := In(b.managedHostname)) && Durable(t.m, t.w)
              && t.m.state == r.m.state.(configuration := r.m.state.configuration.(
                                           system := r.m.state.configuration.system.(hostname := b.managedHostname)))
  {
    if p.bootPreferences.Some? { IdentityNames(p.bootPreferences.value, r.m, r.w); }
  }

  // ---------------------------------------------------------------------------------------------
  // Start
  // ---------------------------------------------------------------------------------------------

  /** For a reset, `start` only arms the reboot; a device that was never configured takes over what is in force. */
  lemma StartTakesOver(p: Profile, w: World, found: Configuration)
    ensures var m := Load(p, w.live.journal);
            var r := Start(m, w, found);
            && (m.state.resetIntent ==> r == Result(m.(jobDeadline := w.boot.now + 5000), w, Ok))
            && (!m.state.resetIntent && !m.state.initialized && !InFlight(m.state) && r.out.Ok? ==>
                  && w.platform.network.In? && ValidConfiguration(r.m.state.configuration)
                  && r.m.state.configuration == WithNetwork(found, w.platform.network.value) && Durable(r.m, r.w))
            && (!m.state.resetIntent && m.state.initialized && !InFlight(m.state) ==>
                  r.m.state.configuration == m.state.configuration)
  {
    var m := Load(p, w.live.journal);
    ConsultFacts(m, w);
    if w.platform.network.In? {
      var m1 := m.(state := m.state.(configuration := WithNetwork(found, w.platform.network.value),
          initialized := true));
      PersistFacts(m1, Consult(m, w).w);
    }
    var r1 := if m.state.initialized then Result(m, w, Ok) else Discover(m, w, found);
    PersistFacts(r1.m.(state := r1.m.state.(job := r1.m.state.job.(state := Interrupted))), r1.w);
  }
}
