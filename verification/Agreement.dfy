/**
 * Crash-safe agreement between the journal and the settings file: however a run goes, a network
 * transaction leaves the journal by the one verdict that recovery would also have reached.
 */
module Agreement {
  import opened Configuration
  import opened Validation
  import opened Faults
  import opened Journal
  import opened Manager
  import opened Device
  import opened Invariant
  import opened Runs
  import Storage

  // ---------------------------------------------------------------------------------------------
  // How a durable transaction may move
  // ---------------------------------------------------------------------------------------------

  /** The same transaction, at most one phase on, and the configuration it started from. */
  predicate SameTransaction(a: State, b: State) {
    && b.pending.id == a.pending.id && b.pending.network == a.pending.network
        && b.pending.previous == a.pending.previous
    && b.pending.previousHash == a.pending.previousHash && b.pending.candidateHash == a.pending.candidateHash
    && NetworkOf(b) == NetworkOf(a)
    && (b.pending.phase == a.pending.phase || (a.pending.phase.Proposed? && b.pending.phase.Committing?))
  }

  /** Settled: the candidate's network and "committed", or the previous one and "rolled back". */
  predicate SettledBy(a: State, b: State, commit: bool) {
    && b.pending == a.pending.(phase := if commit then Committed else RolledBack)
    && NetworkOf(b) == if commit then a.pending.network else a.pending.previous
  }

  /** In flight it stays itself or is settled by the verdict; nothing else puts one in flight. */
  predicate Evolves(a: Option<State>, b: Option<State>, settings: string) {
    if a.Some? && InFlight(a.value)
    then b.Some? && (SameTransaction(a.value, b.value) || SettledBy(a.value, b.value, Verdict(a.value, settings)))
    else b.Some? ==> !InFlight(b.value)
  }

  predicate IsProposed(journal: Option<State>) {
    journal.Some? && journal.value.pending.phase.Proposed?
  }

  /** Nothing that a power cut may leave is a proposal that it could not have left before. */
  ghost predicate Tame(a: Disk, b: Disk) {
    forall j :: j in Possible(b) && IsProposed(j) ==> j in Possible(a)
  }

  /** The parts of the world that agreement is about. */
  ghost predicate Moves(w: World, v: World) {
    && Evolves(w.live.journal, v.live.journal, w.live.settings) && Tame(w.live, v.live)
    && v.live.settings == w.live.settings && v.parked == w.parked
  }

  // ---------------------------------------------------------------------------------------------
  // Requests
  // ---------------------------------------------------------------------------------------------

  /** Writing a state whose transaction is the one on disk, or its settlement. */
  lemma PersistMoves(m: Memory, w: World)
    requires !m.storageFailed ==>
             Evolves(w.live.journal, Some(m.state), w.live.settings) && !m.state.pending.phase.Proposed?
    ensures Moves(w, Persist(m, w).w)
  {
    PersistFacts(m, w);
  }

  lemma SettleMoves(m: Memory, w: World, commit: bool)
    requires !m.storageFailed ==> OnDisk(m, w)
    requires InFlight(m.state)
    requires !m.storageFailed ==> commit == Verdict(m.state, w.live.settings)
    ensures Moves(w, SettleNetwork(m, w, commit).w)
  {
    var next := if commit then m.state.pending.network else m.state.pending.previous;
    NetworkFacts(m, w, next);
    var r := ApplyNetwork(m, w, next);
    if r.out.Ok? {
      PersistMoves(m.(state := Settled(m.state, commit)), r.w);
    }
  }

  lemma DispatchMoves(m: Memory, w: World)
    requires WorldOk(w) && MemoryOk(m, w) && m.jobDeadline != 0 && !m.storageFailed
    ensures Moves(w, DispatchJob(m, w).w)
  {
    var m1 := m.(jobDeadline := 0, state := m.state.(job := m.state.job.(state := Dispatched)));
    DispatchKeeps(m, w);
    PersistFacts(m1, w);
    PersistMoves(m1, w);
    var r1 := Persist(m1, w);
    if r1.out.Ok? {
      var r2 := CallPower(r1.m, r1.w);
      CallPowerFacts(r1.m, r1.w);
      if r2.out.Threw? {
        PersistFacts(r2.m.(state := r2.m.state.(job := r2.m.state.job.(state := Failed))), r2.w);
      }
    }
  }

  lemma CallPowerFacts(m: Memory, w: World)
    ensures var r := CallPower(m, w); r.m == m && r.w.live == w.live && r.w.parked == w.parked
  {
  }

  /** What a request does to the transaction in memory. */
  predicate Carries(m: Memory, w: World, r: Result) {
    InFlight(r.m.state) ==>
      && InFlight(m.state) && r.m.state.pending.candidateHash == m.state.pending.candidateHash
      && (r.m.state.pending.phase == m.state.pending.phase
          || (m.state.pending.phase.Proposed? && w.live.settings == m.state.pending.previousHash))
  }

  lemma SettleCarries(m: Memory, w: World, commit: bool)
    requires InFlight(m.state)
    ensures Carries(m, w, SettleNetwork(m, w, commit))
    ensures SettleNetwork(m, w, commit).m.jobDeadline == m.jobDeadline
  {
    var next := if commit then m.state.pending.network else m.state.pending.previous;
    NetworkFacts(m, w, next);
    PersistFacts(m.(state := Settled(m.state, commit)), ApplyNetwork(m, w, next).w);
  }

  lemma TickMoves(m: Memory, w: World)
    requires WorldOk(w) && MemoryOk(m, w)
    ensures Moves(w, Tick(m, w).w) && Carries(m, w, Tick(m, w))
  {
    if !m.storageFailed {
      if InFlight(m.state) {
        SettleMoves(m, w, Verdict(m.state, w.live.settings));
        SettleCarries(m, w, Verdict(m.state, w.live.settings));
      } else if m.jobDeadline != 0 && w.boot.now >= m.jobDeadline {
        DispatchMoves(m, w);
        DispatchKeeps(m, w);
      }
    }
  }

  lemma PrepareMoves(m: Memory, w: World, id: nat)
    requires WorldOk(w) && MemoryOk(m, w)
    ensures Moves(w, PrepareCommit(m, w, id).w) && Carries(m, w, PrepareCommit(m, w, id))
  {
    TickMoves(m, w);
    TickKeeps(m, w);
    var r := Tick(m, w);
    if r.out.Ok? && Current(r.m, id) && r.m.state.pending.phase.Proposed?
       && r.w.live.settings == r.m.state.pending.previousHash {
      TickLeavesTime(m, w);
      PersistFacts(ToCommitting(r.m, r.w), r.w);
      PersistMoves(ToCommitting(r.m, r.w), r.w);
    }
  }

  lemma FinishMoves(m: Memory, w: World, id: nat, commit: bool)
    requires WorldOk(w) && MemoryOk(m, w)
    ensures Moves(w, FinishNetwork(m, w, id, commit).w) && Carries(m, w, FinishNetwork(m, w, id, commit))
  {
    if Current(m, id) && commit == Verdict(m.state, w.live.settings) {
      SettleMoves(m, w, commit);
      SettleCarries(m, w, commit);
    }
  }

  lemma ApplyMoves(p: Profile, m: Memory, w: World, c: Configuration)
    requires WorldOk(w) && MemoryOk(m, w)
    ensures Moves(w, Apply(p, m, w, c).w) && Carries(m, w, Apply(p, m, w, c))
  {
    if Obstacle(m).None? && ValidConfiguration(c) && ManagedHostname(p, c) {
      ConsultFacts(m, w);
      var v := Consult(m, w).w;
      if Consult(m, w).out.Ok? && c.system.network == NetworkOf(m.state) {
        var r1 := InstallPreferences(m, v, c);
        InstallRewrites(m, v, c);
        if r1.out.Threw? {
          RollBackRewrites(r1.m, r1.w, m.state.configuration, r1.out);
        }
      }
    }
  }

  lemma AcceptMoves(m: Memory, w: World, action: Journal.Action)
    requires WorldOk(w) && MemoryOk(m, w) && Obstacle(m).None?
    ensures Moves(w, AcceptJob(m, w, action).w) && Carries(m, w, AcceptJob(m, w, action))
  {
    PersistFacts(m.(state := Taking(m, w, action)), Counted(w, action));
  }

  /** A begun transaction, in memory or on disk, starts from settings that are not its candidate. */
  predicate FromPrevious(s: State, settings: string) {
    InFlight(s) ==> s.pending.phase.Proposed? && settings != s.pending.candidateHash
  }

  lemma EnterMoves(m: Memory, w: World)
    requires WorldOk(w) && MemoryOk(m.(storageFailed := true), w) && !m.storageFailed && m.state.pending.phase.Proposed?
    requires FromPrevious(m.state, w.live.settings) && !LiveInFlight(w) && HonestDisk(w.live)
    ensures var r := EnterTransaction(m, w);
            && FromPrevious(r.m.state, w.live.settings) && HonestDisk(r.w.live)
            && (r.w.live.journal.Some? ==> FromPrevious(r.w.live.journal.value, w.live.settings))
            && r.w.live.settings == w.live.settings && r.w.parked == w.parked
  {
    PersistFacts(m, w);
    PersistKeeps(m, w);
    var r1 := Persist(m, w);
    if r1.out.Ok? {
      var n := m.state.pending.network;
      NetworkFacts(m, r1.w, n);
      var r2 := ApplyNetwork(m, r1.w, n);
      JournalKept(r1.w, r2.w);
      if r2.out.Ok? {
        TickMoves(m, r2.w);
        TickKeeps(m, r2.w);
        TickStaysProposed(m, r2.w);
      } else if r2.out.Threw? {
        SettleMoves(m, r2.w, false);
        SettleCarries(m, r2.w, false);
        SettleStays(m, r2.w, false);
      }
    }
  }

  lemma SettleStays(m: Memory, w: World, commit: bool)
    ensures var r := SettleNetwork(m, w, commit);
            (r.m.state == m.state || !InFlight(r.m.state))
            && (r.w.live.journal == w.live.journal || (r.w.live.journal.Some? && !InFlight(r.w.live.journal.value)))
  {
    var next := if commit then m.state.pending.network else m.state.pending.previous;
    NetworkFacts(m, w, next);
    PersistFacts(m.(state := Settled(m.state, commit)), ApplyNetwork(m, w, next).w);
  }

  lemma TickStaysProposed(m: Memory, w: World)
    requires WorldOk(w) && MemoryOk(m, w) && InFlight(m.state)
    ensures var r := Tick(m, w);
            (r.m.state == m.state || !InFlight(r.m.state))
            && (r.w.live.journal == w.live.journal || (r.w.live.journal.Some? && !InFlight(r.w.live.journal.value)))
  {
    SettleStays(m, w, Verdict(m.state, w.live.settings));
    SettleCarries(m, w, Verdict(m.state, w.live.settings));
  }

  /** Begin never disturbs a transaction already in flight, and what it starts is honest. */
  lemma BeginMoves(p: Profile, m: Memory, w: World, q: Proposal)
    requires WorldOk(w) && MemoryOk(m, w) && HonestDisk(w.live)
    ensures var r := BeginNetwork(p, m, w, q);
            && r.w.live.settings == w.live.settings && r.w.parked == w.parked && HonestDisk(r.w.live)
            && ((r.m == m && r.w.live == w.live)
                || (!LiveInFlight(w) && FromPrevious(r.m.state, w.live.settings)
                    && (r.w.live.journal.Some? ==> FromPrevious(r.w.live.journal.value, w.live.settings))))
  {
    ConsultFacts(m, w);
    var r0 := Consult(m, w);
    if Obstacle(m).None? && FreshProposal(q, w.live.settings) {
      PlatformKept(m, w, r0.w);
      ProposeSound(m, r0.w, q);
      EnterMoves(m.(state := Propose(m, r0.w, q)), Drawn(r0.w));
    }
  }

  // ---------------------------------------------------------------------------------------------
  // Process start
  // ---------------------------------------------------------------------------------------------

  lemma StartMoves(p: Profile, w: World, found: Configuration)
    requires WorldOk(w)
    ensures Moves(w, Start(Load(p, w.live.journal), w, found).w)
  {
    LoadSound(p, w);
    var m := Load(p, w.live.journal);
    if !m.state.resetIntent {
      if InFlight(m.state) {
        SettleMoves(m, w, Verdict(m.state, w.live.settings));
        SettleStays(m, w, Verdict(m.state, w.live.settings));
        if SettleNetwork(m, w, Verdict(m.state, w.live.settings)).out.Ok? {
          SettleOkOnDisk(m, w, Verdict(m.state, w.live.settings));
        }
      } else if m.state.initialized {
        InterruptMoves(m, w);
      } else {
        DiscoverMoves(m, w, found);
      }
    }
  }

  lemma InterruptMoves(m: Memory, w: World)
    requires !InFlight(m.state) && !LiveInFlight(w)
    ensures Moves(w, InterruptJob(m, w).w)
  {
    PersistFacts(m.(state := m.state.(job := m.state.job.(state := Interrupted))), w);
  }

  lemma DiscoverMoves(m: Memory, w: World, found: Configuration)
    requires !InFlight(m.state) && !m.state.initialized && !m.state.resetIntent && !LiveInFlight(w)
    ensures Moves(w, Start(m, w, found).w)
  {
    ConsultFacts(m, w);
    var r := Consult(m, w);
    if r.out.Ok? && w.platform.network.In? {
      var c := WithNetwork(found, w.platform.network.value);
      PersistFacts(m.(state := m.state.(configuration := c, initialized := true)), r.w);
      var r1 := Discover(m, w, found);
      if r1.out.Ok? { InterruptMoves(r1.m, r1.w); }
    }
  }

  lemma RestoreMoves(m: Memory, w: World)
    requires OnDisk(m, w) && !m.storageFailed
    ensures Moves(w, RestoreBoot(m, w).w)
    ensures RestoreBoot(m, w).out.Ok? ==>
              Evolves(w.live.journal, Some(RestoreBoot(m, w).m.state), w.live.settings)
                  && !InFlight(RestoreBoot(m, w).m.state)
  {
    var commit := Verdict(m.state, w.live.settings);
    if InFlight(m.state) {
      SettleMoves(m, w, commit);
      if SettleNetwork(m, w, commit).out.Ok? { SettleOkOnDisk(m, w, commit); }
    }
    var r := RecoverNetwork(m, w);
    BootPolicyFacts(r.m, r.w);
  }

  /** Bootstrap: in flight, it settles by the verdict; otherwise it starts nothing. */
  lemma BootstrapMoves(p: Profile, w: World)
    requires WorldOk(w)
    ensures var v := Bootstrap(p, Load(p, w.live.journal), w).w;
            && Evolves(w.live.journal, v.live.journal, w.live.settings) && Tame(w.live, v.live) && v.parked == w.parked
            && (v.live.settings == w.live.settings || (!LiveInFlight(w) && v.live.settings == ""))
  {
    LoadSound(p, w);
    var m := Load(p, w.live.journal);
    if LiveInFlight(w) {
      BootstrapSettles(p, m, w);
    } else {
      BootstrapQuiet(p, m, w);
    }
  }

  lemma BootstrapSettles(p: Profile, m: Memory, w: World)
    requires OnDisk(m, w) && !m.storageFailed && InFlight(m.state) && m.state.initialized && !m.state.resetIntent
    ensures Moves(w, Bootstrap(p, m, w).w)
  {
    RestoreMoves(m, w);
    var r := RestoreBoot(m, w);
    if r.out.Ok? && p.bootPreferences.Some? {
      IdentityMoves(p.bootPreferences.value, r.m, r.w);
    }
  }

  lemma IdentityMoves(b: BootPreferences, m: Memory, w: World)
    ensures var v := BootIdentity(b, m, w).w;
            && v.live.settings == w.live.settings && v.parked == w.parked
            && (!InFlight(m.state) ==> Tame(w.live, v.live))
            && (v.live.journal == w.live.journal
                || (v.live.journal.Some? && v.live.journal.value.pending == m.state.pending
                    && NetworkOf(v.live.journal.value) == NetworkOf(m.state)))
  {
    var c := m.state.configuration;
    var m1 := m.(state := m.state.(configuration := c.(system := c.system.(hostname := b.managedHostname))));
    HostnameFacts(m1, w, b.managedHostname);
    PersistFacts(m1, ApplyHostname(m1, w, b.managedHostname).w);
  }

  /** Nothing in flight, and the settings kept or deleted. */
  ghost predicate Quieted(w: World, v: World) {
    && !LiveInFlight(v) && v.parked == w.parked && Tame(w.live, v.live)
    && (v.live.settings == w.live.settings || v.live.settings == "")
  }

  /** Without a transaction in flight, no branch of bootstrap writes one. */
  lemma BootstrapQuiet(p: Profile, m: Memory, w: World)
    requires !InFlight(m.state) && !LiveInFlight(w)
    ensures var v := Bootstrap(p, m, w).w; Quieted(w, v)
  {
    if m.state.resetIntent {
      CompleteResetQuiet(p, m, w);
      QuietIdentity(p, CompleteReset(p, m, w));
    } else if m.state.initialized {
      BootPolicyFacts(m, w);
      QuietIdentity(p, RestoreBoot(m, w));
    } else if p.bootPreferences.Some? {
      var m1 := m.(state := m.state.(configuration := p.bootPreferences.value.initial));
      BootPolicyFacts(m1, w);
      PersistFacts(m1.(state := m1.state.(initialized := true)), ApplyBootPolicies(m1, w).w);
      QuietIdentity(p, FirstBoot(p.bootPreferences.value, m, w));
    } else {
      ClockFacts(m, w, p.defaults.time);
    }
  }

  lemma QuietIdentity(p: Profile, r: Result)
    requires !LiveInFlight(r.w) && (r.out.Ok? ==> !InFlight(r.m.state))
    ensures Quieted(r.w, Identified(p, r).w)
  {
    if p.bootPreferences.Some? { IdentityMoves(p.bootPreferences.value, r.m, r.w); }
  }

  lemma CompleteResetQuiet(p: Profile, m: Memory, w: World)
    requires !InFlight(m.state) && !LiveInFlight(w)
    ensures var r := CompleteReset(p, m, w);
            Quieted(w, r.w) && (r.out.Ok? ==> !InFlight(r.m.state))
  {
    RemoveFacts(p, m, w, p.resetPaths);
    var r1 := RemovePaths(p, m, w, p.resetPaths);
    var m1 := m.(state := ResetState(p, m.state));
    BootPolicyFacts(m1, r1.w);
    var r2 := ApplyBootPolicies(m1, r1.w);
    PersistFacts(m1.(state := m1.state.(resetIntent := false, job := m1.state.job.(state := Completed))), r2.w);
  }

  // ---------------------------------------------------------------------------------------------
  // Discipline of the settings authority, and what it buys
  // ---------------------------------------------------------------------------------------------

  predicate LiveCommitting(d: Disk) {
    d.journal.Some? && d.journal.value.pending.phase.Committing?
  }

  /** Before a durable prepare the candidate settings are not on disk. */
  ghost predicate HonestDisk(d: Disk) {
    forall j :: j in Possible(d) && IsProposed(j) ==> d.settings != j.value.pending.candidateHash
  }

  ghost predicate HonestMemory(m: Memory, d: Disk) {
    InFlight(m.state) && (m.state.pending.phase.Proposed? || !LiveCommitting(d)) ==>
      d.settings != m.state.pending.candidateHash
  }

  ghost predicate HonestWorld(w: World) {
    HonestDisk(w.live) && (w.parked.Some? ==> HonestDisk(w.parked.value))
  }

  ghost predicate HonestSys(s: Sys) {
    && HonestWorld(s.w) && (s.daemon.Some? ==> HonestMemory(s.daemon.value, s.w.live))
  }

  /**
   * The rules of the environment: storage traces are ones `prepare` can leave, and the authority
   * writes a transaction's candidate settings only while no power cut can take prepare's journal
   * entry back, which is so when prepare has returned normally and until the transaction is settled.
   */
  ghost predicate Allowed(site: Site, s: Sys, a: Device.Action) {
    match a
    case PowerCycle(report, _) => PossibleBoot(site, s.w, report)
    case WriteSettings(hash) =>
      && (forall j :: j in Possible(s.w.live) && IsProposed(j) ==> hash != j.value.pending.candidateHash)
      && (s.daemon.Some? && InFlight(s.daemon.value.state) && hash == s.daemon.value.state.pending.candidateHash ==>
            s.daemon.value.state.pending.phase.Committing? && LiveCommitting(s.w.live))
    case _ => true
  }

  /** What a request leaves: the discipline, and a transaction on disk kept or settled by the verdict. */
  ghost predicate HonestResult(w: World, r: Result) {
    && HonestDisk(r.w.live) && (!r.out.Crashed? ==> HonestMemory(r.m, r.w.live))
    && (LiveInFlight(w) ==> Evolves(w.live.journal, r.w.live.journal, w.live.settings))
    && r.w.live.settings == w.live.settings && r.w.parked == w.parked
  }

  lemma MovesHonestly(m: Memory, w: World, r: Result)
    requires HonestDisk(w.live) && HonestMemory(m, w.live) && Moves(w, r.w) && Carries(m, w, r) && Keeps(r)
    ensures HonestResult(w, r)
  {
  }

  lemma BeginHonest(p: Profile, m: Memory, w: World, q: Proposal)
    requires WorldOk(w) && MemoryOk(m, w) && HonestDisk(w.live) && HonestMemory(m, w.live)
    ensures HonestResult(w, BeginNetwork(p, m, w, q))
  {
    BeginMoves(p, m, w, q);
  }

  lemma RequestHonest(p: Profile, m: Memory, w: World, a: Device.Action)
    requires WorldOk(w) && MemoryOk(m, w) && IsRequest(a) && HonestDisk(w.live) && HonestMemory(m, w.live)
    ensures HonestResult(w, Request(p, m, w, a))
  {
    if a.BeginCall? {
      BeginHonest(p, m, w, a.proposal);
    } else {
      RequestKeeps(p, m, w, a);
      RequestMoves(p, m, w, a);
      MovesHonestly(m, w, Request(p, m, w, a));
    }
  }

  lemma RequestMoves(p: Profile, m: Memory, w: World, a: Device.Action)
    requires WorldOk(w) && MemoryOk(m, w) && IsRequest(a) && !a.BeginCall?
    ensures Moves(w, Request(p, m, w, a).w) && Carries(m, w, Request(p, m, w, a))
  {
    match a
    case TickCall => TickMoves(m, w);
    case ApplyCall(c) => ApplyMoves(p, m, w, c);
    case PrepareCall(id) => PrepareMoves(m, w, id);
    case FinishCall(id, commit) => FinishMoves(m, w, id, commit);
    case PowerCallRequest(shutdown) =>
      if Obstacle(m).None? { AcceptMoves(m, w, if shutdown then Shutdown else Reboot); }
    case ResetCall(confirmed) =>
      if Obstacle(m).None? { AcceptMoves(m, w, DeviceReset); }
  }

  /** Nothing is cleared from a partition on which the journal that is found does not ask for a reset. */
  lemma UnwantedIsKept(site: Site, w: World, report: BootReport)
    requires PossibleBoot(site, w, report) && !Intends(Found(Partition(w), report))
    ensures AfterClearing(site.profile, Partition(w), report) ==
              Disk(Found(Partition(w), report), Partition(w).settings, {})
  {
    var e := report.effects;
    forall i | 0 <= i < |e|
      ensures !e[i].Clear?
    {
      assert Storage.Lawful(site.policy, report.devices, report.boot, e[..i], e[i]);
    }
  }

  /** A reboot finds one of the journals that were possible; a transaction it finds is left as it was. */
  lemma RebootAgrees(site: Site, w: World, report: BootReport, inherited: Network)
    requires WorldOk(w) && PossibleBoot(site, w, report) && HonestWorld(w)
    ensures var d, v := Partition(w), Rebooted(site, w, report, inherited);
            && HonestWorld(v) && Found(d, report) in Possible(d)
            && (Flying(Found(d, report)) ==> Partition(v) == Disk(Found(d, report), d.settings, {}))
  {
    if !Intends(Found(Partition(w), report)) {
      UnwantedIsKept(site, w, report);
    } else {
      assert JournalOk(Found(Partition(w), report), w) || w.parked.Some?;
    }
  }

  predicate Flying(journal: Option<State>) {
    journal.Some? && InFlight(journal.value)
  }

  /** A step of a process: a transaction on the partition is kept or settled by the verdict. */
  ghost predicate Agrees(d: Disk, e: Disk) {
    Flying(d.journal) ==> Evolves(d.journal, e.journal, d.settings) && e.settings == d.settings
  }

  lemma WriteAgrees(s: Sys, hash: string)
    requires HonestSys(s)
    requires forall j :: j in Possible(s.w.live) && IsProposed(j) ==> hash != j.value.pending.candidateHash
    requires s.daemon.Some? && InFlight(s.daemon.value.state) && hash == s.daemon.value.state.pending.candidateHash ==>
               s.daemon.value.state.pending.phase.Committing? && LiveCommitting(s.w.live)
    ensures HonestSys(s.(w := s.w.(live := s.w.live.(settings := hash))))
  {
  }

  lemma BootstrapAgrees(p: Profile, w: World)
    requires WorldOk(w) && HonestWorld(w)
    ensures HonestWorld(Bootstrapped(p, w)) && Agrees(Partition(w), Partition(Bootstrapped(p, w)))
  {
    BootstrapMoves(p, w);
  }

  lemma StartAgrees(p: Profile, w: World, found: Configuration)
    requires WorldOk(w) && HonestWorld(w)
    ensures HonestSys(Started(p, w, found)) && Agrees(Partition(w), Partition(Started(p, w, found).w))
  {
    StartMoves(p, w, found);
    StartKeeps(p, w, found);
  }

  lemma RequestedAgrees(p: Profile, m: Memory, w: World, a: Device.Action)
    requires WorldOk(w) && MemoryOk(m, w) && IsRequest(a) && HonestSys(Sys(Some(m), w))
    ensures HonestSys(Requested(p, m, w, a)) && Agrees(Partition(w), Partition(Requested(p, m, w, a).w))
  {
    RequestHonest(p, m, w, a);
  }

  /** One action: the discipline is kept, and a transaction on the partition moves only by the verdict. */
  lemma ActAgrees(site: Site, s: Sys, a: Device.Action)
    requires SysOk(s) && HonestSys(s) && Allowed(site, s, a)
    ensures HonestSys(Act(site, s, a))
    ensures var d, e := Partition(s.w), Partition(Act(site, s, a).w);
            match a
            case PowerCycle(report, _) =>
              Found(d, report) in Possible(d)
                  && (Flying(Found(d, report)) ==> e == Disk(Found(d, report), d.settings, {}))
            case WriteSettings(_) => e.journal == d.journal && e.shadows == d.shadows
            case _ => Agrees(d, e)
  {
    match a
    case PowerCycle(report, inherited) => RebootAgrees(site, s.w, report, inherited);
    case WriteSettings(hash) => WriteAgrees(s, hash);
    case _ => ProcessAgrees(site, s, a);
  }

  lemma ProcessAgrees(site: Site, s: Sys, a: Device.Action)
    requires SysOk(s) && HonestSys(s) && !a.PowerCycle? && !a.WriteSettings?
    ensures HonestSys(Act(site, s, a)) && Agrees(Partition(s.w), Partition(Act(site, s, a).w))
  {
    if IsRequest(a) {
      if s.daemon.Some? { RequestedAgrees(site.profile, s.daemon.value, s.w, a); }
    } else if s.daemon.None? {
      if a.RunBootstrap? { BootstrapAgrees(site.profile, s.w); }
      if a.StartDaemon? { StartAgrees(site.profile, s.w, a.found); }
    }
  }

  // ---------------------------------------------------------------------------------------------
  // Theorem
  // ---------------------------------------------------------------------------------------------

  ghost predicate Disciplined(site: Site, s: Sys, es: seq<Event>) {
    es == [] ||
    var before := es[..|es| - 1];
    var t := Run(site, s, before);
    Disciplined(site, s, before) && Allowed(site, t.(w := Passed(t.w, es[|es| - 1])), es[|es| - 1].action)
  }

  lemma {:induction false} RunHonest(site: Site, s: Sys, es: seq<Event>)
    requires Fresh(s) && Disciplined(site, s, es)
    ensures SysOk(Run(site, s, es)) && HonestSys(Run(site, s, es))
  {
    RunKeeps(site, s, es);
    if es != [] {
      var before, e := es[..|es| - 1], es[|es| - 1];
      RunHonest(site, s, before);
      var t := Run(site, s, before);
      PassedKeeps(t, e);
      ActAgrees(site, t.(w := Passed(t.w, e)), e.action);
    }
  }

  /**
   * Crash-safe agreement. In every disciplined run, an event leaves a transaction that is in flight
   * on the state partition as it is, or moves it to "committing", or settles it: committed with the
   * candidate's network exactly when the settings on disk are the candidate's, otherwise rolled back
   * with the previous network. A reboot finds the journal or, if its last replacement was never
   * synced, one from before; a transaction it finds is as it was. And in whichever journal a power
   * cut may leave, recovery decides by the settings alone: an attempt that was cut short, or taken
   * back, changes no later verdict as long as the settings are not rewritten.
   */
  lemma AgreementInEveryRun(site: Site, s: Sys, es: seq<Event>)
    requires Fresh(s) && es != [] && Disciplined(site, s, es)
    ensures var a := es[|es| - 1].action;
            var d, e := Partition(Run(site, s, es[..|es| - 1]).w), Partition(Run(site, s, es).w);
            && (a.PowerCycle? ==>
                  && Found(d, a.report) in Possible(d)
                  && (Flying(Found(d, a.report)) ==> e == Disk(Found(d, a.report), d.settings, {})))
            && (!a.PowerCycle? && Flying(d.journal) ==>
                ByTheHash(d, e) && (!a.WriteSettings? ==> e.settings == d.settings))
            && (forall j :: j in Possible(e) && Flying(j) ==>
                  (Verdict(j.value, e.settings) <==> e.settings == j.value.pending.candidateHash))
  {
    var before, e := es[..|es| - 1], es[|es| - 1];
    RunHonest(site, s, before);
    RunHonest(site, s, es);
    var t := Run(site, s, before);
    PassedKeeps(t, e);
    ActAgrees(site, t.(w := Passed(t.w, e)), e.action);
    if !e.action.PowerCycle? { AgreedByTheHash(Partition(t.w), Partition(Run(site, s, es).w)); }
    VerdictIsTheHash(Partition(Run(site, s, es).w));
  }

  /** The same transaction still, or settled as the settings say. */
  predicate ByTheHash(d: Disk, e: Disk)
    requires Flying(d.journal)
  {
    && e.journal.Some?
    && if InFlight(e.journal.value) then SameTransaction(d.journal.value, e.journal.value)
       else SettledBy(d.journal.value, e.journal.value, d.settings == d.journal.value.pending.candidateHash)
  }

  lemma AgreedByTheHash(d: Disk, e: Disk)
    requires HonestDisk(d) && (e.journal == d.journal || Agrees(d, e))
    ensures Flying(d.journal) ==> ByTheHash(d, e)
  {
    VerdictIsTheHash(d);
  }

  lemma VerdictIsTheHash(d: Disk)
    requires HonestDisk(d)
    ensures forall j :: j in Possible(d) && Flying(j) ==>
              (Verdict(j.value, d.settings) <==> d.settings == j.value.pending.candidateHash)
  {
  }
}
