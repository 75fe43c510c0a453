/**
 * `Backend` as the program it is: an object that updates its fields and the world step by step, with
 * exceptions as outcomes. Every method is proved against its function in `Manager`, and to keep the
 * invariant of reachable states.
 */
module BackendProcess {
  import opened Configuration
  import opened Validation
  import opened Faults
  import opened Journal
  import opened Manager
  import opened Invariant
  import opened Outcomes
  import opened FactoryReset
  import opened Runs
  import opened Acceptance

  class Backend {
    const profile: Profile
    var state: State
    var storageFailed: bool
    var jobDeadline: nat
    /** Everything outside the process that its calls reach. */
    var world: World

    function Mem(): Memory
      reads this
    {
      Memory(state, storageFailed, jobDeadline)
    }

    /** The object as the result of a call that ended like this. */
    function Now(out: Outcome): Result
      reads this
    {
      Result(Mem(), world, out)
    }

    /** Between requests of a started daemon. */
    ghost predicate Ready()
      reads this
    {
      WorldOk(world) && MemoryOk(Mem(), world)
    }

    /** A process that has just read the journal. */
    ghost predicate Loaded()
      reads this
    {
      WorldOk(world) && Mem() == Load(profile, world.live.journal)
    }

    constructor (profile: Profile, world: World)
      ensures this.profile == profile && this.world == world
      ensures Mem() == Load(profile, world.live.journal)
      ensures WorldOk(world) ==> Sound(state, world) && Apart(state, world) && jobDeadline == 0 && !storageFailed
      ensures world.live.journal.Some? ==> OnDisk(Mem(), world)
      ensures world.live.journal.Some? && world.live.journal.value.configuration.time.ptpInterface != "" ==>
                world.live.journal == Some(state)
      ensures world.live.journal.Some? && world.live.journal.value.configuration.time.ptpInterface == "" ==>
                && state.configuration.time.ptpInterface == profile.defaults.time.ptpInterface
                && state.configuration.time.(ptpInterface := "") == world.live.journal.value.configuration.time
      ensures world.live.journal.None? ==>
                && state.configuration == profile.defaults && !state.initialized && !state.resetIntent
                && !InFlight(state) && state.job.state.NoJob?
    {
      this.profile := profile;
      this.world := world;
      var loaded := if world.live.journal.Some? then world.live.journal.value
                    else State(profile.defaults, false, NO_PENDING, Job(0, Reboot, NoJob), false);
      if loaded.configuration.time.ptpInterface == "" {
        var time := loaded.configuration.time.(ptpInterface := profile.defaults.time.ptpInterface);
        loaded := loaded.(configuration := loaded.configuration.(time := time));
      }
      state, storageFailed, jobDeadline := loaded, false, 0;
    }

    // -------------------------------------------------------------------------------------------
    // Effects
    // -------------------------------------------------------------------------------------------

    method Effect(half: World, done: World) returns (out: Outcome)
      modifies this`world
      ensures Now(out) == Attempt(old(Mem()), old(world), half, done)
    {
      var fate, rest := First(world.fates), Rest(world.fates);
      if !fate.Done? {
        if fate.at.Midway? { world := half; }
        if fate.at.After? { world := done; }
        world := world.(fates := rest);
        return if fate.Throw? then Threw(ApplyFailed) else Crashed;
      }
      world := done.(fates := rest);
      return Ok;
    }

    method Save() returns (out: Outcome)
      modifies this`world, this`storageFailed
      ensures Now(out) == Persist(old(Mem()), old(world))
      ensures out.Ok? ==> Durable(Mem(), world) && !storageFailed
      ensures out.Threw? ==> storageFailed
      ensures old(storageFailed) ==> out.Threw? && world == old(world)
      ensures world.live.journal == old(world.live.journal) || world.live.journal == Some(state)
      ensures Possible(world.live) <= Possible(old(world.live)) + {Some(state)}
      ensures world == old(world).(live := world.live, fates := world.fates)
                && world.live.settings == old(world.live.settings)
    {
      if storageFailed { return Threw(Unavailable); }
      out := Effect(world.(live := Unsynced(world.live, Some(state))), world.(live := Synced(world.live, Some(state))));
      if out.Threw? { storageFailed := true; }
    }

    method SetNetwork(n: Network) returns (out: Outcome)
      modifies this`world
      ensures Now(out) == ApplyNetwork(old(Mem()), old(world), n)
    {
      out := Effect(world.(platform := world.platform.(network := Mix(world.platform.network, n))),
                    world.(platform := world.platform.(network := In(n))));
    }

    method SetSsh(enabled: bool) returns (out: Outcome)
      modifies this`world
      ensures Now(out) == ApplySsh(old(Mem()), old(world), enabled)
    {
      out := Effect(world.(platform := world.platform.(ssh := Mix(world.platform.ssh, enabled))),
                    world.(platform := world.platform.(ssh := In(enabled))));
    }

    method SetClock(t: TimePreferences) returns (out: Outcome)
      modifies this`world
      ensures Now(out) == ApplyClock(old(Mem()), old(world), t)
    {
      out := Effect(world.(platform := world.platform.(clock := Mix(world.platform.clock, t))),
                    world.(platform := world.platform.(clock := In(t))));
    }

    method SetHostname(name: string) returns (out: Outcome)
      modifies this`world
      ensures Now(out) == ApplyHostname(old(Mem()), old(world), name)
    {
      out := Effect(world.(platform := world.platform.(hostname := Mix(world.platform.hostname, name))),
                    world.(platform := world.platform.(hostname := In(name))));
    }

    method SetPreferences(c: Configuration) returns (out: Outcome)
      modifies this`world
      ensures Now(out) == ApplyPreferences(old(Mem()), old(world), c)
    {
      var now, ssh := world.platform, c.system.sshEnabled;
      out := Effect(world.(platform := now.(preferences := Mix(now.preferences, c), ssh := Mix(now.ssh, ssh),
                                            clock := Mix(now.clock, c.time))),
                    world.(platform := now.(preferences := In(c), ssh := In(ssh), clock := In(c.time))));
    }

    // -------------------------------------------------------------------------------------------
    // Settling
    // -------------------------------------------------------------------------------------------

    method Settle(commit: bool) returns (out: Outcome)
      modifies this`world, this`state, this`storageFailed
      ensures Now(out) == SettleNetwork(old(Mem()), old(world), commit)
    {
      var next := if commit then state.pending.network else state.pending.previous;
      out := SetNetwork(next);
      if !out.Ok? { return; }
      state := state.(configuration := WithNetwork(state.configuration, next),
                      pending := state.pending.(phase := if commit then Committed else RolledBack));
      out := Save();
    }

    method Recover() returns (out: Outcome)
      modifies this`world, this`state, this`storageFailed
      ensures Now(out) == RecoverNetwork(old(Mem()), old(world))
      ensures out.Ok? ==> !InFlight(state)
      ensures old(InFlight(state)) && out.Ok? ==>
                && Durable(Mem(), world) && world.platform.network == In(NetworkOf(state))
                && (state.pending.phase.Committed? <==>
                      old(state.pending.phase.Committing? && world.live.settings == state.pending.candidateHash))
                && (state.pending.phase.Committed?
                    || (state.pending.phase.RolledBack? && NetworkOf(state) == old(state.pending.previous)))
    {
      if !InFlight(state) { return Ok; }
      SettlePromises(Mem(), world, Verdict(state, world.live.settings));
      var committed := state.pending.phase.Committing? && world.live.settings == state.pending.candidateHash;
      out := Settle(committed);
    }

    // -------------------------------------------------------------------------------------------
    // Bootstrap
    // -------------------------------------------------------------------------------------------

    method RemoveResetPaths() returns (out: Outcome)
      modifies this`world
      ensures Now(out) == RemovePaths(profile, old(Mem()), old(world), profile.resetPaths)
    {
      var paths := profile.resetPaths;
      var i := 0;
      assert paths[0..] == paths;
      while i < |paths|
        invariant 0 <= i <= |paths| && Mem() == old(Mem())
        invariant RemovePaths(profile, old(Mem()), old(world), paths) == RemovePaths(profile, Mem(), world, paths[i..])
      {
        assert paths[i..][0] == paths[i] && paths[i..][1..] == paths[i + 1..];
        var left := if Covers(paths[i], profile.settings) then world.live.(settings := "") else world.live;
        if Covers(paths[i], profile.journal) {
          out := Effect(world.(live := Unsynced(left, None)), Removed(world.(live := Synced(left, None)), paths[i]));
        } else {
          out := Effect(world.(live := left), Removed(world.(live := left), paths[i]));
        }
        if !out.Ok? { return; }
        i := i + 1;
      }
      return Ok;
    }

    method SetBootPolicies() returns (out: Outcome)
      modifies this`world
      ensures Now(out) == ApplyBootPolicies(old(Mem()), old(world))
    {
      out := SetNetwork(state.configuration.system.network);
      if !out.Ok? { return; }
      out := SetSsh(state.configuration.system.sshEnabled);
      if !out.Ok? { return; }
      out := SetClock(state.configuration.time);
    }

    method FinishReset() returns (out: Outcome)
      modifies this`world, this`state, this`storageFailed
      ensures Now(out) == CompleteReset(profile, old(Mem()), old(world))
      ensures SafePaths(profile) && old(Intends(world.live.journal) && OnDisk(Mem(), world)) ==>
                && (KeepsIntent(old(world.live), world.live) || ResetDone(profile, world))
                && (out.Ok? ==> ResetDone(profile, world))
    {
      ghost var m, w := Mem(), world;
      if SafePaths(profile) && Intends(w.live.journal) && OnDisk(m, w) { CompleteResetIntent(profile, m, w); }
      if profile.storageStatus && !(world.boot.status.Some? && world.boot.status.value.resetPrepared) {
        return Threw(Unavailable);
      }
      out := RemoveResetPaths();
      if !out.Ok? { return; }
      state := state.(configuration := profile.defaults, initialized := true, pending := NO_PENDING);
      out := SetBootPolicies();
      if !out.Ok? { return; }
      state := state.(resetIntent := false, job := state.job.(state := Completed));
      out := Save();
    }

    /** The steps of `bootstrap`. */
    method BootSteps() returns (out: Outcome)
      modifies this`world, this`state, this`storageFailed
      ensures Now(out) == Bootstrap(profile, old(Mem()), old(world))
    {
      if state.resetIntent {
        out := FinishReset();
      } else if state.initialized {
        out := Recover();
        if out.Ok? { out := SetBootPolicies(); }
      } else if profile.bootPreferences.Some? {
        state := state.(configuration := profile.bootPreferences.value.initial);
        out := SetBootPolicies();
        if out.Ok? {
          state := state.(initialized := true);
          out := Save();
        }
      } else {
        out := SetClock(profile.defaults.time);
      }
      if out.Ok? && profile.bootPreferences.Some? {
        var c, name := state.configuration, profile.bootPreferences.value.managedHostname;
        state := state.(configuration := c.(system := c.system.(hostname := name)));
        out := SetHostname(name);
        if out.Ok? { out := Save(); }
      }
    }

    /** `bootstrap`: a normal return has recovered the device; an intent stays until all of the reset is done. */
    method RunBootstrap() returns (out: Outcome)
      modifies this`world, this`state, this`storageFailed
      ensures Now(out) == Bootstrap(profile, old(Mem()), old(world))
      ensures old(Loaded()) ==> WorldOk(world) && (out.Ok? ==> Recovered(world))
      ensures old(Loaded() && Intends(world.live.journal)) && SafePaths(profile) ==>
                KeepsIntent(old(world.live), world.live) || ResetDone(profile, world)
      ensures old(Loaded()) && out.Ok? ==> BootedWith(profile, old(world.live.journal), world)
    {
      if Loaded() {
        BootPromises(profile, world);
        BootstrapKeeps(profile, world);
        if Intends(world.live.journal) && SafePaths(profile) { BootstrapIntent(profile, world); }
      }
      out := BootSteps();
    }

    // -------------------------------------------------------------------------------------------
    // Start and tick
    // -------------------------------------------------------------------------------------------

    /** The steps of `start`. */
    method StartSteps(found: Configuration) returns (out: Outcome)
      modifies this
      ensures Now(out) == Start(old(Mem()), old(world), found)
    {
      if state.resetIntent {
        jobDeadline := world.boot.now + POWER_MS;
        return Ok;
      }
      if !state.initialized {
        var inForce := world.platform.network;
        out := Effect(world, world);
        if !out.Ok? { return; }
        if inForce.Mixed? { return Threw(Unsupported); }
        var c := WithNetwork(found, inForce.value);
        var valid := Check(c);
        if !valid { return Threw(InvalidArgument); }
        state := state.(configuration := c, initialized := true);
        out := Save();
        if !out.Ok? { return; }
      }
      out := Recover();
      if !out.Ok? { return; }
      if state.job.state.Accepted? {
        state := state.(job := state.job.(state := Interrupted));
        out := Save();
      }
    }

    /** `start`: a normal return is a daemon ready for requests, with nothing in flight and no job left over. */
    method RunStart(found: Configuration) returns (out: Outcome)
      modifies this
      ensures Now(out) == Start(old(Mem()), old(world), found)
      ensures old(Loaded()) ==> WorldOk(world) && (out.Ok? ==> Ready() && !InFlight(state))
      ensures old(Loaded() && !state.resetIntent) && out.Ok? ==> Underway(old(Mem()), Now(out))
      ensures old(Loaded() && state.resetIntent) ==>
                out.Ok? && Mem() == old(Mem()).(jobDeadline := world.boot.now + 5000) && world == old(world)
      ensures old(Loaded() && !state.initialized && !state.resetIntent) && out.Ok? ==>
                && old(world.platform.network.In?) && ValidConfiguration(state.configuration)
                && state.configuration == WithNetwork(found, old(world.platform.network.value)) && Durable(Mem(), world)
    {
      if Loaded() {
        LoadSound(profile, world);
        StartTakesOver(profile, world, found);
        StartKeeps(profile, world, found);
        StartPromises(profile, world, found);
      }
      out := StartSteps(found);
    }

    method Dispatch() returns (out: Outcome)
      modifies this
      ensures Now(out) == DispatchJob(old(Mem()), old(world))
      ensures Fired(old(Mem()), old(world), Now(out))
    {
      DispatchPromises(Mem(), world);
      jobDeadline := 0;
      state := state.(job := state.job.(state := Dispatched));
      out := Save();
      if !out.Ok? { return; }
      var call := PowerCall(state.job.id, state.job.action.Shutdown?, world.live.journal);
      world := world.(past := world.past.(powerCalls := world.past.powerCalls + [call]));
      out := Effect(world, world);
      if out.Threw? {
        var cause := out;
        state := state.(job := state.job.(state := Failed));
        out := Save();
        if out.Ok? { out := cause; }
      }
    }

    /** The steps of `tick`. */
    method TickSteps() returns (out: Outcome)
      modifies this
      ensures Now(out) == Tick(old(Mem()), old(world))
    {
      ghost var m, w := Mem(), world;
      if storageFailed { return Threw(Unavailable); }
      out := Ok;
      if InFlight(state) && world.boot.now >= state.pending.deadline {
        out := Recover();
      }
      SameClock(m, w);
      if out.Ok? && jobDeadline != 0 && world.boot.now >= jobDeadline {
        out := Dispatch();
      }
    }

    /**
     * `tick`: a job that is due is carried out, and none before; a transaction whose time is up is
     * settled, and otherwise nothing changes.
     */
    method RunTick() returns (out: Outcome)
      modifies this
      ensures Now(out) == Tick(old(Mem()), old(world))
      ensures old(Ready()) && !out.Crashed? ==> Ready()
      ensures old(Ready() && Due(Mem(), world) && world.fates == []) ==> CarriedOut(old(Mem()), old(world), Now(out))
      ensures old(!Due(Mem(), world)) ==> world.past == old(world.past)
      ensures old(Ready() && Waits(Mem(), world)) ==> out.Ok? && Mem() == old(Mem()) && world == old(world)
    {
      ghost var m, w := Mem(), world;
      if Ready() {
        TickKeeps(m, w);
        if Due(m, w) && w.fates == [] { TickFires(m, w); }
        if Waits(m, w) { TickSettles(m, w); }
      }
      if !Due(m, w) { TickWaits(m, w); }
      out := TickSteps();
    }

    // -------------------------------------------------------------------------------------------
    // Requests
    // -------------------------------------------------------------------------------------------

    method RequireIdle() returns (out: Outcome)
      ensures out == if Obstacle(Mem()).Some? then Threw(Obstacle(Mem()).value) else Ok
      ensures Ready() && out.Ok? ==>
                && OnDisk(Mem(), world) && jobDeadline == 0 && AtRest(world.live.journal)
                && (world.boot.recovered ==> world.platform.network == In(NetworkOf(state)))
    {
      if storageFailed { return Threw(Unavailable); }
      if InFlight(state) || state.job.state.Accepted? || state.resetIntent { return Threw(Busy); }
      return Ok;
    }

    method Install(c: Configuration) returns (out: Outcome)
      modifies this`world, this`state, this`storageFailed
      ensures Now(out) == InstallPreferences(old(Mem()), old(world), c)
    {
      out := SetPreferences(c);
      if !out.Ok? { return; }
      out := SetSsh(c.system.sshEnabled);
      if !out.Ok? { return; }
      state := state.(configuration := c, initialized := true);
      out := Save();
    }

    method RollBack(previous: Configuration, cause: Outcome) returns (out: Outcome)
      modifies this`world, this`state, this`storageFailed
      ensures Now(out) == RollBackPreferences(old(Mem()), old(world), previous, cause)
    {
      state := state.(configuration := previous);
      out := SetPreferences(previous);
      if out.Ok? { out := SetSsh(previous.system.sshEnabled); }
      if out.Ok? { out := Save(); }
      if out.Ok? { return cause; }
      if out.Threw? { return Threw(NeedsRecovery); }
    }

    /** The steps of `apply`. */
    method ApplySteps(c: Configuration) returns (out: Outcome)
      modifies this`world, this`state, this`storageFailed
      ensures Now(out) == Apply(profile, old(Mem()), old(world), c)
    {
      out := RequireIdle();
      if !out.Ok? { return; }
      var valid := Check(c);
      if !valid || !ManagedHostname(profile, c) { return Threw(InvalidArgument); }
      out := Effect(world, world);
      if !out.Ok? { return; }
      if state.initialized && c.system.network != state.configuration.system.network { return Threw(InvalidArgument); }
      var previous := state.configuration;
      out := Install(c);
      if out.Threw? { out := RollBack(previous, out); }
    }

    /** `apply`: accepted exactly when idle, for a valid configuration that keeps name and network; all or nothing. */
    method RunApply(c: Configuration) returns (out: Outcome)
      modifies this`world, this`state, this`storageFailed
      ensures Now(out) == Apply(profile, old(Mem()), old(world), c)
      ensures old(Ready()) && !out.Crashed? ==> Ready()
      ensures old(Ready()) ==> AllOrNothing(old(Mem()), old(world), c, Now(out))
      ensures old(Ready() && world.fates == []) ==> (out.Ok? <==> Applicable(profile, old(Mem()), c))
    {
      if Ready() {
        ApplyKeeps(profile, Mem(), world, c);
        ApplyAllOrNothing(profile, Mem(), world, c);
        if world.fates == [] { ApplyAccepts(profile, Mem(), world, c); }
      }
      out := ApplySteps(c);
    }

    /** The steps of `beginNetwork`. */
    method BeginSteps(q: Proposal) returns (out: Outcome)
      modifies this
      ensures Now(out) == BeginNetwork(profile, old(Mem()), old(world), q)
    {
      ConsultFacts(Mem(), world);
      out := RequireIdle();
      if !out.Ok? { return; }
      var valid := Check(WithNetwork(state.configuration, q.network));
      if !valid || !ManagedHostname(profile, state.configuration) { return Threw(InvalidArgument); }
      out := Effect(world, world);
      if !out.Ok? { return; }
      if !SettingsHash(q.previousHash) || !SettingsHash(q.candidateHash)
         || q.previousHash == q.candidateHash || world.live.settings != q.previousHash {
        return Threw(InvalidArgument);
      }
      out := Enter(q);
    }

    /** `beginNetwork`: accepted only, and without faults always, for a proposal made for the settings on disk. */
    method RunBegin(q: Proposal) returns (out: Outcome)
      modifies this
      ensures Now(out) == BeginNetwork(profile, old(Mem()), old(world), q)
      ensures old(Ready()) && !out.Crashed? ==> Ready()
      ensures old(Ready()) && out.Ok? ==> ProposalStands(old(Mem()), old(world), q, Now(out))
      ensures out.Ok? ==> Proposable(profile, old(Mem()), old(world.live.settings), q)
      ensures old(Ready() && world.fates == []) ==>
                (out.Ok? <==> Proposable(profile, old(Mem()), old(world.live.settings), q))
    {
      BeginNeeds(profile, Mem(), world, q);
      if Ready() {
        BeginKeeps(profile, Mem(), world, q);
        BeginPromises(profile, Mem(), world, q);
        if world.fates == [] { BeginAccepts(profile, Mem(), world, q); }
      }
      out := BeginSteps(q);
    }

    method Enter(q: Proposal) returns (out: Outcome)
      modifies this
      ensures Now(out) == EnterTransaction(old(Mem()).(state := Propose(old(Mem()), old(world), q)), Drawn(old(world)))
    {
      state := state.(pending := Pending(world.past.nextId, Proposed, q.network, state.configuration.system.network,
                                         q.previousHash, q.candidateHash, world.boot.now + CONFIRM_MS));
      world := Drawn(world);
      out := EnterSteps();
    }

    /** Journal first, then the network; a failed application is rolled back at once. */
    method EnterSteps() returns (out: Outcome)
      modifies this
      ensures Now(out) == EnterTransaction(old(Mem()), old(world))
    {
      out := Save();
      if !out.Ok? { return; }
      out := SetNetwork(state.pending.network);
      if out.Ok? {
        out := TickSteps();
      } else if out.Threw? {
        var cause := out;
        out := Settle(false);
        if out.Ok? { out := cause; }
      }
    }

    /** `networkTransaction`: settle what is overdue, then report; time is left exactly while in flight. */
    method Transaction() returns (out: Outcome, t: Pending, remaining: nat)
      modifies this
      ensures Now(out) == Tick(old(Mem()), old(world))
      ensures old(Ready()) && !out.Crashed? ==> Ready()
      ensures old(Ready()) && out.Ok? ==>
                && t == state.pending && (remaining > 0 <==> InFlight(state)) && remaining <= 150000
                && (InFlight(state) ==> world.boot.now + remaining == state.pending.deadline)
    {
      ghost var m, w := Mem(), world;
      if WorldOk(w) && MemoryOk(m, w) && Tick(m, w).out.Ok? { TickLeavesTime(m, w); TickKeeps(m, w); }
      else if WorldOk(w) && MemoryOk(m, w) { TickKeeps(m, w); }
      out := TickSteps();
      t := state.pending;
      var deadline := state.pending.deadline;
      remaining := if InFlight(state) && deadline > world.boot.now then deadline - world.boot.now else 0;
    }

    /** The steps of `prepareNetworkCommit`. */
    method PrepareSteps(id: nat) returns (out: Outcome)
      modifies this
      ensures Now(out) == PrepareCommit(old(Mem()), old(world), id)
    {
      out := TickSteps();
      if !out.Ok? { return; }
      if !InFlight(state) || id != state.pending.id { return Threw(InvalidArgument); }
      if state.pending.phase.Committing? { return; }
      if world.live.settings != state.pending.previousHash { return Threw(InvalidArgument); }
      state := state.(pending := state.pending.(phase := Committing, deadline := world.boot.now + COMMIT_MS));
      out := Save();
    }

    method RunPrepare(id: nat) returns (out: Outcome)
      modifies this
      ensures Now(out) == PrepareCommit(old(Mem()), old(world), id)
      ensures old(Ready()) && !out.Crashed? ==> Ready()
      ensures old(Ready()) && out.Ok? ==> Prepared(old(Mem()), old(world), id, Now(out))
      ensures old(Ready() && world.fates == []) ==> (out.Ok? <==> old(Confirmable(Mem(), world, id)))
    {
      if Ready() {
        if world.fates == [] { PrepareAccepts(Mem(), world, id); }
        PrepareKeeps(Mem(), world, id);
        PreparePromises(Mem(), world, id);
      }
      out := PrepareSteps(id);
    }

    /** The steps of `finishNetwork`. */
    method FinishSteps(id: nat, commit: bool) returns (out: Outcome)
      modifies this`world, this`state, this`storageFailed
      ensures Now(out) == FinishNetwork(old(Mem()), old(world), id, commit)
    {
      if id == state.pending.id && state.pending.phase == (if commit then Committed else RolledBack) { return Ok; }
      if !InFlight(state) || id != state.pending.id { return Threw(InvalidArgument); }
      var persisted := state.pending.phase.Committing? && world.live.settings == state.pending.candidateHash;
      if commit && !persisted { return Threw(InvalidArgument); }
      if !commit && persisted { return Threw(Busy); }
      out := Settle(commit);
    }

    method RunFinish(id: nat, commit: bool) returns (out: Outcome)
      modifies this`world, this`state, this`storageFailed
      ensures Now(out) == FinishNetwork(old(Mem()), old(world), id, commit)
      ensures old(Ready()) && !out.Crashed? ==> Ready()
      ensures old(Ready()) && out.Ok? ==> Finished(old(Mem()), old(world), id, commit, Now(out))
      ensures old(world.fates == []) ==> (out.Ok? <==> old(Finishable(Mem(), world, id, commit)))
    {
      if Ready() {
        FinishKeeps(Mem(), world, id, commit);
        FinishPromises(Mem(), world, id, commit);
      }
      if world.fates == [] { FinishAccepts(Mem(), world, id, commit); }
      out := FinishSteps(id, commit);
    }

    method Accept(action: Action) returns (out: Outcome)
      modifies this
      ensures Now(out) == AcceptJob(old(Mem()), old(world), action)
    {
      state := state.(job := Job(world.past.nextId, action, Accepted));
      if action.DeviceReset? { state := state.(resetIntent := true); }
      world := Counted(world, action);
      var due := world.boot.now + POWER_MS;
      out := Save();
      if out.Ok? { jobDeadline := due; }
    }

    method RunPower(shutdown: bool) returns (out: Outcome)
      modifies this
      ensures Now(out) == Power(old(Mem()), old(world), shutdown)
      ensures old(Ready()) && !out.Crashed? ==> Ready()
      ensures old(Ready()) && out.Ok? ==> Taken(old(Mem()), old(world), if shutdown then Shutdown else Reboot, Now(out))
      ensures (out.Ok? ==> old(Unoccupied(Mem()))) && (old(world.fates == []) ==> (out.Ok? <==> old(Unoccupied(Mem()))))
    {
      ghost var m, w := Mem(), world;
      PowerAccepts(m, w, shutdown);
      if WorldOk(w) && MemoryOk(m, w) && Obstacle(m).None? {
        AcceptKeeps(m, w, if shutdown then Shutdown else Reboot);
        AcceptPromises(m, w, if shutdown then Shutdown else Reboot);
      }
      out := RequireIdle();
      if !out.Ok? { return; }
      out := Accept(if shutdown then Shutdown else Reboot);
    }

    method RunReset(confirmed: bool) returns (out: Outcome)
      modifies this
      ensures Now(out) == ResetDevice(profile, old(Mem()), old(world), confirmed)
      ensures old(Ready()) && !out.Crashed? ==> Ready()
      ensures old(Ready()) && out.Ok? ==>
                Taken(old(Mem()), old(world), DeviceReset, Now(out)) && DurablyIntends(world.live)
      ensures out.Ok? ==> confirmed && old(Unoccupied(Mem()) && CanReset(profile, world))
      ensures old(world.fates == []) ==> (out.Ok? <==> confirmed && old(Unoccupied(Mem()) && CanReset(profile, world)))
    {
      ghost var m, w := Mem(), world;
      ResetAccepts(profile, m, w, confirmed);
      if WorldOk(w) && MemoryOk(m, w) && Obstacle(m).None? {
        AcceptKeeps(m, w, DeviceReset);
        AcceptPromises(m, w, DeviceReset);
      }
      if !confirmed { return Threw(InvalidArgument); }
      out := RequireIdle();
      if !out.Ok? { return; }
      if profile.storageStatus
         && !(world.boot.status.Some? && world.boot.status.value.statePersistent
             && world.boot.status.value.dataPersistent) {
        return Threw(Unavailable);
      }
      out := Accept(DeviceReset);
    }
  }

  /** Recovery takes no time on the one clock reading of a call. */
  lemma SameClock(m: Memory, w: World)
    ensures RecoverNetwork(m, w).w.boot == w.boot
  {
    var commit := Verdict(m.state, w.live.settings);
    var next := if commit then m.state.pending.network else m.state.pending.previous;
    NetworkFacts(m, w, next);
    PersistFacts(m.(state := Settled(m.state, commit)), ApplyNetwork(m, w, next).w);
  }
}
