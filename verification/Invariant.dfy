/** What holds in every reachable state of memory and disk, and that every operation keeps it. */
module Invariant {
  import opened Configuration
  import opened Validation
  import opened Faults
  import opened Journal
  import opened Manager

  // ---------------------------------------------------------------------------------------------
  // Statement
  // ---------------------------------------------------------------------------------------------

  /** Exclusivity: a transaction in flight never coexists with an accepted job or a reset intent. */
  predicate Exclusive(s: State) {
    InFlight(s) ==> !s.job.state.Accepted? && !s.resetIntent
  }

  predicate StateOk(s: State, nextId: nat) {
    && Exclusive(s)
    && (InFlight(s) ==>
          && s.initialized
          && NetworkOf(s) == s.pending.previous
          && s.pending.previousHash != s.pending.candidateHash && s.pending.candidateHash != "")
    && (s.resetIntent ==> s.job.action.DeviceReset?)
    && (s.job.action.DeviceReset? && (s.job.state.Accepted? || s.job.state.Interrupted?) ==> s.resetIntent)
    && (s.resetIntent || s.job.state.Accepted? ==> s.job.id != 0)
    && s.pending.id < nextId && s.job.id < nextId
  }

  predicate ForReset(c: PowerCall) {
    c.durable.Some? && c.durable.value.resetIntent
  }

  /**
   * A job that waits, or was interrupted while it waited, has caused no power call; one that a
   * reset repeats has caused only calls for that reset.
   */
  ghost predicate Quiet(s: State, calls: seq<PowerCall>) {
    forall i :: 0 <= i < |calls| && calls[i].id == s.job.id ==>
      if s.resetIntent then ForReset(calls[i])
      else !s.job.state.Accepted? && !s.job.state.Interrupted?
  }

  /** While the partition is away, jobs accepted on the tmpfs are other jobs than the partition's. */
  predicate Apart(s: State, w: World) {
    w.parked.Some? && w.parked.value.journal.Some? && s.job.id != 0 ==> s.job.id != w.parked.value.journal.value.job.id
  }

  ghost predicate Sound(s: State, w: World) {
    && StateOk(s, w.past.nextId) && Quiet(s, w.past.powerCalls)
    && (s.job.id != 0 ==> s.job.id in w.past.jobs && w.past.jobs[s.job.id] == s.job.action)
  }

  ghost predicate JournalOk(journal: Option<State>, w: World) {
    journal.Some? ==> Sound(journal.value, w) && Apart(journal.value, w)
  }

  /** Every power call came after its job was durably dispatched, and only a reset repeats one. */
  ghost predicate PowerOk(w: World) {
    && (forall i :: 0 <= i < |w.past.powerCalls| ==>
          var c := w.past.powerCalls[i];
          && c.durable.Some? && c.durable.value.job.state.Dispatched?
          && c.id == c.durable.value.job.id < w.past.nextId
          && c.shutdown == c.durable.value.job.action.Shutdown?
          && (ForReset(c) ==> c.durable.value.job.action.DeviceReset?))
    && (forall i, j :: 0 <= i < j < |w.past.powerCalls| && w.past.powerCalls[i].id == w.past.powerCalls[j].id ==>
          ForReset(w.past.powerCalls[i]) && ForReset(w.past.powerCalls[j]))
  }

  /** A journal from which nothing has to be recovered. */
  predicate AtRest(journal: Option<State>) {
    journal.Some? && journal.value.initialized && !InFlight(journal.value) && !journal.value.resetIntent
  }

  /** Write-ahead consistency: a journal at rest names the network that is in force. */
  predicate WriteAhead(w: World) {
    w.boot.recovered && AtRest(w.live.journal) ==> w.platform.network == In(NetworkOf(w.live.journal.value))
  }

  ghost predicate WorldOk(w: World) {
    && w.past.nextId > 0
    && JournalOk(w.live.journal, w) && (forall j :: j in w.live.shadows ==> JournalOk(j, w))
    && (w.parked.Some? ==> w.parked.value.shadows == {})
    && (w.parked.Some? && w.parked.value.journal.Some? ==> Sound(w.parked.value.journal.value, w))
    && PowerOk(w)
    && WriteAhead(w)
  }

  /** Equal but for the time preferences, where loading fills in a default port. */
  predicate Agree(a: State, b: State) {
    a == b.(configuration := b.configuration.(time := a.configuration.time))
  }

  predicate OnDisk(m: Memory, w: World) {
    w.live.journal.Some? && Agree(w.live.journal.value, m.state)
  }

  predicate LiveInFlight(w: World) {
    w.live.journal.Some? && InFlight(w.live.journal.value)
  }

  /** Bounded lifetime: confirmation moves the deadline once, and only before it has passed. */
  ghost predicate Lifetime(s: State, w: World) {
    InFlight(s) ==>
      && s.pending.id in w.past.begun
      && var b := w.past.begun[s.pending.id];
      && b.boot == w.boot.number && b.time <= w.boot.now
      && (s.pending.phase.Proposed? ==> s.pending.deadline <= b.time + CONFIRM_MS)
      && (s.pending.phase.Committing? ==> s.pending.deadline < b.time + CONFIRM_MS + COMMIT_MS)
  }

  ghost predicate MemoryOk(m: Memory, w: World) {
    MemoryCore(m, w) && Lifetime(m.state, w) && Firm(m, w)
  }

  /** The transaction of a running daemon is durable: no power cut brings back what was before it. */
  predicate Firm(m: Memory, w: World) {
    !m.storageFailed && InFlight(m.state) ==> w.live.shadows == {}
  }

  ghost predicate MemoryCore(m: Memory, w: World) {
    && Sound(m.state, w) && Apart(m.state, w)
    && (m.state.initialized || m.state.resetIntent)
    && (m.jobDeadline != 0 ==> m.state.job.state.Accepted? || m.state.resetIntent)
    && (!m.storageFailed ==> OnDisk(m, w))
    && (m.storageFailed && InFlight(m.state) && !LiveInFlight(w) ==>
          m.state.pending.phase.Proposed? && (w.boot.recovered ==> w.platform.network == In(m.state.pending.previous)))
  }

  ghost predicate Keeps(r: Result) {
    WorldOk(r.w) && (!r.out.Crashed? ==> MemoryOk(r.m, r.w))
  }

  // ---------------------------------------------------------------------------------------------
  // Effects
  // ---------------------------------------------------------------------------------------------

  /** A world that differs only in what one journal write and one network call can change. */
  predicate SameBut(a: World, b: World) {
    b == a.(live := b.live, platform := b.platform, fates := b.fates) && b.live.settings == a.live.settings
  }

  /** The journal as it was, or replaced by this one with nothing new left in doubt. */
  predicate Replaced(a: Disk, b: Disk, s: State) {
    b == a || (b.journal == Some(s) && b.settings == a.settings && b.shadows <= Possible(a))
  }

  lemma PersistFacts(m: Memory, w: World)
    ensures var r := Persist(m, w);
            && r.w == w.(live := r.w.live, fates := r.w.fates) && r.w.live.settings == w.live.settings
            && Replaced(w.live, r.w.live, m.state) && (m.storageFailed ==> r.w.live == w.live)
            && (r.out.Ok? ==> r.w.live == Synced(w.live, Some(m.state)) && r.m == m && !m.storageFailed)
            && (r.out.Threw? ==> r.m == m.(storageFailed := true))
            && r.m.state == m.state && r.m.jobDeadline == m.jobDeadline
  {
  }

  lemma NetworkFacts(m: Memory, w: World, n: Network)
    ensures var r := ApplyNetwork(m, w, n);
            && r.w == w.(platform := r.w.platform, fates := r.w.fates)
            && r.m == m
            && (r.out.Ok? ==> r.w.platform.network == In(n))
            && (w.platform.network == In(n) ==> r.w.platform.network == In(n))
  {
  }

  lemma JournalKept(w: World, v: World)
    requires WorldOk(w) && SameBut(w, v) && WriteAhead(v) && v.live.shadows <= Possible(w.live)
    requires v.live.journal == w.live.journal
             || (v.live.journal.Some? && Sound(v.live.journal.value, w) && Apart(v.live.journal.value, w))
    ensures WorldOk(v)
  {
  }

  // ---------------------------------------------------------------------------------------------
  // Requests
  // ---------------------------------------------------------------------------------------------

  lemma SettledOk(s: State, commit: bool, w: World)
    requires Sound(s, w)
    ensures Sound(Settled(s, commit), w) && !InFlight(Settled(s, commit))
  {
  }

  lemma SettleKeepsCore(m: Memory, w: World, commit: bool)
    requires WorldOk(w) && MemoryCore(m, w) && InFlight(m.state)
    requires commit ==> m.state.pending.phase.Committing?
    ensures var r := SettleNetwork(m, w, commit);
            && WorldOk(r.w) && (!r.out.Crashed? ==> MemoryCore(r.m, r.w)) && SameBut(w, r.w)
            && (r.m.state == m.state || !InFlight(r.m.state))
            && (r.out.Ok? ==> !InFlight(r.m.state))
  {
    var next := if commit then m.state.pending.network else m.state.pending.previous;
    var r1 := ApplyNetwork(m, w, next);
    NetworkFacts(m, w, next);
    JournalKept(w, r1.w);
    if r1.out.Ok? {
      var m1 := m.(state := Settled(m.state, commit));
      SettledOk(m.state, commit, w);
      var r2 := Persist(m1, r1.w);
      PersistFacts(m1, r1.w);
      JournalKept(w, r2.w);
    }
  }

  lemma SettleKeeps(m: Memory, w: World, commit: bool)
    requires WorldOk(w) && MemoryOk(m, w) && InFlight(m.state)
    requires commit ==> m.state.pending.phase.Committing?
    ensures Keeps(SettleNetwork(m, w, commit)) && SameBut(w, SettleNetwork(m, w, commit).w)
    ensures SettleNetwork(m, w, commit).out.Ok? ==> !InFlight(SettleNetwork(m, w, commit).m.state)
  {
    SettleKeepsCore(m, w, commit);
  }

  /** Writing a state that is sound and at rest only if the network in force agrees. */
  lemma PersistKeeps(m: Memory, w: World)
    requires WorldOk(w) && Sound(m.state, w) && Apart(m.state, w)
    requires !m.storageFailed && w.boot.recovered && AtRest(Some(m.state)) ==>
             w.platform.network == In(NetworkOf(m.state))
    ensures WorldOk(Persist(m, w).w) && SameBut(w, Persist(m, w).w)
    ensures Persist(m, w).w.platform == w.platform
  {
    PersistFacts(m, w);
    JournalKept(w, Persist(m, w).w);
  }

  lemma CallPowerKeeps(m: Memory, w: World)
    requires WorldOk(w) && Sound(m.state, w) && Apart(m.state, w)
    requires w.live.journal == Some(m.state) && w.live.shadows == {}
    requires m.state.job.state.Dispatched? && m.state.job.id != 0
    requires forall i :: 0 <= i < |w.past.powerCalls| && w.past.powerCalls[i].id == m.state.job.id ==>
                           m.state.resetIntent && ForReset(w.past.powerCalls[i])
    ensures var r := CallPower(m, w);
            && WorldOk(r.w) && Sound(m.state, r.w) && r.m == m
            && r.w == w.(past := r.w.past, fates := r.w.fates)
            && r.w.past == w.past.(powerCalls := r.w.past.powerCalls)
  {
    var call := PowerCall(m.state.job.id, m.state.job.action.Shutdown?, w.live.journal);
    assert CallPower(m, w).w.past.powerCalls == w.past.powerCalls + [call];
    QuietAfter(m.state, w.past.powerCalls, call);
    if w.parked.Some? && w.parked.value.journal.Some? {
      QuietAfter(w.parked.value.journal.value, w.past.powerCalls, call);
    }
    PowerOkAfter(w, call);
  }

  lemma QuietAfter(s: State, calls: seq<PowerCall>, call: PowerCall)
    requires Quiet(s, calls)
    requires call.id == s.job.id ==> if s.resetIntent then ForReset(call) else s.job.state.Dispatched?
    ensures Quiet(s, calls + [call])
  {
    assert forall i :: 0 <= i < |calls| ==> (calls + [call])[i] == calls[i];
  }

  lemma PowerOkAfter(w: World, call: PowerCall)
    requires PowerOk(w) && call.durable.Some? && call.durable.value.job.state.Dispatched?
    requires call.id == call.durable.value.job.id < w.past.nextId
             && call.shutdown == call.durable.value.job.action.Shutdown?
    requires ForReset(call) ==> call.durable.value.job.action.DeviceReset?
    requires forall i :: 0 <= i < |w.past.powerCalls| && w.past.powerCalls[i].id == call.id ==>
                           ForReset(call) && ForReset(w.past.powerCalls[i])
    ensures PowerOk(w.(past := w.past.(powerCalls := w.past.powerCalls + [call])))
  {
    var calls := w.past.powerCalls + [call];
    assert forall i :: 0 <= i < |calls| - 1 ==> calls[i] == w.past.powerCalls[i];
  }

  /** A job that is due can be dispatched: its id has not been used but by the same reset. */
  lemma DueJob(m: Memory, w: World)
    requires WorldOk(w) && MemoryOk(m, w) && m.jobDeadline != 0 && !m.storageFailed
    ensures var s := m.state.(job := m.state.job.(state := Dispatched));
            && Sound(s, w) && Apart(s, w) && s.job.id != 0 && !InFlight(s)
            && (w.boot.recovered && AtRest(Some(s)) ==> w.platform.network == In(NetworkOf(s)))
            && (forall i :: 0 <= i < |w.past.powerCalls| && w.past.powerCalls[i].id == s.job.id ==>
                              s.resetIntent && ForReset(w.past.powerCalls[i]))
  {
  }

  ghost predicate SameButPast(a: World, b: World) {
    b == a.(live := b.live, platform := b.platform, past := b.past, fates := b.fates)
    && b.live.settings == a.live.settings
    && b.past == a.past.(powerCalls := b.past.powerCalls)
  }

  lemma DispatchKeeps(m: Memory, w: World)
    requires WorldOk(w) && MemoryOk(m, w) && m.jobDeadline != 0 && !m.storageFailed
    ensures Keeps(DispatchJob(m, w)) && SameButPast(w, DispatchJob(m, w).w)
    ensures DispatchJob(m, w).m.state.pending == m.state.pending
  {
    var m1 := m.(jobDeadline := 0, state := m.state.(job := m.state.job.(state := Dispatched)));
    DueJob(m, w);
    PersistFacts(m1, w);
    PersistKeeps(m1, w);
    var r1 := Persist(m1, w);
    if r1.out.Ok? { CarryOutKeeps(r1.m, r1.w); }
  }

  /** The rest of a dispatch, once the journal says that it has begun. */
  lemma CarryOutKeeps(m: Memory, w: World)
    requires WorldOk(w) && MemoryOk(m, w) && !m.storageFailed && m.jobDeadline == 0 && !InFlight(m.state)
    requires w.live.journal == Some(m.state) && w.live.shadows == {}
    requires m.state.job.state.Dispatched? && m.state.job.id != 0
    requires forall i :: 0 <= i < |w.past.powerCalls| && w.past.powerCalls[i].id == m.state.job.id ==>
                           m.state.resetIntent && ForReset(w.past.powerCalls[i])
    ensures var r := CarryOut(m, w); Keeps(r) && SameButPast(w, r.w) && r.m.state.pending == m.state.pending
  {
    CallPowerKeeps(m, w);
    var r2 := CallPower(m, w);
    if r2.out.Threw? {
      var m3 := r2.m.(state := r2.m.state.(job := r2.m.state.job.(state := Failed)));
      PersistFacts(m3, r2.w);
      PersistKeeps(m3, r2.w);
    }
  }

  lemma TickKeeps(m: Memory, w: World)
    requires WorldOk(w) && MemoryOk(m, w)
    ensures Keeps(Tick(m, w)) && SameButPast(w, Tick(m, w).w)
  {
    if !m.storageFailed {
      var due := InFlight(m.state) && w.boot.now >= m.state.pending.deadline;
      if due { SettleKeeps(m, w, Verdict(m.state, w.live.settings)); }
      var r := if due then RecoverNetwork(m, w) else Result(m, w, Ok);
      if r.out.Ok? && r.m.jobDeadline != 0 && w.boot.now >= r.m.jobDeadline {
        assert !r.m.storageFailed by { if due { SettleOkOnDisk(m, w, Verdict(m.state, w.live.settings)); } }
        DispatchKeeps(r.m, r.w);
      }
    }
  }

  lemma SettleOkOnDisk(m: Memory, w: World, commit: bool)
    requires SettleNetwork(m, w, commit).out.Ok?
    ensures var r := SettleNetwork(m, w, commit);
            !r.m.storageFailed && r.m == m.(state := Settled(m.state, commit))
                && r.w.live == Synced(w.live, Some(r.m.state))
  {
    var next := if commit then m.state.pending.network else m.state.pending.previous;
    NetworkFacts(m, w, next);
    PersistFacts(m.(state := Settled(m.state, commit)), ApplyNetwork(m, w, next).w);
  }

  // --- apply ---

  lemma ConsultFacts(m: Memory, w: World)
    ensures var r := Consult(m, w); r.m == m && r.w == w.(fates := r.w.fates)
  {
  }

  lemma PreferencesFacts(m: Memory, w: World, c: Configuration)
    ensures var r := ApplyPreferences(m, w, c);
            && r.m == m && r.w == w.(platform := r.w.platform, fates := r.w.fates)
            && r.w.platform.network == w.platform.network
            && (r.out.Ok? ==> r.w.platform.preferences == In(c) && r.w.platform.clock == In(c.time))
  {
  }

  lemma SshFacts(m: Memory, w: World, enabled: bool)
    ensures var r := ApplySsh(m, w, enabled);
            && r.m == m && r.w == w.(platform := r.w.platform, fates := r.w.fates)
            && r.w.platform == w.platform.(ssh := r.w.platform.ssh)
            && (r.out.Ok? ==> r.w.platform.ssh == In(enabled))
  {
  }

  /** The effects on the platform alone keep everything, as long as the network stays. */
  lemma PlatformKept(m: Memory, w: World, v: World)
    requires WorldOk(w) && v == w.(platform := v.platform, fates := v.fates) && v.platform.network == w.platform.network
    ensures WorldOk(v)
    ensures MemoryOk(m, w) ==> MemoryOk(m, v)
  {
  }

  /** The only difference that preferences make to a state. */
  predicate Repreferred(a: State, b: State) {
    b == a.(configuration := b.configuration, initialized := true) && NetworkOf(b) == NetworkOf(a)
  }

  lemma RepreferredSound(a: State, b: State, m: Memory, w: World)
    requires WorldOk(w) && MemoryOk(m, w) && m.state == a && Obstacle(m).None? && Repreferred(a, b)
    ensures Sound(b, w) && Apart(b, w) && MemoryOk(m.(state := b, storageFailed := true), w)
    ensures w.boot.recovered && AtRest(Some(b)) ==> w.platform.network == In(NetworkOf(b))
  {
  }

  /** A request that leaves a state written or not, and nothing else of concern. */
  ghost predicate Rewrote(m: Memory, w: World, r: Result, b: State) {
    && SameBut(w, r.w) && r.w.platform.network == w.platform.network
    && Replaced(w.live, r.w.live, b) && (m.storageFailed ==> r.w.live == w.live)
    && (r.out.Ok? ==> r.m.state == b && r.w.live == Synced(w.live, Some(b)) && !r.m.storageFailed)
    && r.m.jobDeadline == m.jobDeadline
    && (r.m.state == m.state || r.m.state == b)
    && (r.out.Threw? && !r.m.storageFailed ==>
          !m.storageFailed && r.w.live == w.live && r.m.state == m.state)
  }

  lemma RewroteKeeps(m: Memory, w: World, r: Result, b: State)
    requires WorldOk(w) && MemoryOk(m, w) && Obstacle(m).None? && Repreferred(m.state, b) && Rewrote(m, w, r, b)
    ensures Keeps(r)
  {
    RepreferredSound(m.state, b, m, w);
    JournalKept(w, r.w);
  }

  lemma InstallRewrites(m: Memory, w: World, c: Configuration)
    requires !m.storageFailed
    ensures Rewrote(m, w, InstallPreferences(m, w, c), m.state.(configuration := c, initialized := true))
  {
    PreferencesFacts(m, w, c);
    var r1 := ApplyPreferences(m, w, c);
    if r1.out.Ok? {
      SshFacts(m, r1.w, c.system.sshEnabled);
      var r2 := ApplySsh(m, r1.w, c.system.sshEnabled);
      if r2.out.Ok? {
        PersistFacts(m.(state := m.state.(configuration := c, initialized := true)), r2.w);
      }
    }
  }

  /** The state after the catch block of `apply` has run to some point. */
  lemma RollBackRewrites(m: Memory, w: World, previous: Configuration, cause: Outcome)
    requires cause.Threw?
    ensures var r := RollBackPreferences(m, w, previous, cause);
            var b := m.state.(configuration := previous);
            && SameBut(w, r.w) && r.w.platform.network == w.platform.network
            && r.m.state == b && r.m.jobDeadline == m.jobDeadline && !r.out.Ok?
            && Replaced(w.live, r.w.live, b) && (m.storageFailed ==> r.w.live == w.live)
            && (!r.m.storageFailed ==> !m.storageFailed)
            && (r.out == cause && cause != Threw(NeedsRecovery) ==>
                  && !r.m.storageFailed && r.w.live == Synced(w.live, Some(b))
                  && r.w.platform.preferences == In(previous) && r.w.platform.ssh == In(previous.system.sshEnabled)
                  && r.w.platform.clock == In(previous.time))
            && (r.out.Threw? && r.out != cause ==> r.out == Threw(NeedsRecovery))
  {
    var m1 := m.(state := m.state.(configuration := previous));
    PreferencesFacts(m1, w, previous);
    var r1 := ApplyPreferences(m1, w, previous);
    if r1.out.Ok? {
      SshFacts(m1, r1.w, previous.system.sshEnabled);
      var r2 := ApplySsh(m1, r1.w, previous.system.sshEnabled);
      if r2.out.Ok? {
        PersistFacts(m1, r2.w);
      }
    }
  }

  lemma ApplyKeeps(p: Profile, m: Memory, w: World, c: Configuration)
    requires WorldOk(w) && MemoryOk(m, w)
    ensures Keeps(Apply(p, m, w, c)) && SameBut(w, Apply(p, m, w, c).w)
  {
    var r := Apply(p, m, w, c);
    if Obstacle(m).None? && ValidConfiguration(c) && ManagedHostname(p, c) {
      ConsultFacts(m, w);
      var v := Consult(m, w).w;
      PlatformKept(m, w, v);
      if Consult(m, w).out.Ok? && c.system.network == NetworkOf(m.state) {
        var b := m.state.(configuration := c, initialized := true);
        var r1 := InstallPreferences(m, v, c);
        InstallRewrites(m, v, c);
        RewroteKeeps(m, v, r1, b);
        if r1.out.Threw? {
          RollBackKeeps(m, v, r1, b);
        }
      }
    }
  }

  lemma RollBackKeeps(m: Memory, w: World, r1: Result, b: State)
    requires WorldOk(w) && MemoryOk(m, w) && Obstacle(m).None?
    requires Repreferred(m.state, b) && Rewrote(m, w, r1, b) && r1.out.Threw?
    ensures var r := RollBackPreferences(r1.m, r1.w, m.state.configuration, r1.out);
            Keeps(r) && SameBut(w, r.w)
  {
    var previous := m.state.configuration;
    var b' := r1.m.state.(configuration := previous);
    RewroteKeeps(m, w, r1, b);
    RollBackRewrites(r1.m, r1.w, previous, r1.out);
    assert Repreferred(r1.m.state, b') && m.state.initialized;
    assert !r1.m.storageFailed ==> b' == m.state;
    var r := RollBackPreferences(r1.m, r1.w, previous, r1.out);
    if !r1.m.storageFailed {
      RepreferredSound(r1.m.state, b', r1.m, r1.w);
    } else {
      RepreferredSound(m.state, b', m, w);
    }
    JournalKept(r1.w, r.w);
  }

  // --- network transactions ---

  /** The proposed state is sound once its id has been drawn. */
  lemma ProposeSound(m: Memory, w: World, q: Proposal)
    requires WorldOk(w) && MemoryOk(m, w) && Obstacle(m).None? && q.previousHash != q.candidateHash
             && q.candidateHash != ""
    ensures WorldOk(Drawn(w))
    ensures MemoryOk(m.(state := Propose(m, w, q), storageFailed := true), Drawn(w))
  {
  }

  lemma EnterKeeps(m: Memory, w: World)
    requires WorldOk(w) && MemoryOk(m.(storageFailed := true), w) && !m.storageFailed && m.state.pending.phase.Proposed?
    ensures Keeps(EnterTransaction(m, w)) && SameButPast(w, EnterTransaction(m, w).w)
  {
    PersistFacts(m, w);
    PersistKeeps(m, w);
    var r1 := Persist(m, w);
    if r1.out.Ok? {
      var n := m.state.pending.network;
      NetworkFacts(m, r1.w, n);
      var r2 := ApplyNetwork(m, r1.w, n);
      JournalKept(r1.w, r2.w);
      if r2.out.Ok? {
        TickKeeps(m, r2.w);
      } else if r2.out.Threw? {
        SettleKeeps(m, r2.w, false);
      }
    }
  }

  lemma BeginKeeps(p: Profile, m: Memory, w: World, q: Proposal)
    requires WorldOk(w) && MemoryOk(m, w)
    ensures Keeps(BeginNetwork(p, m, w, q))
  {
    ConsultFacts(m, w);
    var r0 := Consult(m, w);
    PlatformKept(m, w, r0.w);
    if Obstacle(m).None? && FreshProposal(q, w.live.settings) {
      ProposeSound(m, r0.w, q);
      EnterKeeps(m.(state := Propose(m, r0.w, q)), Drawn(r0.w));
    }
  }

  lemma PrepareKeeps(m: Memory, w: World, id: nat)
    requires WorldOk(w) && MemoryOk(m, w)
    ensures Keeps(PrepareCommit(m, w, id)) && SameButPast(w, PrepareCommit(m, w, id).w)
  {
    TickKeeps(m, w);
    var r := Tick(m, w);
    if r.out.Ok? && Current(r.m, id) && r.m.state.pending.phase.Proposed?
       && r.w.live.settings == r.m.state.pending.previousHash {
      TickLeavesTime(m, w);
      CommittingKeeps(r.m, r.w);
    }
  }

  lemma CommittingKeeps(m: Memory, w: World)
    requires WorldOk(w) && MemoryOk(m, w) && !m.storageFailed
    requires m.state.pending.phase.Proposed? && w.boot.now < m.state.pending.deadline
    ensures var r := Persist(ToCommitting(m, w), w); Keeps(r) && SameBut(w, r.w)
  {
    PersistFacts(ToCommitting(m, w), w);
    PersistKeeps(ToCommitting(m, w), w);
  }

  /** After a normal tick, whatever is still in flight has not reached its deadline. */
  lemma TickLeavesTime(m: Memory, w: World)
    requires WorldOk(w) && MemoryOk(m, w) && Tick(m, w).out.Ok?
    ensures var r := Tick(m, w);
            !r.m.storageFailed && (InFlight(r.m.state) ==>
                r.m.state.pending == m.state.pending && w.boot.now < r.m.state.pending.deadline)
  {
    var due := InFlight(m.state) && w.boot.now >= m.state.pending.deadline;
    if due {
      SettleOkOrNot(m, w, Verdict(m.state, w.live.settings));
    }
    var r := if due then RecoverNetwork(m, w) else Result(m, w, Ok);
    if r.out.Ok? && r.m.jobDeadline != 0 && w.boot.now >= r.m.jobDeadline {
      DispatchOk(r.m, r.w);
    }
  }

  lemma SettleOkOrNot(m: Memory, w: World, commit: bool)
    ensures var r := SettleNetwork(m, w, commit);
            r.out.Ok? ==> !InFlight(r.m.state) && !r.m.storageFailed
  {
    if SettleNetwork(m, w, commit).out.Ok? { SettleOkOnDisk(m, w, commit); }
  }

  lemma DispatchOk(m: Memory, w: World)
    ensures var r := DispatchJob(m, w);
            r.out.Ok? ==> r.m.state.pending == m.state.pending && !r.m.storageFailed
  {
    var m1 := m.(jobDeadline := 0, state := m.state.(job := m.state.job.(state := Dispatched)));
    PersistFacts(m1, w);
  }

  lemma FinishKeeps(m: Memory, w: World, id: nat, commit: bool)
    requires WorldOk(w) && MemoryOk(m, w)
    ensures Keeps(FinishNetwork(m, w, id, commit)) && SameBut(w, FinishNetwork(m, w, id, commit).w)
  {
    if Current(m, id) && commit == Verdict(m.state, w.live.settings) {
      SettleKeeps(m, w, commit);
    }
  }

  // --- jobs ---

  lemma AcceptKeeps(m: Memory, w: World, action: Action)
    requires WorldOk(w) && MemoryOk(m, w) && Obstacle(m).None?
    ensures Keeps(AcceptJob(m, w, action))
  {
    NewJobIsSound(m, w, action);
    var m1, v := m.(state := Taking(m, w, action)), Counted(w, action);
    PersistKeeps(m1, v);
    TakenIsOk(m1, v, w.boot.now + POWER_MS);
  }

  lemma NewJobIsSound(m: Memory, w: World, action: Action)
    requires WorldOk(w) && MemoryOk(m, w) && Obstacle(m).None?
    ensures var s, v := Taking(m, w, action), Counted(w, action);
            && WorldOk(v) && Sound(s, v) && Apart(s, v) && !InFlight(s) && (s.initialized || s.resetIntent)
                && s.job.state.Accepted?
            && (w.boot.recovered && AtRest(Some(s)) ==> w.platform.network == In(NetworkOf(s)))
  {
  }

  lemma TakenIsOk(m: Memory, w: World, deadline: nat)
    requires Sound(m.state, w) && Apart(m.state, w) && !InFlight(m.state)
    requires (m.state.initialized || m.state.resetIntent) && m.state.job.state.Accepted?
    ensures var r := Persist(m, w);
            && (r.out.Ok? ==> MemoryOk(r.m.(jobDeadline := deadline), r.w))
            && (r.out.Threw? ==> MemoryOk(r.m, r.w))
  {
    PersistFacts(m, w);
  }

  // ---------------------------------------------------------------------------------------------
  // Bootstrap
  // ---------------------------------------------------------------------------------------------

  /** What the constructor reads back is as good as the journal. */
  lemma LoadSound(p: Profile, w: World)
    requires WorldOk(w)
    ensures var m := Load(p, w.live.journal);
            && Sound(m.state, w) && Apart(m.state, w) && !m.storageFailed && m.jobDeadline == 0
            && (w.live.journal.Some? ==> OnDisk(m, w))
            && (w.live.journal.None? ==>
                !m.state.initialized && !m.state.resetIntent && !InFlight(m.state) && m.state.job.state.NoJob?)
  {
  }

  lemma BootPolicyFacts(m: Memory, w: World)
    ensures var r := ApplyBootPolicies(m, w);
            && r.m == m && r.w == w.(platform := r.w.platform, fates := r.w.fates)
            && (w.platform.network == In(NetworkOf(m.state)) ==> r.w.platform.network == In(NetworkOf(m.state)))
            && (r.out.Ok? ==>
                  && r.w.platform.network == In(NetworkOf(m.state))
                  && r.w.platform.ssh == In(m.state.configuration.system.sshEnabled)
                  && r.w.platform.clock == In(m.state.configuration.time))
  {
    NetworkFacts(m, w, NetworkOf(m.state));
    var r1 := ApplyNetwork(m, w, NetworkOf(m.state));
    if r1.out.Ok? {
      SshFacts(m, r1.w, m.state.configuration.system.sshEnabled);
      ClockFacts(m, ApplySsh(m, r1.w, m.state.configuration.system.sshEnabled).w, m.state.configuration.time);
    }
  }

  lemma ClockFacts(m: Memory, w: World, t: TimePreferences)
    ensures var r := ApplyClock(m, w, t);
            && r.m == m && r.w == w.(platform := r.w.platform, fates := r.w.fates)
            && r.w.platform == w.platform.(clock := r.w.platform.clock)
            && (r.out.Ok? ==> r.w.platform.clock == In(t))
  {
  }

  lemma HostnameFacts(m: Memory, w: World, name: string)
    ensures var r := ApplyHostname(m, w, name);
            && r.m == m && r.w == w.(platform := r.w.platform, fates := r.w.fates)
            && r.w.platform == w.platform.(hostname := r.w.platform.hostname)
            && (r.out.Ok? ==> r.w.platform.hostname == In(name))
  {
  }

  /** Removing reset paths loses at most the journal and the settings, and no path is skipped. */
  ghost predicate Removal(p: Profile, w: World, v: World) {
    && v == w.(live := v.live, boot := v.boot, fates := v.fates)
    && v.boot == w.boot.(removed := v.boot.removed) && w.boot.removed <= v.boot.removed
    && (v.live.journal == w.live.journal || v.live.journal == None)
    && v.live.shadows <= Possible(w.live) + {None}
    && (v.live.settings == w.live.settings || v.live.settings == "")
  }

  lemma RemoveOne(p: Profile, m: Memory, w: World, path: ResetPath)
    ensures var r := RemovePath(p, m, w, path);
            && r.m == m && Removal(p, w, r.w)
            && (!Covers(path, p.journal) ==> r.w.live.journal == w.live.journal && r.w.live.shadows == w.live.shadows)
            && (r.out.Ok? ==> path in r.w.boot.removed && (Covers(path, p.settings) ==> r.w.live.settings == ""))
  {
  }

  lemma {:induction false} RemoveFacts(p: Profile, m: Memory, w: World, paths: seq<ResetPath>)
    ensures var r := RemovePaths(p, m, w, paths);
            && r.m == m && Removal(p, w, r.w)
            && ((forall i :: 0 <= i < |paths| ==> !Covers(paths[i], p.journal)) ==>
                  r.w.live.journal == w.live.journal && r.w.live.shadows == w.live.shadows)
            && (r.out.Ok? ==> forall i :: 0 <= i < |paths| ==> paths[i] in r.w.boot.removed)
            && (r.out.Ok? && (exists i :: 0 <= i < |paths| && Covers(paths[i], p.settings)) ==> r.w.live.settings == "")
    decreases |paths|
  {
    if paths != [] {
      RemoveOne(p, m, w, paths[0]);
      var r := RemovePath(p, m, w, paths[0]);
      if r.out.Ok? {
        RemoveFacts(p, m, r.w, paths[1..]);
        assert forall i :: 1 <= i < |paths| ==> paths[i] == paths[1..][i - 1];
      }
    }
  }

  /** Whatever bootstrap does to the world, short of the journal it writes at the end. */
  lemma UnrestedKept(w: World, v: World)
    requires WorldOk(w) && v == w.(live := v.live, platform := v.platform, boot := v.boot, fates := v.fates)
    requires (v.live.journal == w.live.journal || v.live.journal.None?) && v.live.shadows <= Possible(w.live) + {None}
    requires v.boot.recovered && AtRest(v.live.journal) ==> v.platform.network == In(NetworkOf(v.live.journal.value))
    ensures WorldOk(v)
  {
  }

  lemma ResetKeeps(p: Profile, m: Memory, w: World)
    requires WorldOk(w) && OnDisk(m, w) && Sound(m.state, w) && Apart(m.state, w) && m.state.resetIntent
    ensures var r := CompleteReset(p, m, w);
            BootReady(r) && (r.out.Ok? ==> r.w.live.journal == Some(r.m.state))
  {
    if ResetPrepared(p, w) {
      RemoveFacts(p, m, w, p.resetPaths);
      var r1 := RemovePaths(p, m, w, p.resetPaths);
      UnrestedKept(w, r1.w);
      if r1.out.Ok? {
        var m1 := m.(state := ResetState(p, m.state));
        PoliciesReady(m1, r1.w);
        var r2 := ApplyBootPolicies(m1, r1.w);
        if r2.out.Ok? { CompletionKeeps(m1, r2.w); }
      }
    }
  }

  /** The last write of a reset. */
  lemma CompletionKeeps(m: Memory, w: World)
    requires WorldOk(w) && Sound(m.state, w) && Apart(m.state, w) && m.state.initialized && !InFlight(m.state)
    requires m.state.resetIntent && w.platform.network == In(NetworkOf(m.state))
    ensures var r := Persist(m.(state := m.state.(resetIntent := false, job := m.state.job.(state := Completed))), w);
            BootReady(r) && (r.out.Ok? ==> r.w.live.journal == Some(r.m.state))
  {
    var m2 := m.(state := m.state.(resetIntent := false, job := m.state.job.(state := Completed)));
    PersistFacts(m2, w);
    PersistKeeps(m2, w);
  }

  /** What every branch of bootstrap that goes on to the identity step has reached. */
  ghost predicate BootReady(r: Result) {
    && WorldOk(r.w)
    && (r.out.Ok? ==> Sound(r.m.state, r.w) && Apart(r.m.state, r.w) && r.m.state.initialized
                      && !InFlight(r.m.state) && r.w.platform.network == In(NetworkOf(r.m.state)))
  }

  lemma RestoreKeeps(m: Memory, w: World)
    requires WorldOk(w) && MemoryCore(m, w) && m.state.initialized && !m.state.resetIntent && !m.storageFailed
    ensures BootReady(RestoreBoot(m, w))
    ensures RestoreBoot(m, w).out.Ok? ==> OnDisk(RestoreBoot(m, w).m, RestoreBoot(m, w).w)
  {
    if InFlight(m.state) {
      SettleKeepsCore(m, w, Verdict(m.state, w.live.settings));
      SettleOkOrNot(m, w, Verdict(m.state, w.live.settings));
    }
    var r := RecoverNetwork(m, w);
    if r.out.Ok? { PoliciesReady(r.m, r.w); }
  }

  /** Putting a configuration in force that is the journal's, or that of a journal not at rest. */
  lemma PoliciesReady(m: Memory, w: World)
    requires WorldOk(w) && Sound(m.state, w) && Apart(m.state, w) && m.state.initialized && !InFlight(m.state)
    requires AtRest(w.live.journal) ==> NetworkOf(w.live.journal.value) == NetworkOf(m.state)
    ensures var r := ApplyBootPolicies(m, w); BootReady(r) && r.m == m && r.w.live == w.live
  {
    BootPolicyFacts(m, w);
    UnrestedKept(w, ApplyBootPolicies(m, w).w);
  }

  lemma FirstBootKeeps(b: BootPreferences, m: Memory, w: World)
    requires WorldOk(w) && Sound(m.state, w) && Apart(m.state, w) && !m.storageFailed
    requires !m.state.initialized && !m.state.resetIntent && !AtRest(w.live.journal)
    ensures BootReady(FirstBoot(b, m, w))
  {
    var m1 := m.(state := m.state.(configuration := b.initial));
    BootPolicyFacts(m1, w);
    var r := ApplyBootPolicies(m1, w);
    UnrestedKept(w, r.w);
    if r.out.Ok? {
      var m2 := m1.(state := m1.state.(initialized := true));
      PersistFacts(m2, r.w);
      PersistKeeps(m2, r.w);
    }
  }

  lemma IdentityKeeps(b: BootPreferences, m: Memory, w: World)
    requires WorldOk(w) && Sound(m.state, w) && Apart(m.state, w) && m.state.initialized
    requires !InFlight(m.state) && w.platform.network == In(NetworkOf(m.state))
    ensures var r := BootIdentity(b, m, w);
            && WorldOk(r.w) && r.w.platform.network == w.platform.network
            && (r.out.Ok? ==> r.w.live.journal.Some? && NetworkOf(r.w.live.journal.value) == NetworkOf(m.state)
                              && !InFlight(r.w.live.journal.value)
                                  && r.w.live.journal.value.resetIntent == m.state.resetIntent)
  {
    var c := m.state.configuration;
    var m1 := m.(state := m.state.(configuration := c.(system := c.system.(hostname := b.managedHostname))));
    HostnameFacts(m1, w, b.managedHostname);
    var r := ApplyHostname(m1, w, b.managedHostname);
    UnrestedKept(w, r.w);
    PersistFacts(m1, r.w);
    PersistKeeps(m1, r.w);
  }

  /** The state of the world after bootstrap has returned normally. */
  predicate Recovered(w: World) {
    && !LiveInFlight(w)
    && (w.live.journal.Some? ==> !w.live.journal.value.resetIntent)
    && (AtRest(w.live.journal) ==> w.platform.network == In(NetworkOf(w.live.journal.value)))
  }

  lemma BranchKeeps(p: Profile, w: World)
    requires WorldOk(w)
    ensures var m := Load(p, w.live.journal);
            && (m.state.resetIntent ==>
                  BootReady(CompleteReset(p, m, w))
                      && (CompleteReset(p, m, w).out.Ok? ==> Recovered(CompleteReset(p, m, w).w)))
            && (!m.state.resetIntent && m.state.initialized ==>
                  BootReady(RestoreBoot(m, w)) && (RestoreBoot(m, w).out.Ok? ==> Recovered(RestoreBoot(m, w).w)))
  {
    LoadSound(p, w);
    var m := Load(p, w.live.journal);
    if m.state.resetIntent {
      ResetKeeps(p, m, w);
      ResetClears(p, m, w);
    } else if m.state.initialized {
      RestoreKeeps(m, w);
      RestoreClears(m, w);
    }
  }

  lemma ResetClears(p: Profile, m: Memory, w: World)
    ensures var r := CompleteReset(p, m, w);
            r.out.Ok? ==> !r.m.state.resetIntent && !r.m.storageFailed && r.m.jobDeadline == m.jobDeadline
  {
    RemoveFacts(p, m, w, p.resetPaths);
    var r1 := RemovePaths(p, m, w, p.resetPaths);
    var m1 := m.(state := ResetState(p, m.state));
    BootPolicyFacts(m1, r1.w);
    var r2 := ApplyBootPolicies(m1, r1.w);
    PersistFacts(m1.(state := m1.state.(resetIntent := false, job := m1.state.job.(state := Completed))), r2.w);
  }

  lemma RestoreClears(m: Memory, w: World)
    requires !m.state.resetIntent
    ensures RestoreBoot(m, w).out.Ok? ==> !RestoreBoot(m, w).m.state.resetIntent
  {
    var commit := Verdict(m.state, w.live.settings);
    if SettleNetwork(m, w, commit).out.Ok? { SettleOkOnDisk(m, w, commit); }
    var r := RecoverNetwork(m, w);
    BootPolicyFacts(r.m, r.w);
  }

  lemma BootstrapKeeps(p: Profile, w: World)
    requires WorldOk(w)
    ensures var r := Bootstrap(p, Load(p, w.live.journal), w);
            WorldOk(r.w) && (r.out.Ok? ==> Recovered(r.w))
  {
    LoadSound(p, w);
    var m := Load(p, w.live.journal);
    BranchKeeps(p, w);
    if m.state.resetIntent {
      ResetClears(p, m, w);
      FollowUp(p, CompleteReset(p, m, w));
    } else if m.state.initialized {
      RestoreClears(m, w);
      FollowUp(p, RestoreBoot(m, w));
    } else if p.bootPreferences.Some? {
      FirstBootKeeps(p.bootPreferences.value, m, w);
      FirstBootClears(p.bootPreferences.value, m, w);
      FollowUp(p, FirstBoot(p.bootPreferences.value, m, w));
    } else {
      ClockFacts(m, w, p.defaults.time);
      UnrestedKept(w, ApplyClock(m, w, p.defaults.time).w);
    }
  }

  lemma FirstBootClears(b: BootPreferences, m: Memory, w: World)
    requires !m.state.resetIntent && !InFlight(m.state)
    ensures var r := FirstBoot(b, m, w);
            r.out.Ok? ==> !r.m.state.resetIntent && !r.m.storageFailed && r.w.live.journal == Some(r.m.state)
  {
    var m1 := m.(state := m.state.(configuration := b.initial));
    BootPolicyFacts(m1, w);
    PersistFacts(m1.(state := m1.state.(initialized := true)), ApplyBootPolicies(m1, w).w);
  }

  /** The identity step after a branch that succeeded. */
  lemma FollowUp(p: Profile, r: Result)
    requires BootReady(r)
    requires r.out.Ok? ==> !r.m.state.resetIntent && Recovered(r.w)
    ensures var t := Identified(p, r);
            WorldOk(t.w) && (t.out.Ok? ==> Recovered(t.w))
  {
    if r.out.Ok? && p.bootPreferences.Some? {
      IdentityKeeps(p.bootPreferences.value, r.m, r.w);
    }
  }

  // ---------------------------------------------------------------------------------------------
  // Start
  // ---------------------------------------------------------------------------------------------

  lemma DiscoverKeeps(m: Memory, w: World, found: Configuration)
    requires WorldOk(w) && Sound(m.state, w) && Apart(m.state, w) && !m.storageFailed && m.jobDeadline == 0
    requires !m.state.initialized && !m.state.resetIntent && !AtRest(w.live.journal)
    ensures var r := Discover(m, w, found);
            WorldOk(r.w) && (r.out.Ok? ==> MemoryCore(r.m, r.w) && !InFlight(r.m.state) && !r.m.storageFailed
                                           && r.m.jobDeadline == 0 && !r.m.state.resetIntent)
  {
    ConsultFacts(m, w);
    var r := Consult(m, w);
    PlatformKept(m, w, r.w);
    if r.out.Ok? && w.platform.network.In? {
      var c := WithNetwork(found, w.platform.network.value);
      var m1 := m.(state := m.state.(configuration := c, initialized := true));
      PersistFacts(m1, r.w);
      PersistKeeps(m1, r.w);
    }
  }

  lemma InterruptKeeps(m: Memory, w: World)
    requires WorldOk(w) && MemoryCore(m, w) && !InFlight(m.state) && !m.storageFailed && m.jobDeadline == 0
             && !m.state.resetIntent
    ensures var r := InterruptJob(m, w);
            WorldOk(r.w) && (r.out.Ok? ==> MemoryOk(r.m, r.w) && !InFlight(r.m.state) && !r.m.state.job.state.Accepted?)
  {
    if m.state.job.state.Accepted? {
      var m1 := m.(state := m.state.(job := m.state.job.(state := Interrupted)));
      PersistFacts(m1, w);
      PersistKeeps(m1, w);
    }
  }

  lemma StartKeeps(p: Profile, w: World, found: Configuration)
    requires WorldOk(w)
    ensures var r := Start(Load(p, w.live.journal), w, found);
            WorldOk(r.w) && (r.out.Ok? ==> MemoryOk(r.m, r.w) && !InFlight(r.m.state))
  {
    LoadSound(p, w);
    var m := Load(p, w.live.journal);
    if !m.state.resetIntent {
      if !m.state.initialized { DiscoverKeeps(m, w, found); }
      var r1 := if m.state.initialized then Result(m, w, Ok) else Discover(m, w, found);
      if r1.out.Ok? {
        RecoverKeeps(r1.m, r1.w);
        var r2 := RecoverNetwork(r1.m, r1.w);
        if r2.out.Ok? { InterruptKeeps(r2.m, r2.w); }
      }
    }
  }

  lemma RecoverKeeps(m: Memory, w: World)
    requires WorldOk(w) && MemoryCore(m, w) && !m.storageFailed && m.jobDeadline == 0 && !m.state.resetIntent
    ensures var r := RecoverNetwork(m, w);
            WorldOk(r.w) && (r.out.Ok? ==> MemoryCore(r.m, r.w) && !InFlight(r.m.state) && !r.m.storageFailed
                                           && r.m.jobDeadline == 0 && !r.m.state.resetIntent)
  {
    if InFlight(m.state) {
      var commit := Verdict(m.state, w.live.settings);
      SettleKeepsCore(m, w, commit);
      if SettleNetwork(m, w, commit).out.Ok? { SettleOkOnDisk(m, w, commit); }
    }
  }
}
