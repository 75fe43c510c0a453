/**
 * The operations of `Backend` as functions from memory and world to memory, world and outcome.
 * Every effect takes its fate from `World.fates`, so a call can throw or be cut off at each of them.
 */
module Manager {
  import opened Configuration
  import opened Validation
  import opened Faults
  import opened Journal

  const CONFIRM_MS: nat := 120000
  const COMMIT_MS: nat := 30000
  const POWER_MS: nat := 5000

  // ---------------------------------------------------------------------------------------------
  // Effects
  // ---------------------------------------------------------------------------------------------

  /** One effect: untouched world, half-done world and finished world, chosen by its fate. */
  function Attempt(m: Memory, w: World, half: World, done: World): Result {
    var fates := Rest(w.fates);
    match First(w.fates)
    case Done => Result(m, done.(fates := fates), Ok)
    case Throw(at) => Result(m, Reached(at, w, half, done).(fates := fates), Threw(ApplyFailed))
    case Crash(at) => Result(m, Reached(at, w, half, done).(fates := fates), Crashed)
  }

  function Reached(at: Point, w: World, half: World, done: World): World {
    match at
    case Before => w
    case Midway => half
    case After => done
  }

  /** The journal replaced, and that made durable or not yet. */
  function Synced(d: Disk, journal: Option<State>): Disk { d.(journal := journal, shadows := {}) }

  function Unsynced(d: Disk, journal: Option<State>): Disk { d.(journal := journal, shadows := Possible(d)) }

  /** `persist`: the rename comes before the sync of the directory; the caller learns of both only on success. */
  function Persist(m: Memory, w: World): Result {
    if m.storageFailed then Result(m, w, Threw(Unavailable))
    else
      var r := Attempt(m, w, w.(live := Unsynced(w.live, Some(m.state))), w.(live := Synced(w.live, Some(m.state))));
      if r.out.Threw? then r.(m := m.(storageFailed := true)) else r
  }

  function OnPlatform(w: World, platform: Platform): World {
    w.(platform := platform)
  }

  function ApplyNetwork(m: Memory, w: World, n: Network): Result {
    Attempt(m, w, OnPlatform(w, w.platform.(network := Mix(w.platform.network, n))),
            OnPlatform(w, w.platform.(network := In(n))))
  }

  function ApplySsh(m: Memory, w: World, enabled: bool): Result {
    Attempt(m, w, OnPlatform(w, w.platform.(ssh := Mix(w.platform.ssh, enabled))),
            OnPlatform(w, w.platform.(ssh := In(enabled))))
  }

  function ApplyClock(m: Memory, w: World, t: TimePreferences): Result {
    Attempt(m, w, OnPlatform(w, w.platform.(clock := Mix(w.platform.clock, t))),
            OnPlatform(w, w.platform.(clock := In(t))))
  }

  function ApplyHostname(m: Memory, w: World, name: string): Result {
    Attempt(m, w, OnPlatform(w, w.platform.(hostname := Mix(w.platform.hostname, name))),
            OnPlatform(w, w.platform.(hostname := In(name))))
  }

  /** `preferences` sets time zone, host name and clock units, and the SSH boot policy. */
  function ApplyPreferences(m: Memory, w: World, c: Configuration): Result {
    var now, ssh := w.platform, c.system.sshEnabled;
    Attempt(m, w,
            OnPlatform(w, now.(preferences := Mix(now.preferences, c), ssh := Mix(now.ssh, ssh),
                               clock := Mix(now.clock, c.time))),
            OnPlatform(w, now.(preferences := In(c), ssh := In(ssh), clock := In(c.time))))
  }

  /** A platform query or check that may throw but changes nothing. */
  function Consult(m: Memory, w: World): Result {
    Attempt(m, w, w, w)
  }

  function CallPower(m: Memory, w: World): Result {
    var call := PowerCall(m.state.job.id, m.state.job.action.Shutdown?, w.live.journal);
    var called := w.(past := w.past.(powerCalls := w.past.powerCalls + [call]));
    Attempt(m, called, called, called)
  }

  /** `durableRemove` of one reset path: the deletion, and then the sync of its directory. */
  function RemovePath(p: Profile, m: Memory, w: World, path: ResetPath): Result {
    var d := if Covers(path, p.settings) then w.live.(settings := "") else w.live;
    if Covers(path, p.journal) then
      Attempt(m, w, w.(live := Unsynced(d, None)), Removed(w.(live := Synced(d, None)), path))
    else
      Attempt(m, w, w.(live := d), Removed(w.(live := d), path))
  }

  function Removed(w: World, path: ResetPath): World {
    w.(boot := w.boot.(removed := w.boot.removed + {path}))
  }

  function RemovePaths(p: Profile, m: Memory, w: World, paths: seq<ResetPath>): Result
    decreases |paths|
  {
    if paths == [] then Result(m, w, Ok)
    else
      var r := RemovePath(p, m, w, paths[0]);
      if r.out.Ok? then RemovePaths(p, m, r.w, paths[1..]) else r
  }

  // ---------------------------------------------------------------------------------------------
  // Settling a network transaction
  // ---------------------------------------------------------------------------------------------

  function Settled(s: State, commit: bool): State {
    var next := if commit then s.pending.network else s.pending.previous;
    s.(configuration := WithNetwork(s.configuration, next),
       pending := s.pending.(phase := if commit then Committed else RolledBack))
  }

  function SettleNetwork(m: Memory, w: World, commit: bool): Result {
    var r := ApplyNetwork(m, w, if commit then m.state.pending.network else m.state.pending.previous);
    if r.out.Ok? then Persist(m.(state := Settled(m.state, commit)), r.w) else r
  }

  /** The verdict of recovery, from the journal and the settings file alone. */
  predicate Verdict(s: State, settings: string) {
    s.pending.phase.Committing? && settings == s.pending.candidateHash
  }

  function RecoverNetwork(m: Memory, w: World): Result {
    if !InFlight(m.state) then Result(m, w, Ok)
    else SettleNetwork(m, w, Verdict(m.state, w.live.settings))
  }

  // ---------------------------------------------------------------------------------------------
  // Process start
  // ---------------------------------------------------------------------------------------------

  /** The constructor: read the journal, or begin from product defaults. */
  function Load(p: Profile, journal: Option<State>): Memory {
    var s := if journal.Some? then journal.value
             else State(p.defaults, false, NO_PENDING, Job(0, Reboot, NoJob), false);
    var time := s.configuration.time;
    var filled := if time.ptpInterface == "" then time.(ptpInterface := p.defaults.time.ptpInterface) else time;
    Memory(s.(configuration := s.configuration.(time := filled)), false, 0)
  }

  /** Network, SSH and clock policy of the configuration in memory. */
  function ApplyBootPolicies(m: Memory, w: World): Result {
    var r1 := ApplyNetwork(m, w, NetworkOf(m.state));
    if !r1.out.Ok? then r1 else
      var r2 := ApplySsh(m, r1.w, m.state.configuration.system.sshEnabled);
      if !r2.out.Ok? then r2 else ApplyClock(m, r2.w, m.state.configuration.time)
  }

  function ResetPrepared(p: Profile, w: World): bool {
    !p.storageStatus || (w.boot.status.Some? && w.boot.status.value.resetPrepared)
  }

  function ResetState(p: Profile, s: State): State {
    s.(configuration := p.defaults, initialized := true, pending := NO_PENDING)
  }

  function CompleteReset(p: Profile, m: Memory, w: World): Result {
    if !ResetPrepared(p, w) then Result(m, w, Threw(Unavailable))
    else
      var r1 := RemovePaths(p, m, w, p.resetPaths);
      if !r1.out.Ok? then r1 else
        var m1 := m.(state := ResetState(p, m.state));
        var r2 := ApplyBootPolicies(m1, r1.w);
        if !r2.out.Ok? then r2 else
          Persist(m1.(state := m1.state.(resetIntent := false, job := m1.state.job.(state := Completed))), r2.w)
  }

  function RestoreBoot(m: Memory, w: World): Result {
    var r := RecoverNetwork(m, w);
    if r.out.Ok? then ApplyBootPolicies(r.m, r.w) else r
  }

  function FirstBoot(b: BootPreferences, m: Memory, w: World): Result {
    var m1 := m.(state := m.state.(configuration := b.initial));
    var r := ApplyBootPolicies(m1, w);
    if r.out.Ok? then Persist(m1.(state := m1.state.(initialized := true)), r.w) else r
  }

  function BootIdentity(b: BootPreferences, m: Memory, w: World): Result {
    var c := m.state.configuration;
    var m1 := m.(state := m.state.(configuration := c.(system := c.system.(hostname := b.managedHostname))));
    var r := ApplyHostname(m1, w, b.managedHostname);
    if r.out.Ok? then Persist(r.m, r.w) else r
  }

  function Bootstrap(p: Profile, m: Memory, w: World): Result {
    var r :=
      if m.state.resetIntent then CompleteReset(p, m, w)
      else if m.state.initialized then RestoreBoot(m, w)
      else if p.bootPreferences.Some? then FirstBoot(p.bootPreferences.value, m, w)
      else ApplyClock(m, w, p.defaults.time);
    Identified(p, r)
  }

  /** The identity step, after a branch that has returned normally. */
  function Identified(p: Profile, r: Result): Result {
    if r.out.Ok? && p.bootPreferences.Some? then BootIdentity(p.bootPreferences.value, r.m, r.w) else r
  }

  /** First start of a device that was never configured: take over what is in force. */
  ghost function Discover(m: Memory, w: World, found: Configuration): Result {
    var r := Consult(m, w);
    if !r.out.Ok? then r
    else if w.platform.network.Mixed? then r.(out := Threw(Unsupported))
    else
      var c := WithNetwork(found, w.platform.network.value);
      if !ValidConfiguration(c) then r.(out := Threw(InvalidArgument))
      else Persist(m.(state := m.state.(configuration := c, initialized := true)), r.w)
  }

  function InterruptJob(m: Memory, w: World): Result {
    if m.state.job.state.Accepted?
    then Persist(m.(state := m.state.(job := m.state.job.(state := Interrupted))), w)
    else Result(m, w, Ok)
  }

  ghost function Start(m: Memory, w: World, found: Configuration): Result {
    if m.state.resetIntent then Result(m.(jobDeadline := w.boot.now + POWER_MS), w, Ok)
    else
      var r1 := if m.state.initialized then Result(m, w, Ok) else Discover(m, w, found);
      if !r1.out.Ok? then r1 else
        var r2 := RecoverNetwork(r1.m, r1.w);
        if r2.out.Ok? then InterruptJob(r2.m, r2.w) else r2
  }

  // ---------------------------------------------------------------------------------------------
  // Requests
  // ---------------------------------------------------------------------------------------------

  /** `idle`: why a new operation may not begin, if it may not. */
  function Obstacle(m: Memory): Option<Error> {
    if m.storageFailed then Some(Unavailable)
    else if InFlight(m.state) || m.state.job.state.Accepted? || m.state.resetIntent then Some(Busy)
    else None
  }

  function DispatchJob(m: Memory, w: World): Result {
    var m1 := m.(jobDeadline := 0, state := m.state.(job := m.state.job.(state := Dispatched)));
    var r1 := Persist(m1, w);
    if r1.out.Ok? then CarryOut(r1.m, r1.w) else r1
  }

  /** The power call, and the journal entry if it throws. */
  function CarryOut(m: Memory, w: World): Result {
    var r1 := CallPower(m, w);
    if !r1.out.Threw? then r1 else
      var r2 := Persist(r1.m.(state := r1.m.state.(job := r1.m.state.job.(state := Failed))), r1.w);
      if r2.out.Ok? then r2.(out := r1.out) else r2
  }

  function Tick(m: Memory, w: World): Result {
    if m.storageFailed then Result(m, w, Threw(Unavailable))
    else
      var r := if InFlight(m.state) && w.boot.now >= m.state.pending.deadline then RecoverNetwork(m, w)
               else Result(m, w, Ok);
      if r.out.Ok? && r.m.jobDeadline != 0 && w.boot.now >= r.m.jobDeadline then DispatchJob(r.m, r.w) else r
  }

  predicate ManagedHostname(p: Profile, c: Configuration) {
    p.bootPreferences.Some? ==> c.system.hostname == p.bootPreferences.value.managedHostname
  }

  /** The catch block of `apply`. */
  function RollBackPreferences(m: Memory, w: World, previous: Configuration, cause: Outcome): Result {
    var m1 := m.(state := m.state.(configuration := previous));
    var r1 := ApplyPreferences(m1, w, previous);
    var r2 := if r1.out.Ok? then ApplySsh(r1.m, r1.w, previous.system.sshEnabled) else r1;
    var r3 := if r2.out.Ok? then Persist(r2.m, r2.w) else r2;
    match r3.out
    case Ok => r3.(out := cause)
    case Threw(_) => r3.(out := Threw(NeedsRecovery))
    case Crashed => r3
  }

  /** The try block of `apply`. */
  function InstallPreferences(m: Memory, w: World, c: Configuration): Result {
    var r1 := ApplyPreferences(m, w, c);
    var r2 := if r1.out.Ok? then ApplySsh(r1.m, r1.w, c.system.sshEnabled) else r1;
    if !r2.out.Ok? then r2
    else Persist(r2.m.(state := r2.m.state.(configuration := c, initialized := true)), r2.w)
  }

  ghost function Apply(p: Profile, m: Memory, w: World, c: Configuration): Result {
    if Obstacle(m).Some? then Result(m, w, Threw(Obstacle(m).value))
    else if !ValidConfiguration(c) || !ManagedHostname(p, c) then Result(m, w, Threw(InvalidArgument))
    else
      var r0 := Consult(m, w);
      if !r0.out.Ok? then r0
      else if m.state.initialized && c.system.network != NetworkOf(m.state) then r0.(out := Threw(InvalidArgument))
      else
        var r := InstallPreferences(m, r0.w, c);
        if r.out.Threw? then RollBackPreferences(r.m, r.w, m.state.configuration, r.out) else r
  }

  datatype Proposal = Proposal(network: Network, previousHash: string, candidateHash: string)

  predicate SettingsHash(s: string) {
    |s| == 64 && forall i :: 0 <= i < 64 ==> '0' <= s[i] <= '9' || 'a' <= s[i] <= 'f'
  }

  predicate FreshProposal(q: Proposal, settings: string) {
    && SettingsHash(q.previousHash) && SettingsHash(q.candidateHash)
    && q.previousHash != q.candidateHash && settings == q.previousHash
  }

  function Propose(m: Memory, w: World, q: Proposal): State {
    m.state.(pending := Pending(w.past.nextId, Proposed, q.network, NetworkOf(m.state),
                                q.previousHash, q.candidateHash, w.boot.now + CONFIRM_MS))
  }

  ghost function BeginNetwork(p: Profile, m: Memory, w: World, q: Proposal): Result {
    if Obstacle(m).Some? then Result(m, w, Threw(Obstacle(m).value))
    else if !ValidConfiguration(WithNetwork(m.state.configuration, q.network))
        || !ManagedHostname(p, m.state.configuration)
    then Result(m, w, Threw(InvalidArgument))
    else
      var r0 := Consult(m, w);
      if !r0.out.Ok? then r0
      else if !FreshProposal(q, w.live.settings) then r0.(out := Threw(InvalidArgument))
      else EnterTransaction(m.(state := Propose(m, r0.w, q)), Drawn(r0.w))
  }

  /** A transaction id has been drawn, and the time at which that happened noted. */
  function Drawn(w: World): World {
    w.(past := w.past.(nextId := w.past.nextId + 1,
                       begun := w.past.begun[w.past.nextId := Begun(w.boot.number, w.boot.now)]))
  }

  /** Journal first, then the network; a failed application is rolled back at once. */
  function EnterTransaction(m: Memory, w: World): Result {
    var r1 := Persist(m, w);
    if !r1.out.Ok? then r1 else
      var r2 := ApplyNetwork(r1.m, r1.w, m.state.pending.network);
      match r2.out
      case Ok => Tick(r2.m, r2.w)
      case Crashed => r2
      case Threw(_) =>
        var r3 := SettleNetwork(r2.m, r2.w, false);
        if r3.out.Ok? then r3.(out := r2.out) else r3
  }

  predicate Current(m: Memory, id: nat) {
    InFlight(m.state) && id == m.state.pending.id
  }

  function PrepareCommit(m: Memory, w: World, id: nat): Result {
    var r := Tick(m, w);
    if !r.out.Ok? then r
    else if !Current(r.m, id) then r.(out := Threw(InvalidArgument))
    else if r.m.state.pending.phase.Committing? then r
    else if r.w.live.settings != r.m.state.pending.previousHash then r.(out := Threw(InvalidArgument))
    else Persist(ToCommitting(r.m, r.w), r.w)
  }

  function ToCommitting(m: Memory, w: World): Memory {
    m.(state := m.state.(pending := m.state.pending.(phase := Committing, deadline := w.boot.now + COMMIT_MS)))
  }

  function FinishNetwork(m: Memory, w: World, id: nat, commit: bool): Result {
    var s := m.state;
    if id == s.pending.id && s.pending.phase == (if commit then Committed else RolledBack) then Result(m, w, Ok)
    else if !Current(m, id) then Result(m, w, Threw(InvalidArgument))
    else if commit && !Verdict(s, w.live.settings) then Result(m, w, Threw(InvalidArgument))
    else if !commit && Verdict(s, w.live.settings) then Result(m, w, Threw(Busy))
    else SettleNetwork(m, w, commit)
  }

  function Taking(m: Memory, w: World, action: Action): State {
    m.state.(job := Job(w.past.nextId, action, Accepted), resetIntent := m.state.resetIntent || action.DeviceReset?)
  }

  /** A job id has been drawn, for this action. */
  function Counted(w: World, action: Action): World {
    w.(past := w.past.(nextId := w.past.nextId + 1, jobs := w.past.jobs[w.past.nextId := action]))
  }

  /** Journal the accepted job, then arm its deadline. */
  function AcceptJob(m: Memory, w: World, action: Action): Result {
    var r := Persist(m.(state := Taking(m, w, action)), Counted(w, action));
    if r.out.Ok? then r.(m := r.m.(jobDeadline := w.boot.now + POWER_MS)) else r
  }

  function Power(m: Memory, w: World, shutdown: bool): Result {
    if Obstacle(m).Some? then Result(m, w, Threw(Obstacle(m).value))
    else AcceptJob(m, w, if shutdown then Shutdown else Reboot)
  }

  function ResetDevice(p: Profile, m: Memory, w: World, confirmed: bool): Result {
    if !confirmed then Result(m, w, Threw(InvalidArgument))
    else if Obstacle(m).Some? then Result(m, w, Threw(Obstacle(m).value))
    else if p.storageStatus
        && !(w.boot.status.Some? && w.boot.status.value.statePersistent && w.boot.status.value.dataPersistent)
    then Result(m, w, Threw(Unavailable))
    else AcceptJob(m, w, DeviceReset)
  }
}
