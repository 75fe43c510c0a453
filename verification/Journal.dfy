/** The durable record of the system manager, and the world its processes act on. */
module Journal {
  import opened Configuration
  import opened Faults
  import Storage

  type Path = seq<string>

  // ---------------------------------------------------------------------------------------------
  // state.json
  // ---------------------------------------------------------------------------------------------

  datatype Phase = Idle | Proposed | Committing | Committed | RolledBack

  /** A network transaction; ids are drawn fresh, 0 is the empty id. */
  datatype Pending = Pending(
    id: nat,
    phase: Phase,
    network: Network,
    previous: Network,
    previousHash: string,
    candidateHash: string,
    deadline: nat)

  const NO_PENDING := Pending(0, Idle, [], [], "", "", 0)

  datatype Action = Reboot | Shutdown | DeviceReset

  datatype JobState = NoJob | Accepted | Dispatched | Failed | Interrupted | Completed

  datatype Job = Job(id: nat, action: Action, state: JobState)

  datatype State = State(
    configuration: Configuration,
    initialized: bool,
    pending: Pending,
    job: Job,
    resetIntent: bool)

  /** A transaction that still has to be settled. */
  predicate InFlight(s: State) {
    s.pending.phase.Proposed? || s.pending.phase.Committing?
  }

  predicate Intends(journal: Option<State>) {
    journal.Some? && journal.value.resetIntent
  }

  function NetworkOf(s: State): Network { s.configuration.system.network }

  function WithNetwork(c: Configuration, n: Network): Configuration {
    c.(system := c.system.(network := n))
  }

  // ---------------------------------------------------------------------------------------------
  // Product policy
  // ---------------------------------------------------------------------------------------------

  datatype BootPreferences = BootPreferences(initial: Configuration, managedHostname: string)

  /**
   * A path that a reset deletes. Spelled with a trailing separator it can only name a directory, so
   * it deletes what lies below it but not a file of that name.
   */
  datatype ResetPath = ResetPath(parts: Path, slash: bool)

  predicate Covers(r: ResetPath, file: Path) {
    r.parts <= file && (r.slash ==> r.parts != file)
  }

  /** Paths are absolute, as component lists. */
  datatype Profile = Profile(
    defaults: Configuration,
    bootPreferences: Option<BootPreferences>,
    storageStatus: bool,
    resetPaths: seq<ResetPath>,
    journal: Path,
    settings: Path)

  // ---------------------------------------------------------------------------------------------
  // The world
  // ---------------------------------------------------------------------------------------------

  /** Something the platform was told to put in force; a call cut short leaves a mixture. */
  datatype InForce<T> = In(value: T) | Mixed

  function Mix<T(==)>(now: InForce<T>, wanted: T): InForce<T> {
    if now == In(wanted) then now else Mixed
  }

  /**
   * The files on the state filesystem: the journal as a reader finds it, the hash of active.json ("" if
   * missing), and the journals that a power cut may still bring back because the directory was not
   * synced after they were replaced.
   */
  datatype Disk = Disk(journal: Option<State>, settings: string, shadows: set<Option<State>>)

  /** What a reader may find after a power cut. */
  function Possible(d: Disk): set<Option<State>> { d.shadows + {d.journal} }

  /** A call of `Platform::power`, with the journal as it was on disk at that moment. */
  datatype PowerCall = PowerCall(id: nat, shutdown: bool, durable: Option<State>)

  datatype Begun = Begun(boot: nat, time: nat)

  /** What the platform was told to put in force, in this boot. */
  datatype Platform = Platform(
    network: InForce<Network>,
    preferences: InForce<Configuration>,
    ssh: InForce<bool>,
    clock: InForce<TimePreferences>,
    hostname: InForce<string>)

  /**
   * Facts of the current boot: its clock, the status file and the deeds of storage preparation,
   * the reset paths removed so far, and whether bootstrap has returned normally.
   */
  datatype ThisBoot = ThisBoot(
    number: nat,
    now: nat,
    status: Option<Storage.Status>,
    formatted: bool,
    cleared: bool,
    removed: set<ResetPath>,
    recovered: bool)

  /** The calls, transactions and jobs so far, and the next id to be drawn. */
  datatype History = History(powerCalls: seq<PowerCall>, begun: map<nat, Begun>, jobs: map<nat, Action>, nextId: nat)

  /**
   * `live` is the filesystem this boot runs on. When the state partition could not be mounted that
   * is a tmpfs, and `parked` is what the partition holds.
   */
  datatype World = World(
    live: Disk,
    parked: Option<Disk>,
    platform: Platform,
    boot: ThisBoot,
    past: History,
    fates: seq<Fate>)

  /** The state partition, mounted or not. */
  function Partition(w: World): Disk {
    if w.parked.Some? then w.parked.value else w.live
  }

  datatype Error = InvalidArgument | Unavailable | Busy | Unsupported | ApplyFailed | NeedsRecovery

  /** How a call ends for its caller; after `Crashed` there is no caller any more. */
  datatype Outcome = Ok | Threw(error: Error) | Crashed

  /** What a process holds in memory. */
  datatype Memory = Memory(state: State, storageFailed: bool, jobDeadline: nat)

  datatype Result = Result(m: Memory, w: World, out: Outcome)
}
