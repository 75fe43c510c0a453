/**
 * When a factory reset can lose its own intent: the run that does so, for every product whose reset
 * paths cover the journal, and that there is none for any other.
 */
module LostIntent {
  import opened Configuration
  import opened Validation
  import opened Faults
  import opened Journal
  import opened Manager
  import opened Device
  import opened Invariant
  import opened Runs
  import opened FactoryReset
  import Storage

  /** A possible run of a fresh device whose last event leaves no journal where the intent was durable. */
  ghost predicate Loses(site: Site, s: Sys, es: seq<Event>) {
    && Fresh(s) && s.w.boot.status.None? && es != [] && PossibleRun(site, s, es)
    && DurablyIntends(Partition(Run(site, s, es[..|es| - 1]).w))
    && Partition(Run(site, s, es).w).journal.None?
  }

  ghost predicate CanLoseIntent(site: Site) {
    exists s, es :: Loses(site, s, es)
  }

  /** Storage preparation deletes nothing that the journal lies in. */
  ghost predicate TreesAreSafe(site: Site) {
    forall i :: 0 <= i < |Storage.ResetTrees(site.policy)| ==>
      !(STATE_ROOT + Storage.ResetTrees(site.policy)[i] <= site.profile.journal)
  }

  lemma LosesExactly(site: Site)
    requires TreesAreSafe(site)
    ensures CanLoseIntent(site) <==> !SafePaths(site.profile)
  {
    if SafePaths(site.profile) {
      forall s, es | Loses(site, s, es)
        ensures false
      {
        NeverLost(site, s, es);
      }
    } else {
      var s := NewDevice();
      LosingRun(site, s);
      assert Loses(site, s, LosingEvents(site, s));
    }
  }

  lemma NeverLost(site: Site, s: Sys, es: seq<Event>)
    requires TreesAreSafe(site) && SafePaths(site.profile)
    requires Fresh(s) && s.w.boot.status.None? && es != [] && PossibleRun(site, s, es)
    ensures !Loses(site, s, es)
  {
    var before, e := es[..|es| - 1], es[|es| - 1];
    RunEarns(site, s, before);
    var t := Run(site, s, before);
    PassedKeeps(t, e);
    ActReset(site, t.(w := Passed(t.w, e)), e.action);
    if DurablyIntends(Partition(t.w)) { StillThere(site.profile, Passed(t.w, e), Run(site, s, es).w, e.action); }
  }

  lemma StillThere(p: Profile, w: World, v: World, a: Device.Action)
    requires DurablyIntends(Partition(w)) && IntentAfter(p, w, v, a)
    ensures Partition(v).journal.Some?
  {
    assert Partition(w).journal in Possible(Partition(w));
    assert Partition(v).journal in Possible(Partition(v));
  }

  // ---------------------------------------------------------------------------------------------
  // Two boots
  // ---------------------------------------------------------------------------------------------

  const DEVICES: map<Storage.Role, string> :=
    map[Storage.Factory := "factory", Storage.StateRole := "state", Storage.DataRole := "data"]

  /** The data device as the second look finds it. */
  const DATA := Storage.Node("data", "part", "ext4", "DATA", "disk", false, [])

  function BootWith(intent: bool): Storage.Boot {
    Storage.Boot(false, [], [DATA], false, {}, {}, intent, true, [])
  }

  /** Factory and state mounted. */
  function Persistent(): seq<Storage.Effect> {
    [Storage.Mount(Storage.Factory, "factory", true)] + [Storage.Mount(Storage.StateRole, "state", true)]
  }

  lemma PersistentIsLawful(policy: Storage.Policy, b: Storage.Boot)
    requires b.busy == {}
    ensures var e := Persistent();
            && Storage.LawfulTrace(policy, DEVICES, b, e) && Storage.AllDone(e) && !Storage.Formatted(e)
            && Storage.Mounted(e, Storage.Factory) && Storage.Mounted(e, Storage.StateRole)
            && !Storage.Mounted(e, Storage.DataRole)
  {
    var e := Storage.Mount(Storage.Factory, "factory", true);
    Appended(policy, b, [], e);
    assert [] + [e] == [e];
    Appended(policy, b, [e], Storage.Mount(Storage.StateRole, "state", true));
  }

  /** All roles mounted, nothing else to do. */
  function PlainEffects(): seq<Storage.Effect> {
    Persistent()
    + [Storage.Mount(Storage.DataRole, "data", true)]
    + [Storage.Publish(Storage.Status(true, true, false), true)]
  }

  lemma PlainIsLawful(policy: Storage.Policy)
    ensures Storage.LawfulTrace(policy, DEVICES, BootWith(false), PlainEffects())
    ensures Storage.Mounted(PlainEffects(), Storage.StateRole)
  {
    var b := BootWith(false);
    PersistentIsLawful(policy, b);
    var e1, e2 := Persistent(), Storage.Mount(Storage.DataRole, "data", true);
    Appended(policy, b, e1, e2);
    Appended(policy, b, e1 + [e2], Storage.Publish(Storage.Status(true, true, false), true));
  }

  /** One more command, and what is mounted, formatted and done with it. */
  lemma Appended(policy: Storage.Policy, b: Storage.Boot, effects: seq<Storage.Effect>, e: Storage.Effect)
    requires Storage.LawfulTrace(policy, DEVICES, b, effects) && Storage.Lawful(policy, DEVICES, b, effects, e)
    ensures Storage.LawfulTrace(policy, DEVICES, b, effects + [e])
    ensures forall r :: Storage.Mounted(effects + [e], r) <==>
                          Storage.Mounted(effects, r) || (e.Mount? && e.role == r && e.done)
    ensures Storage.Formatted(effects + [e]) <==> Storage.Formatted(effects) || (e.Mkfs? && e.done)
    ensures Storage.AllDone(effects + [e]) <==> Storage.AllDone(effects) && e.done
  {
    Storage.LawfulAppend(policy, DEVICES, b, effects, e);
    Storage.MountedAppend(effects, e, Storage.DataRole);
    forall r
      ensures Storage.Mounted(effects + [e], r) <==> Storage.Mounted(effects, r) || (e.Mount? && e.role == r && e.done)
    {
      Storage.MountedAppend(effects, e, r);
    }
  }

  /** State mounted, data formatted and mounted. */
  function Formatting(): seq<Storage.Effect> {
    Persistent()
    + [Storage.Mkfs("data", true)]
    + [Storage.Mount(Storage.DataRole, "data", true)]
  }

  lemma FormattingIsLawful(policy: Storage.Policy)
    ensures Storage.LawfulTrace(policy, DEVICES, BootWith(true), Formatting()) && Storage.AllDone(Formatting())
    ensures Storage.Formatted(Formatting())
    ensures Storage.AllPlaced(Formatting())
    ensures Storage.Mounted(Formatting(), Storage.StateRole) && Storage.Mounted(Formatting(), Storage.DataRole)
  {
    var b := BootWith(true);
    PersistentIsLawful(policy, b);
    var e1, e2 := Persistent(), Storage.Mkfs("data", true);
    DataAtRest();
    Appended(policy, b, e1, e2);
    Appended(policy, b, e1 + [e2], Storage.Mount(Storage.DataRole, "data", true));
  }

  lemma DataAtRest()
    ensures Storage.AtRest(Storage.Forest([DATA]), "data")
  {
    assert Storage.Forest([]) == [] && [DATA][1..] == [];
    assert Storage.Forest([DATA]) == [DATA];
  }

  /** And the first n reset trees cleared. */
  function Clearing(policy: Storage.Policy, n: nat): seq<Storage.Effect>
    requires n <= |Storage.ResetTrees(policy)|
  {
    if n == 0 then Formatting()
    else Clearing(policy, n - 1) + [Storage.Clear(Storage.ResetTrees(policy)[n - 1], true)]
  }

  lemma {:induction false} ClearingIsLawful(policy: Storage.Policy, n: nat)
    requires n <= |Storage.ResetTrees(policy)|
    ensures var e := Clearing(policy, n);
            && Storage.LawfulTrace(policy, DEVICES, BootWith(true), e) && Storage.AllDone(e) && Storage.Formatted(e)
            && Storage.Mounted(e, Storage.StateRole) && Storage.Mounted(e, Storage.DataRole)
            && Storage.ClearedUpTo(policy, n, e) && Storage.AllPlaced(e)
  {
    if n == 0 {
      FormattingIsLawful(policy);
    } else {
      ClearingIsLawful(policy, n - 1);
      var e := Clearing(policy, n - 1);
      Appended(policy, BootWith(true), e, Storage.Clear(Storage.ResetTrees(policy)[n - 1], true));
      Storage.AllPlacedGrows(e, Clearing(policy, n));
      Storage.ClearedOneMore(policy, n - 1, e, Clearing(policy, n));
    }
  }

  /** The whole preparation of a reset. */
  function ResetEffects(policy: Storage.Policy): seq<Storage.Effect> {
    Clearing(policy, |Storage.ResetTrees(policy)|) + [Storage.Publish(Storage.Status(true, true, true), true)]
  }

  lemma ResetIsLawful(policy: Storage.Policy)
    ensures Storage.LawfulTrace(policy, DEVICES, BootWith(true), ResetEffects(policy))
    ensures Storage.Mounted(ResetEffects(policy), Storage.StateRole)
  {
    ClearingIsLawful(policy, |Storage.ResetTrees(policy)|);
    var e := Clearing(policy, |Storage.ResetTrees(policy)|);
    Appended(policy, BootWith(true), e, Storage.Publish(Storage.Status(true, true, true), true));
  }

  // ---------------------------------------------------------------------------------------------
  // The run
  // ---------------------------------------------------------------------------------------------

  function NewDevice(): Sys {
    Sys(None, World(Disk(None, "", {}), None, Platform(Mixed, Mixed, Mixed, Mixed, Mixed),
                    ThisBoot(0, 0, None, false, false, {}, false), History([], map[], map[], 1), []))
  }

  function FactorySettings(): Configuration {
    Configuration(Preferences("a", false, []), TimePreferences("local", "A", "", []))
  }

  lemma FactorySettingsAreValid()
    ensures ValidConfiguration(FactorySettings())
  {
  }

  function FirstPower(): Event {
    Event(PowerCycle(BootReport(BootWith(false), DEVICES, PlainEffects(), Choice(None, {}, false)), []), 0, [])
  }

  /** The device boots, the daemon starts, and a reset is accepted. */
  function Requesting(): seq<Event> {
    [FirstPower()] + [Event(StartDaemon(FactorySettings()), 0, [])] + [Event(ResetCall(true), 0, [])]
  }

  ghost function SecondPower(site: Site, s: Sys): Event {
    var found := Run(site, s, Requesting()).w.live.journal;
    Event(PowerCycle(BootReport(BootWith(true), DEVICES, ResetEffects(site.policy), Choice(found, {}, false)),
        []), 0, [])
  }

  /** The bootstrap is cut off after its last deletion, before the network is applied. */
  function CutOff(p: Profile): Event {
    var n := |p.resetPaths|;
    Event(RunBootstrap, 0, seq(n + 1, i requires 0 <= i => if i < n then Done else Crash(Before)))
  }

  ghost function LosingEvents(site: Site, s: Sys): seq<Event> {
    Requesting() + [SecondPower(site, s)] + [CutOff(site.profile)]
  }

  lemma RunAppend(site: Site, s: Sys, es: seq<Event>, e: Event)
    ensures Run(site, s, es + [e]) == Step(site, Run(site, s, es), e)
    ensures PossibleRun(site, s, es) ==> (PossibleRun(site, s, es + [e]) <==>
              (e.action.PowerCycle? ==> PossibleBoot(site, Passed(Run(site, s, es).w, e), e.action.report)))
  {
    assert (es + [e])[..|es|] == es;
  }

  /** After the first boot: an empty state partition, mounted, and a status that allows resets. */
  ghost predicate Booted(t: Sys) {
    && t.daemon.None? && t.w.live == Disk(None, "", {}) && t.w.parked.None? && t.w.platform.network == In([])
    && t.w.boot.status == Some(Storage.Status(true, true, false))
  }

  lemma BootsFirst(site: Site, s: Sys)
    requires Fresh(s)
    ensures PossibleBoot(site, Passed(s.w, FirstPower()), FirstPower().action.report)
    ensures Booted(Step(site, s, FirstPower()))
  {
    PlainIsLawful(site.policy);
    var r := FirstPower().action.report;
    assert forall i :: 0 <= i < |r.effects| ==> !r.effects[i].Clear?;
    assert r.effects[3] == Storage.Publish(Storage.Status(true, true, false), true);
  }

  /** The daemon runs, idle, on a configuration that it discovered. */
  ghost predicate Idling(t: Sys) {
    && t.daemon.Some? && Obstacle(t.daemon.value).None? && t.w.parked.None?
    && t.w.boot.status == Some(Storage.Status(true, true, false))
  }

  lemma StartsIdle(site: Site, t: Sys)
    requires Booted(t)
    ensures Idling(Step(site, t, Event(StartDaemon(FactorySettings()), 0, [])))
  {
    DiscoversSettings(Load(site.profile, None), Passed(t.w, Event(StartDaemon(FactorySettings()), 0, [])));
  }

  lemma DiscoversSettings(m: Memory, w: World)
    requires w.fates == [] && w.platform.network == In([]) && !m.storageFailed
    requires !m.state.initialized && !m.state.resetIntent && !InFlight(m.state) && m.state.job.state.NoJob?
    ensures var r := Start(m, w, FactorySettings());
            r.out.Ok? && Obstacle(r.m).None? && r.w.parked == w.parked && r.w.boot == w.boot
  {
    FactorySettingsAreValid();
    var c := FactorySettings();
    assert WithNetwork(c, []) == c;
    var r := Discover(m, w, c);
    assert r.out.Ok? && r.m == m.(state := m.state.(configuration := c, initialized := true));
  }

  /** The intent is on disk, and nothing else can be. */
  ghost predicate Intending(t: Sys) {
    t.w.parked.None? && Intends(t.w.live.journal) && t.w.live.shadows == {}
  }

  lemma AcceptsReset(site: Site, t: Sys)
    requires Idling(t)
    ensures Intending(Step(site, t, Event(ResetCall(true), 0, [])))
  {
  }

  lemma Requests(site: Site, s: Sys)
    requires Fresh(s)
    ensures PossibleRun(site, s, Requesting()) && Intending(Run(site, s, Requesting()))
  {
    var e1, e2, e3 := FirstPower(), Event(StartDaemon(FactorySettings()), 0, []), Event(ResetCall(true), 0, []);
    RunAppend(site, s, [], e1);
    assert [] + [e1] == [e1];
    BootsFirst(site, s);
    RunAppend(site, s, [e1], e2);
    StartsIdle(site, Run(site, s, [e1]));
    RunAppend(site, s, [e1] + [e2], e3);
    AcceptsReset(site, Run(site, s, [e1] + [e2]));
  }

  /** What a report says that prepares a reset of the device as it is. */
  ghost predicate Preparing(site: Site, t: Sys, r: BootReport) {
    && r.boot == BootWith(true) && r.devices == DEVICES && r.effects == ResetEffects(site.policy)
    && r.choice.found == t.w.live.journal
  }

  lemma JournalIsNotReached(site: Site, r: BootReport)
    requires TreesAreSafe(site) && Storage.LawfulTrace(site.policy, r.devices, r.boot, r.effects)
    ensures !ClearsPath(r, site.profile.journal)
  {
    forall i | 0 <= i < |r.effects| && r.effects[i].Clear?
      ensures !(STATE_ROOT + r.effects[i].tree <= site.profile.journal)
    {
      assert Storage.Lawful(site.policy, r.devices, r.boot, r.effects[..i], r.effects[i]);
    }
  }

  lemma LastIsPublished(r: BootReport, past: seq<Storage.Effect>, status: Storage.Status)
    requires r.effects == past + [Storage.Publish(status, true)]
    ensures Published(r) == Some(status)
  {
    assert r.effects[|past|] == Storage.Publish(status, true);
  }

  /** The second boot prepares the reset and leaves the intent where it is. */
  lemma PreparesReset(site: Site, t: Sys, e: Event)
    requires TreesAreSafe(site) && Intending(t) && e.action.PowerCycle? && Preparing(site, t, e.action.report)
    ensures PossibleBoot(site, Passed(t.w, e), e.action.report)
    ensures var u := Step(site, t, e);
            && Intending(u) && u.daemon.None? && u.w.boot.status == Some(Storage.Status(true, true, true))
  {
    ResetIsLawful(site.policy);
    JournalIsNotReached(site, e.action.report);
    LastIsPublished(e.action.report, Clearing(site.policy, |Storage.ResetTrees(site.policy)|),
        Storage.Status(true, true, true));
  }

  lemma LosesIt(site: Site, u: Sys)
    requires !SafePaths(site.profile) && Intending(u) && u.daemon.None?
    requires u.w.boot.status == Some(Storage.Status(true, true, true))
    ensures Step(site, u, CutOff(site.profile)).w.live.journal.None?
              && Step(site, u, CutOff(site.profile)).w.parked.None?
  {
    CutOffLoses(site.profile, Passed(u.w, CutOff(site.profile)));
  }

  lemma CutOffLoses(p: Profile, w: World)
    requires !SafePaths(p) && Intends(w.live.journal) && w.fates == CutOff(p).fates && ResetPrepared(p, w)
    ensures var r := Bootstrap(p, Load(p, w.live.journal), w);
            r.out.Crashed? && r.w.live.journal.None? && r.w.parked == w.parked
  {
    var m := Load(p, w.live.journal);
    RemoveWithoutFaults(p, m, w, p.resetPaths);
    RemoveFacts(p, m, w, p.resetPaths);
    var r := RemovePaths(p, m, w, p.resetPaths);
    assert r.w.fates == [Crash(Before)];
    CrashesAtOnce(m.(state := ResetState(p, m.state)), r.w);
  }

  lemma CrashesAtOnce(m: Memory, w: World)
    requires w.fates == [Crash(Before)]
    ensures var r := ApplyBootPolicies(m, w); r.out.Crashed? && r.w.live == w.live && r.w.parked == w.parked
  {
  }

  /** Reset accepted, prepared by storage, and cut off in bootstrap: the intent is gone and nothing is reset. */
  lemma LosingRun(site: Site, s: Sys)
    requires Fresh(s) && s.w.boot.status.None? && TreesAreSafe(site) && !SafePaths(site.profile)
    ensures Loses(site, s, LosingEvents(site, s))
  {
    var e1, e2, e3 := Requesting(), SecondPower(site, s), CutOff(site.profile);
    Requests(site, s);
    RunAppend(site, s, e1, e2);
    PreparesReset(site, Run(site, s, e1), e2);
    RunAppend(site, s, e1 + [e2], e3);
    LosesIt(site, Run(site, s, e1 + [e2]));
    assert (e1 + [e2] + [e3])[..|e1| + 1] == e1 + [e2];
  }
}
