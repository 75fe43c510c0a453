/**
 * What each request does on ordinary inputs: when it is accepted and how it is refused, that a job
 * fires when it is due and not before, and that a transaction is settled when its time is up.
 */
module Acceptance {
  import opened Configuration
  import opened Validation
  import opened Faults
  import opened Journal
  import opened Manager
  import opened Device
  import opened Invariant
  import opened Runs
  import opened Outcomes
  import opened Recovery

  // ---------------------------------------------------------------------------------------------
  // Conditions, spelled out
  // ---------------------------------------------------------------------------------------------

  /** No failed write, no transaction, no accepted job, no reset. */
  predicate Unoccupied(m: Memory) {
    && !m.storageFailed && !m.state.resetIntent && m.state.job.state != Accepted
    && m.state.pending.phase != Proposed && m.state.pending.phase != Committing
  }

  /** How a request is turned away that finds the manager otherwise. */
  function Occupied(m: Memory): Outcome {
    Threw(if m.storageFailed then Unavailable else Busy)
  }

  /** The printed form of a SHA-256 digest. */
  predicate Digest(s: string) {
    |s| == 64 && forall i :: 0 <= i < |s| ==> s[i] in "0123456789abcdef"
  }

  /** The managed host name is kept, where there is one. */
  predicate KeepsName(p: Profile, name: string) {
    p.bootPreferences.None? || p.bootPreferences.value.managedHostname == name
  }

  lemma DigestExactly(s: string)
    ensures SettingsHash(s) <==> Digest(s)
  {
    forall c: char
      ensures c in "0123456789abcdef" <==> '0' <= c <= '9' || 'a' <= c <= 'f'
    {
      DigitOfSixteen(c);
    }
  }

  lemma DigitOfSixteen(c: char)
    ensures c in "0123456789abcdef" <==> '0' <= c <= '9' || 'a' <= c <= 'f'
  {
    var s := "0123456789abcdef";
    assert s[0] == '0' && s[1] == '1' && s[2] == '2' && s[3] == '3' && s[4] == '4' && s[5] == '5' && s[6] == '6';
    assert s[7] == '7' && s[8] == '8' && s[9] == '9' && s[10] == 'a' && s[11] == 'b' && s[12] == 'c';
    assert s[13] == 'd' && s[14] == 'e' && s[15] == 'f';
    if '0' <= c <= '9' { assert s[c as int - '0' as int] == c; }
    if 'a' <= c <= 'f' { assert s[c as int - 'a' as int + 10] == c; }
  }

  // ---------------------------------------------------------------------------------------------
  // beginNetwork
  // ---------------------------------------------------------------------------------------------

  ghost predicate Proposable(p: Profile, m: Memory, settings: string, q: Proposal) {
    && Unoccupied(m)
    && ValidConfiguration(m.state.configuration.(system := m.state.configuration.system.(network := q.network)))
    && KeepsName(p, m.state.configuration.system.hostname)
    && settings == q.previousHash && q.previousHash != q.candidateHash
    && Digest(q.previousHash) && Digest(q.candidateHash)
  }

  /** Whatever fails: a proposal that is accepted was made for the settings on disk. */
  lemma BeginNeeds(p: Profile, m: Memory, w: World, q: Proposal)
    ensures BeginNetwork(p, m, w, q).out.Ok? ==> Proposable(p, m, w.live.settings, q)
    ensures !Unoccupied(m) ==> BeginNetwork(p, m, w, q) == Result(m, w, Occupied(m))
  {
    DigestExactly(q.previousHash);
    DigestExactly(q.candidateHash);
    ConsultFacts(m, w);
  }

  /** Without faults those are accepted, and the others refused with nothing changed. */
  lemma BeginAccepts(p: Profile, m: Memory, w: World, q: Proposal)
    requires WorldOk(w) && MemoryOk(m, w) && w.fates == []
    ensures var r := BeginNetwork(p, m, w, q);
            && (r.out.Ok? <==> Proposable(p, m, w.live.settings, q))
            && (Unoccupied(m) && !r.out.Ok? ==> r == Result(m, w, Threw(InvalidArgument)))
  {
    BeginNeeds(p, m, w, q);
    if Unoccupied(m) {
      EnterReturns(m.(state := Propose(m, w, q)), Drawn(w));
      DigestExactly(q.previousHash);
      DigestExactly(q.candidateHash);
    }
  }

  /** A network that cannot be applied is rolled back at once: durably, with the previous one in force. */
  lemma BeginFaultIsUndone(p: Profile, m: Memory, w: World, q: Proposal, at: Point)
    requires WorldOk(w) && MemoryOk(m, w) && Proposable(p, m, w.live.settings, q)
    requires w.fates == [Done, Done, Throw(at)]
    ensures var r := BeginNetwork(p, m, w, q);
            && r.out == Threw(ApplyFailed) && r.m.state.pending.phase.RolledBack? && Durable(r.m, r.w)
            && r.m.state.configuration == m.state.configuration && r.w.platform.network == In(NetworkOf(m.state))
  {
    BeginEnters(p, m, w, q);
    var v := Consult(m, w).w;
    assert v == w.(fates := [Done, Throw(at)]);
    EnterUndone(m.(state := Propose(m, v, q)), Drawn(v), at);
  }

  /** Past its checks, `beginNetwork` is the transaction that it enters. */
  lemma BeginEnters(p: Profile, m: Memory, w: World, q: Proposal)
    requires Proposable(p, m, w.live.settings, q) && Consult(m, w).out.Ok?
    ensures var v := Consult(m, w).w;
            BeginNetwork(p, m, w, q) == EnterTransaction(m.(state := Propose(m, v, q)), Drawn(v))
  {
    DigestExactly(q.previousHash);
    DigestExactly(q.candidateHash);
  }

  lemma EnterUndone(m: Memory, w: World, at: Point)
    requires !m.storageFailed && InFlight(m.state) && w.fates == [Done, Throw(at)]
    ensures var r := EnterTransaction(m, w);
            && r.out == Threw(ApplyFailed) && r.m.state == Settled(m.state, false) && Durable(r.m, r.w)
            && r.w.platform.network == In(m.state.pending.previous)
  {
    var r1 := Persist(m, w);
    assert r1.w.fates == [Throw(at)];
    var r2 := ApplyNetwork(r1.m, r1.w, m.state.pending.network);
    assert r2.w.fates == [] && r2.m == m;
    SettleWithoutFaults(r2.m, r2.w, false);
    SettlePromises(r2.m, r2.w, false);
  }

  lemma EnterReturns(m: Memory, w: World)
    requires w.fates == [] && !m.storageFailed && m.jobDeadline == 0 && m.state.pending.deadline > w.boot.now
    ensures EnterTransaction(m, w).out.Ok?
  {
  }

  // ---------------------------------------------------------------------------------------------
  // apply
  // ---------------------------------------------------------------------------------------------

  ghost predicate Applicable(p: Profile, m: Memory, c: Configuration) {
    && Unoccupied(m) && ValidConfiguration(c) && KeepsName(p, c.system.hostname)
    && c.system.network == m.state.configuration.system.network
  }

  lemma ApplyNeeds(p: Profile, m: Memory, w: World, c: Configuration)
    requires MemoryOk(m, w)
    ensures Apply(p, m, w, c).out.Ok? ==> Applicable(p, m, c)
    ensures !Unoccupied(m) ==> Apply(p, m, w, c) == Result(m, w, Occupied(m))
  {
    ConsultFacts(m, w);
    var v := Consult(m, w).w;
    if Unoccupied(m) {
      var r := InstallPreferences(m, v, c);
      if r.out.Threw? { RollBackRewrites(r.m, r.w, m.state.configuration, r.out); }
    }
  }

  lemma ApplyAccepts(p: Profile, m: Memory, w: World, c: Configuration)
    requires WorldOk(w) && MemoryOk(m, w) && w.fates == []
    ensures var r := Apply(p, m, w, c);
            && (r.out.Ok? <==> Applicable(p, m, c))
            && (r.out.Ok? ==> Everywhere(r.m, r.w, c))
            && (Unoccupied(m) && !r.out.Ok? ==> r == Result(m, w, Threw(InvalidArgument)))
  {
    ApplyNeeds(p, m, w, c);
    ApplyAllOrNothing(p, m, w, c);
    if Applicable(p, m, c) { InstallReturns(m, w, c); }
  }

  lemma InstallReturns(m: Memory, w: World, c: Configuration)
    requires w.fates == [] && !m.storageFailed
    ensures InstallPreferences(m, w, c).out.Ok?
  {
  }

  /** One fault before the journal write, at the preferences or at the SSH policy, is undone completely. */
  lemma OneFaultIsUndone(p: Profile, m: Memory, w: World, c: Configuration, at: Point)
    requires WorldOk(w) && MemoryOk(m, w) && Applicable(p, m, c)
    requires w.fates == [Done, Throw(at)] || w.fates == [Done, Done, Throw(at)]
    ensures var r := Apply(p, m, w, c);
            r.out == Threw(ApplyFailed) && Everywhere(r.m, r.w, m.state.configuration) && !r.m.storageFailed
  {
    ConsultFacts(m, w);
    UndoneAfterFault(m, Consult(m, w).w, c, at);
  }

  lemma UndoneAfterFault(m: Memory, w: World, c: Configuration, at: Point)
    requires !m.storageFailed && (w.fates == [Throw(at)] || w.fates == [Done, Throw(at)])
    ensures var r := InstallPreferences(m, w, c);
            var t := RollBackPreferences(r.m, r.w, m.state.configuration, r.out);
            && r.out.Threw? && t.out == Threw(ApplyFailed)
            && Everywhere(t.m, t.w, m.state.configuration) && !t.m.storageFailed
  {
    var r := InstallPreferences(m, w, c);
    FaultInInstall(m, w, c, at);
    RollBackReturns(r.m, r.w, m.state.configuration, r.out);
    RollBackRewrites(r.m, r.w, m.state.configuration, r.out);
  }

  /** A second fault, at any of the three steps that undo the first, is reported as needing recovery. */
  lemma SecondFaultNeedsRecovery(p: Profile, m: Memory, w: World, c: Configuration, first: Point, second: Point)
    requires WorldOk(w) && MemoryOk(m, w) && Applicable(p, m, c)
    requires w.fates == [Done, Throw(first)] + Undoing(0, second)
             || w.fates == [Done, Throw(first)] + Undoing(1, second)
             || w.fates == [Done, Throw(first)] + Undoing(2, second)
    ensures Apply(p, m, w, c).out == Threw(NeedsRecovery)
  {
    ConsultFacts(m, w);
    var v := Consult(m, w).w;
    assert v.fates == [Throw(first)] + w.fates[2..];
    var r := InstallPreferences(m, v, c);
    assert r.out == Threw(ApplyFailed) && r.m == m && r.w.fates == w.fates[2..];
    FaultInUndoing(m, r.w, m.state.configuration, r.out, second);
  }

  /** So many steps succeed, and the next one throws. */
  function Undoing(n: nat, at: Point): seq<Fate> {
    if n == 0 then [Throw(at)] else [Done] + Undoing(n - 1, at)
  }

  lemma FaultInUndoing(m: Memory, w: World, previous: Configuration, cause: Outcome, at: Point)
    requires !m.storageFailed
    requires w.fates == Undoing(0, at) || w.fates == Undoing(1, at) || w.fates == Undoing(2, at)
    ensures RollBackPreferences(m, w, previous, cause).out == Threw(NeedsRecovery)
  {
    assert Undoing(1, at) == [Done, Throw(at)] && Undoing(2, at) == [Done, Done, Throw(at)];
    var m1 := m.(state := m.state.(configuration := previous));
    var r1 := ApplyPreferences(m1, w, previous);
    if r1.out.Ok? {
      var r2 := ApplySsh(r1.m, r1.w, previous.system.sshEnabled);
      assert r1.w.fates == [Throw(at)] || r1.w.fates == [Done, Throw(at)];
      if r2.out.Ok? { assert r2.w.fates == [Throw(at)]; }
    }
  }

  lemma FaultInInstall(m: Memory, w: World, c: Configuration, at: Point)
    requires w.fates == [Throw(at)] || w.fates == [Done, Throw(at)]
    ensures var r := InstallPreferences(m, w, c); r.out == Threw(ApplyFailed) && r.m == m && r.w.fates == []
  {
    var r := ApplyPreferences(m, w, c);
    if w.fates == [Done, Throw(at)] { assert r.w.fates == [Throw(at)]; }
  }

  lemma RollBackReturns(m: Memory, w: World, previous: Configuration, cause: Outcome)
    requires w.fates == [] && !m.storageFailed && cause.Threw?
    ensures RollBackPreferences(m, w, previous, cause).out == cause
  {
  }

  // ---------------------------------------------------------------------------------------------
  // prepareNetworkCommit and finishNetwork
  // ---------------------------------------------------------------------------------------------

  predicate Confirmable(m: Memory, w: World, id: nat) {
    && !m.storageFailed && m.state.pending.id == id && w.boot.now < m.state.pending.deadline
    && (m.state.pending.phase == Committing
        || (m.state.pending.phase == Proposed && w.live.settings == m.state.pending.previousHash))
  }

  lemma PrepareAccepts(m: Memory, w: World, id: nat)
    requires WorldOk(w) && MemoryOk(m, w) && w.fates == []
    ensures PrepareCommit(m, w, id).out.Ok? <==> Confirmable(m, w, id)
    ensures PrepareCommit(m, w, id).out.Ok? || PrepareCommit(m, w, id).out ==
              Threw(if m.storageFailed then Unavailable else InvalidArgument)
  {
    if !m.storageFailed {
      if InFlight(m.state) {
        SettleWithoutFaults(m, w, Verdict(m.state, w.live.settings));
      } else if m.jobDeadline != 0 {
        DispatchReturns(m, w);
      }
    }
  }

  /** Settled that way already, or in flight and to be settled that way by the settings on disk. */
  predicate Finishable(m: Memory, w: World, id: nat, commit: bool) {
    && m.state.pending.id == id
    && (m.state.pending.phase == (if commit then Committed else RolledBack)
        || (&& !m.storageFailed && InFlight(m.state)
            && (commit <==> m.state.pending.phase == Committing && w.live.settings == m.state.pending.candidateHash)))
  }

  lemma FinishAccepts(m: Memory, w: World, id: nat, commit: bool)
    requires w.fates == []
    ensures var r := FinishNetwork(m, w, id, commit);
            && (r.out.Ok? <==> Finishable(m, w, id, commit))
            && (!r.out.Ok? && !m.storageFailed ==>
                  r == Result(m, w, Threw(if InFlight(m.state) && m.state.pending.id == id && !commit then Busy
                                          else InvalidArgument)))
  {
    SettleWithoutFaultsExactly(m, w, commit);
  }

  lemma SettleWithoutFaultsExactly(m: Memory, w: World, commit: bool)
    requires w.fates == []
    ensures SettleNetwork(m, w, commit).out.Ok? <==> !m.storageFailed
  {
  }

  // ---------------------------------------------------------------------------------------------
  // power and resetDevice
  // ---------------------------------------------------------------------------------------------

  lemma PowerAccepts(m: Memory, w: World, shutdown: bool)
    ensures var r := Power(m, w, shutdown);
            && (r.out.Ok? ==> Unoccupied(m)) && (!Unoccupied(m) ==> r == Result(m, w, Occupied(m)))
            && (w.fates == [] ==> (r.out.Ok? <==> Unoccupied(m)))
  {
  }

  /** The storage status of this boot, where the product has one, says that state and data are persistent. */
  predicate CanReset(p: Profile, w: World) {
    p.storageStatus ==> w.boot.status.Some? && w.boot.status.value.statePersistent && w.boot.status.value.dataPersistent
  }

  lemma ResetAccepts(p: Profile, m: Memory, w: World, confirmed: bool)
    ensures var r := ResetDevice(p, m, w, confirmed);
            && (r.out.Ok? ==> confirmed && Unoccupied(m) && CanReset(p, w))
            && (w.fates == [] ==> (r.out.Ok? <==> confirmed && Unoccupied(m) && CanReset(p, w)))
            && (!(confirmed && Unoccupied(m) && CanReset(p, w)) ==>
                  r == Result(m, w, if !confirmed then Threw(InvalidArgument)
                                    else if !Unoccupied(m) then Occupied(m) else Threw(Unavailable)))
  {
  }

  // ---------------------------------------------------------------------------------------------
  // tick
  // ---------------------------------------------------------------------------------------------

  lemma DispatchReturns(m: Memory, w: World)
    requires w.fates == [] && !m.storageFailed
    ensures DispatchJob(m, w).out.Ok?
  {
  }

  /** A job that is due. */
  predicate Due(m: Memory, w: World) {
    !m.storageFailed && m.jobDeadline != 0 && w.boot.now >= m.jobDeadline
  }

  /** Nothing is due: no job, and no transaction whose time is up. */
  predicate Waits(m: Memory, w: World) {
    && !m.storageFailed && (m.jobDeadline == 0 || w.boot.now < m.jobDeadline)
    && (InFlight(m.state) ==> w.boot.now < m.state.pending.deadline)
  }

  /** The job was made durable as dispatched and then carried out, by one power call. */
  predicate CarriedOut(m: Memory, w: World, r: Result) {
    && r.out.Ok? && r.m == m.(jobDeadline := 0, state := m.state.(job := m.state.job.(state := Dispatched)))
    && Durable(r.m, r.w)
    && r.w.past.powerCalls ==
       w.past.powerCalls + [PowerCall(m.state.job.id, m.state.job.action == Shutdown, Some(r.m.state))]
  }

  lemma TickFires(m: Memory, w: World)
    requires WorldOk(w) && MemoryOk(m, w) && Due(m, w) && w.fates == []
    ensures CarriedOut(m, w, Tick(m, w))
  {
    DispatchReturns(m, w);
    DispatchPromises(m, w);
    DispatchKeepsRest(m, w);
  }

  lemma DispatchKeepsRest(m: Memory, w: World)
    requires DispatchJob(m, w).out.Ok?
    ensures DispatchJob(m, w).m.storageFailed == m.storageFailed
  {
  }

  /** Whatever fails, a tick makes no power call before a job is due. */
  lemma TickWaits(m: Memory, w: World)
    requires !Due(m, w)
    ensures Tick(m, w).w.past == w.past
  {
    var r := RecoverNetwork(m, w);
    var commit := Verdict(m.state, w.live.settings);
    var next := if commit then m.state.pending.network else m.state.pending.previous;
    NetworkFacts(m, w, next);
    PersistFacts(m.(state := Settled(m.state, commit)), ApplyNetwork(m, w, next).w);
  }

  /** With nothing due, a tick changes nothing; a transaction whose time is up is settled by the settings. */
  lemma TickSettles(m: Memory, w: World)
    requires WorldOk(w) && MemoryOk(m, w) && !m.storageFailed && !Due(m, w)
    ensures !InFlight(m.state) || w.boot.now < m.state.pending.deadline ==> Tick(m, w) == Result(m, w, Ok)
    ensures w.fates == [] && InFlight(m.state) && w.boot.now >= m.state.pending.deadline ==>
              var r := Tick(m, w);
              var commit := m.state.pending.phase == Committing && w.live.settings == m.state.pending.candidateHash;
              && r.out.Ok? && Durable(r.m, r.w)
              && r.m.state.pending == m.state.pending.(phase := if commit then Committed else RolledBack)
              && NetworkOf(r.m.state) == (if commit then m.state.pending.network else m.state.pending.previous)
              && r.w.platform.network == In(NetworkOf(r.m.state))
  {
    if w.fates == [] && InFlight(m.state) {
      var commit := Verdict(m.state, w.live.settings);
      SettleWithoutFaults(m, w, commit);
      SettlePromises(m, w, commit);
    }
  }

  // ---------------------------------------------------------------------------------------------
  // A job from its acceptance to its call
  // ---------------------------------------------------------------------------------------------

  /** A job waits in the running daemon. */
  ghost predicate Waiting(s: Sys, m: Memory) {
    SysOk(s) && s.daemon == Some(m) && !m.storageFailed && m.jobDeadline != 0
  }

  /** While it waits, whatever is asked of the daemon changes nothing. */
  lemma RequestWaits(p: Profile, m: Memory, w: World, a: Device.Action)
    requires WorldOk(w) && MemoryOk(m, w) && !m.storageFailed && 0 < m.jobDeadline && w.boot.now < m.jobDeadline
    requires IsRequest(a)
    ensures Request(p, m, w, a).m == m && Request(p, m, w, a).w == w && !Request(p, m, w, a).out.Crashed?
  {
    assert !InFlight(m.state) && !Unoccupied(m);
    match a
    case TickCall => TickSettles(m, w);
    case ApplyCall(c) => ApplyNeeds(p, m, w, c);
    case BeginCall(q) => BeginNeeds(p, m, w, q);
    case PrepareCall(id) => TickSettles(m, w);
    case FinishCall(id, commit) =>
    case PowerCallRequest(shutdown) => PowerAccepts(m, w, shutdown);
    case ResetCall(confirmed) => ResetAccepts(p, m, w, confirmed);
  }

  function Elapsed(es: seq<Event>): nat {
    if es == [] then 0 else Elapsed(es[..|es| - 1]) + es[|es| - 1].elapsed
  }

  /** Events that leave the daemon running: no power cut, no kill. */
  predicate SameDaemon(es: seq<Event>) {
    forall i :: 0 <= i < |es| ==> !es[i].action.PowerCycle? && !es[i].action.KillDaemon?
  }

  lemma StepWaits(site: Site, s: Sys, m: Memory, e: Event)
    requires Waiting(s, m) && !e.action.PowerCycle? && !e.action.KillDaemon?
    requires s.w.boot.now + e.elapsed < m.jobDeadline
    ensures var t := Step(site, s, e);
            Waiting(t, m) && t.w.past == s.w.past && t.w.boot.now == s.w.boot.now + e.elapsed
  {
    StepKeeps(site, s, e);
    PassedKeeps(s, e);
    if IsRequest(e.action) { RequestWaits(site.profile, m, Passed(s.w, e), e.action); }
  }

  lemma {:induction false} RunWaits(site: Site, s: Sys, m: Memory, es: seq<Event>)
    requires Waiting(s, m) && SameDaemon(es) && s.w.boot.now + Elapsed(es) < m.jobDeadline
    ensures var t := Run(site, s, es);
            Waiting(t, m) && t.w.past == s.w.past && t.w.boot.now == s.w.boot.now + Elapsed(es)
  {
    if es != [] {
      RunWaits(site, s, m, es[..|es| - 1]);
      StepWaits(site, Run(site, s, es[..|es| - 1]), m, es[|es| - 1]);
    }
  }

  lemma StepFires(site: Site, s: Sys, m: Memory, e: Event)
    requires Waiting(s, m) && e.action.TickCall? && e.fates == [] && s.w.boot.now + e.elapsed >= m.jobDeadline
    ensures CarriedOut(m, s.w, Result(Tick(m, Passed(s.w, e)).m, Step(site, s, e).w, Ok))
    ensures Step(site, s, e).daemon == Some(Tick(m, Passed(s.w, e)).m)
  {
    PassedKeeps(s, e);
    TickFires(m, Passed(s.w, e));
  }

  /** A power or reset request that the daemon accepts. */
  ghost predicate AcceptedJob(site: Site, s: Sys, e: Event) {
    && s.daemon.Some? && (e.action.PowerCallRequest? || e.action.ResetCall?)
    && Request(site.profile, s.daemon.value, Passed(s.w, e), e.action).out.Ok?
  }

  lemma AcceptedWaits(site: Site, s: Sys, e: Event)
    requires SysOk(s) && AcceptedJob(site, s, e)
    ensures var t := Step(site, s, e);
            && t.daemon.Some? && Waiting(t, t.daemon.value) && t.daemon.value.jobDeadline == t.w.boot.now + 5000
            && t.daemon.value.state.job.state.Accepted?
            && t.daemon.value.state.job.action == ActionOf(e.action)
  {
    StepKeeps(site, s, e);
    PassedKeeps(s, e);
    AcceptedMemory(site.profile, s.daemon.value, Passed(s.w, e), e.action);
  }

  function ActionOf(a: Device.Action): Journal.Action
    requires a.PowerCallRequest? || a.ResetCall?
  {
    if a.ResetCall? then DeviceReset else if a.shutdown then Shutdown else Reboot
  }

  lemma AcceptedMemory(p: Profile, m: Memory, w: World, a: Device.Action)
    requires WorldOk(w) && MemoryOk(m, w) && (a.PowerCallRequest? || a.ResetCall?) && Request(p, m, w, a).out.Ok?
    ensures var r := Request(p, m, w, a);
            Taken(m, w, ActionOf(a), r) && r.w.boot == w.boot && !r.m.storageFailed
  {
    if a.ResetCall? { ResetAccepts(p, m, w, a.confirmed); } else { PowerAccepts(m, w, a.shutdown); }
    AcceptPromises(m, w, ActionOf(a));
    TakenStaysBooted(m, w, ActionOf(a));
  }

  lemma TakenStaysBooted(m: Memory, w: World, action: Journal.Action)
    ensures var r := AcceptJob(m, w, action);
            r.w.boot == w.boot && (r.out.Ok? ==> r.m.storageFailed == m.storageFailed && !m.storageFailed)
  {
    PersistFacts(m.(state := Taking(m, w, action)), Counted(w, action));
  }

  /**
   * In every run: a reboot, shutdown or reset that the daemon accepts makes no power call for five
   * seconds, whatever else is asked of it, and the first tick without faults after that carries it
   * out, durably dispatched, with exactly one call.
   */
  lemma JobFiresInTime(site: Site, s: Sys, es: seq<Event>, request: Event, between: seq<Event>, tick: Event)
    requires Fresh(s) && SameDaemon(between) && tick.action.TickCall? && tick.fates == []
    requires Elapsed(between) < 5000 <= Elapsed(between) + tick.elapsed
    ensures var t := Run(site, s, es);
            AcceptedJob(site, t, request) ==>
              var accepted := Step(site, t, request);
              var waiting := Run(site, accepted, between);
              var fired := Step(site, waiting, tick);
              && accepted.w.past.powerCalls == t.w.past.powerCalls == waiting.w.past.powerCalls
              && waiting.daemon == accepted.daemon && accepted.daemon.Some? && fired.daemon.Some?
              && accepted.daemon.value.state.job.action == ActionOf(request.action)
              && CarriedOut(accepted.daemon.value, waiting.w, Result(fired.daemon.value, fired.w, Ok))
  {
    RunKeeps(site, s, es);
    var t := Run(site, s, es);
    if AcceptedJob(site, t, request) {
      AcceptedWaits(site, t, request);
      AcceptedIsQuiet(site, t, request);
      var accepted := Step(site, t, request);
      RunWaits(site, accepted, accepted.daemon.value, between);
      StepFires(site, Run(site, accepted, between), accepted.daemon.value, tick);
    }
  }

  lemma AcceptedIsQuiet(site: Site, s: Sys, e: Event)
    requires AcceptedJob(site, s, e)
    ensures Step(site, s, e).w.past.powerCalls == s.w.past.powerCalls
  {
    var m, w := s.daemon.value, Passed(s.w, e);
    var action := if e.action.ResetCall? then DeviceReset else if e.action.shutdown then Shutdown else Reboot;
    PersistFacts(m.(state := Taking(m, w, action)), Counted(w, action));
  }
}
