/** Dependency-ordered service start: the memoised depth-first walk of service_manager.cpp. */
module Services {
  import opened Configuration
  import opened Text

  datatype ManagedService = ManagedService(name: string, unit: string, after: seq<string>, autoStart: bool)

  /**
   * What the unit controller was asked: to inspect a service's unit, and to start it, with the services
   * handled until then. A start that the controller accepts is a submitted job; the unit may still be
   * activating, or fail, afterwards.
   */
  datatype Call =
    | Inspected(name: string, active: bool)
    | Started(name: string, handled: seq<string>, accepted: bool)

  /** How the controller answers the next call. */
  datatype Reply = Active | Inactive | Throws

  // ---------------------------------------------------------------------------------------------
  // Dependency graphs
  // ---------------------------------------------------------------------------------------------

  function Lookup(services: seq<ManagedService>, name: string): (r: Option<ManagedService>)
    ensures r.Some? ==> r.value in services && r.value.name == name
    ensures r.None? ==> forall i :: 0 <= i < |services| ==> services[i].name != name
  {
    if services == [] then None
    else if services[0].name == name then Some(services[0])
    else Lookup(services[1..], name)
  }

  /** The registered services by name, as `find` looks them up. */
  type Registry = map<string, ManagedService>

  ghost function RegistryOf(services: seq<ManagedService>): Registry {
    if services == [] then map[] else RegistryOf(services[1..])[services[0].name := services[0]]
  }

  lemma {:induction false} RegistryFinds(services: seq<ManagedService>, name: string)
    ensures name in RegistryOf(services) <==> Lookup(services, name).Some?
    ensures name in RegistryOf(services) ==> Lookup(services, name) == Some(RegistryOf(services)[name])
  {
    if services != [] { RegistryFinds(services[1..], name); }
  }

  /** Each name depends on the next. */
  ghost predicate Chain(g: Registry, path: seq<string>) {
    path != [] && path[0] in g && forall i :: 0 < i < |path| ==> Depends(g, path[i - 1], path[i])
  }

  ghost predicate Depends(g: Registry, name: string, dependency: string) {
    name in g && dependency in g && dependency in g[name].after
  }

  /** No service that this one leads to, itself included, leads back to itself. */
  ghost predicate Acyclic(g: Registry, name: string) {
    forall path :: Chain(g, path) && |path| >= 2 && Leads(g, name, path[0]) ==> path[0] != path[|path| - 1]
  }

  ghost predicate Leads(g: Registry, from: string, to: string) {
    exists path :: Chain(g, path) && path[0] == from && path[|path| - 1] == to
  }

  lemma LeadsSelf(g: Registry, name: string)
    requires name in g
    ensures Leads(g, name, name)
  {
    assert Chain(g, [name]);
  }

  lemma LeadsStep(g: Registry, name: string, dependency: string, to: string)
    requires name in g && dependency in g[name].after && Leads(g, dependency, to)
    ensures Leads(g, name, to)
  {
    var path :| Chain(g, path) && path[0] == dependency && path[|path| - 1] == to;
    Prepend(g, name, path);
  }

  lemma Prepend(g: Registry, name: string, path: seq<string>)
    requires Chain(g, path) && name in g && path[0] in g[name].after
    ensures Chain(g, [name] + path) && ([name] + path)[|path|] == path[|path| - 1]
  {
    var longer := [name] + path;
    assert forall i :: 0 < i < |longer| ==> longer[i] == path[i - 1];
  }

  /** A dependency of a dependency is never the service itself. */
  lemma NotBack(g: Registry, name: string, dependency: string)
    requires Acyclic(g, name) && name in g && dependency in g[name].after
    ensures !Leads(g, dependency, name)
  {
    if path :| Chain(g, path) && path[0] == dependency && path[|path| - 1] == name {
      Prepend(g, name, path);
      LeadsSelf(g, name);
    }
  }

  lemma LeadsTransitive(g: Registry, a: string, b: string, c: string)
    requires Leads(g, a, b) && Leads(g, b, c)
    ensures Leads(g, a, c)
  {
    var p :| Chain(g, p) && p[0] == a && p[|p| - 1] == b;
    var q :| Chain(g, q) && q[0] == b && q[|q| - 1] == c;
    var whole := p + q[1..];
    forall i | 0 < i < |whole|
      ensures Depends(g, whole[i - 1], whole[i])
    {
      if i < |p| {
        assert Depends(g, p[i - 1], p[i]);
      } else {
        assert whole[i] == q[i - |p| + 1] && whole[i - 1] == q[i - |p|];
      }
    }
    assert Chain(g, whole);
  }

  lemma AcyclicBelow(g: Registry, a: string, b: string)
    requires Acyclic(g, a) && Leads(g, a, b)
    ensures Acyclic(g, b)
  {
    forall path | Chain(g, path) && |path| >= 2 && Leads(g, b, path[0])
      ensures path[0] != path[|path| - 1]
    {
      LeadsTransitive(g, a, b, path[0]);
    }
  }

  /** The end of a chain is led to by its beginning, and so is everything on the way. */
  lemma LeadsAlong(g: Registry, path: seq<string>, i: nat)
    requires Chain(g, path) && i < |path|
    ensures Leads(g, path[0], path[i])
  {
    assert Chain(g, path[..i + 1]);
  }

  lemma ChainIsDistinct(g: Registry, path: seq<string>)
    requires Chain(g, path) && Acyclic(g, path[0])
    ensures forall i, j :: 0 <= i < j < |path| ==> path[i] != path[j]
  {
    forall i, j | 0 <= i < j < |path|
      ensures path[i] != path[j]
    {
      NoRepeat(g, path, i, j);
    }
  }

  lemma NoRepeat(g: Registry, path: seq<string>, i: nat, j: nat)
    requires Chain(g, path) && Acyclic(g, path[0]) && i < j < |path|
    ensures path[i] != path[j]
  {
    LeadsAlong(g, path, i);
    var part := path[i..j + 1];
    forall k | 0 < k < |part|
      ensures Depends(g, part[k - 1], part[k])
    {
      assert Depends(g, path[i + k - 1], path[i + k]);
    }
    assert i > 0 ==> Depends(g, path[i - 1], path[i]);
    assert Chain(g, part);
  }

  /** A chain of an acyclic graph repeats nothing, so it is no longer than the registry. */
  lemma ChainIsShort(g: Registry, path: seq<string>)
    requires Chain(g, path) && Acyclic(g, path[0])
    ensures |path| <= |g.Keys|
  {
    ChainIsDistinct(g, path);
    forall i | 0 <= i < |path|
      ensures path[i] in g
    {
      assert i > 0 ==> Depends(g, path[i - 1], path[i]);
    }
    DistinctFits(path, g.Keys);
  }

  lemma {:induction false} DistinctFits(path: seq<string>, names: set<string>)
    requires (forall i, j :: 0 <= i < j < |path| ==> path[i] != path[j]) && forall i :: 0 <= i < |path| ==>
             path[i] in names
    ensures |path| <= |names|
  {
    if path != [] {
      var last := path[|path| - 1];
      DistinctFits(path[..|path| - 1], names - {last});
    }
  }

  // ---------------------------------------------------------------------------------------------
  // What the walk keeps
  // ---------------------------------------------------------------------------------------------

  /** Handled once each, and only after everything they depend on. */
  ghost predicate Topological(g: Registry, started: seq<string>) {
    && Distinct(started)
    && (forall i :: 0 <= i < |started| ==> started[i] in g)
    && (forall i, d :: 0 <= i < |started| && d in g[started[i]].after ==> d in started[..i])
  }

  /** A topological order rules out cycles among what it lists, so acyclicity is no more than it takes. */
  lemma {:induction false} OrderExcludesCycles(g: Registry, started: seq<string>, path: seq<string>, at: nat)
    requires Topological(g, started) && Chain(g, path)
    requires at < |started| && started[at] == path[0]
    ensures path[|path| - 1] in started[..at + 1]
    ensures |path| >= 2 ==> path[|path| - 1] != path[0]
    decreases |path|
  {
    if |path| >= 2 {
      assert path[1] in started[..at];
      var k :| 0 <= k < at && started[k] == path[1];
      assert Chain(g, path[1..]);
      OrderExcludesCycles(g, started, path[1..], k);
      assert path[1..][|path| - 2] == path[|path| - 1];
      assert started[at] !in started[..at];
    } else {
      assert started[..at + 1][at] == path[0];
    }
  }

  /** The service was handled: found active, or found inactive and its start accepted right then. */
  ghost predicate Attended(calls: seq<Call>, name: string) {
    || Inspected(name, true) in calls
    || exists k :: 0 < k < |calls| && StartsAt(calls, k, name) && calls[k].accepted
  }

  ghost predicate StartsAt(calls: seq<Call>, k: nat, name: string)
    requires 0 < k < |calls|
  {
    calls[k - 1] == Inspected(name, false) && calls[k].Started? && calls[k].name == name
  }

  /**
   * Each service is inspected once at most; a start is issued only right after the inspection that
   * found its unit inactive, so once at most, and after everything it depends on was handled.
   */
  ghost predicate Orderly(g: Registry, calls: seq<Call>) {
    && (forall i, j :: 0 <= i < j < |calls| && calls[i].Inspected? && calls[j].Inspected? ==>
        calls[i].name != calls[j].name)
    && (forall k :: 0 <= k < |calls| && calls[k].Started? ==>
          && k > 0 && StartsAt(calls, k, calls[k].name)
          && calls[k].name in g && calls[k].name !in calls[k].handled
          && forall d :: d in g[calls[k].name].after ==> d in calls[k].handled)
  }

  /** Every service that was inspected has been handled. */
  ghost predicate Handled(calls: seq<Call>, started: seq<string>) {
    forall i :: 0 <= i < |calls| ==> calls[i].name in started
  }

  ghost predicate AllAttended(calls: seq<Call>, started: seq<string>) {
    forall i :: 0 <= i < |started| ==> Attended(calls, started[i])
  }

  lemma StillAttended(before: seq<Call>, calls: seq<Call>, started: seq<string>, name: string)
    requires AllAttended(before, started) && before <= calls && Attended(calls, name)
    ensures AllAttended(calls, started + [name])
  {
    forall i | 0 <= i < |started|
      ensures Attended(calls, started[i])
    {
      if k :| 0 < k < |before| && StartsAt(before, k, started[i]) && before[k].accepted {
        assert calls[k] == before[k] && StartsAt(calls, k, started[i]);
      }
    }
  }

  lemma OrderlyInspect(g: Registry, calls: seq<Call>, started: seq<string>, name: string, active: bool)
    requires Orderly(g, calls) && Handled(calls, started) && name !in started
    ensures Orderly(g, calls + [Inspected(name, active)])
  {
    var longer := calls + [Inspected(name, active)];
    assert forall i :: 0 <= i < |calls| ==> longer[i] == calls[i];
    forall k | 0 <= k < |longer| && longer[k].Started?
      ensures k > 0 && StartsAt(longer, k, longer[k].name)
    {
      assert StartsAt(calls, k, calls[k].name);
    }
  }

  lemma HandledTwo(calls: seq<Call>, started: seq<string>, name: string, ok: bool)
    requires Handled(calls, started)
    ensures var longer := calls + [Inspected(name, false)] + [Started(name, started, ok)];
            && longer == calls + [Inspected(name, false), Started(name, started, ok)]
            && Handled(longer, started + [name]) && calls <= longer
  {
  }

  lemma OrderlyStart(g: Registry, calls: seq<Call>, name: string, started: seq<string>, accepted: bool)
    requires Orderly(g, calls) && calls != [] && calls[|calls| - 1] == Inspected(name, false)
    requires name in g && name !in started && forall d :: d in g[name].after ==> d in started
    ensures var longer := calls + [Started(name, started, accepted)];
            Orderly(g, longer) && StartsAt(longer, |calls|, name)
  {
    var longer := calls + [Started(name, started, accepted)];
    assert forall i :: 0 <= i < |calls| ==> longer[i] == calls[i];
    forall k | 0 <= k < |calls| && longer[k].Started?
      ensures k > 0 && StartsAt(longer, k, longer[k].name)
    {
      assert StartsAt(calls, k, calls[k].name);
    }
  }

  /** What holds between two calls of the walk, and what is left even when the controller throws. */
  ghost predicate Underway(g: Registry, calls: seq<Call>, started: seq<string>) {
    Stopped(g, calls, started) && Handled(calls, started) && AllAttended(calls, started)
  }

  ghost predicate Stopped(g: Registry, calls: seq<Call>, started: seq<string>) {
    Topological(g, started) && Orderly(g, calls)
  }

  ghost predicate Within(names: seq<string>, n: nat, started: seq<string>) {
    forall k :: 0 <= k < n <= |names| ==> names[k] in started
  }

  lemma WithinGrows(names: seq<string>, n: nat, before: seq<string>, now: seq<string>)
    requires n < |names| && Within(names, n, before) && before <= now && names[n] in now
    ensures Within(names, n + 1, now)
  {
    forall k | 0 <= k < n
      ensures names[k] in now
    {
      assert names[k] in before;
    }
  }

  /** Nothing is forgotten, and what is new is a direct or indirect dependency of the name. */
  ghost predicate Adds(g: Registry, name: string, before: seq<string>, now: seq<string>) {
    before <= now && forall i :: |before| <= i < |now| ==> Leads(g, name, now[i])
  }

  ghost predicate AddsUnder(g: Registry, name: string, before: seq<string>, now: seq<string>) {
    before <= now && forall i :: |before| <= i < |now| ==> Leads(g, name, now[i]) && now[i] != name
  }

  lemma TopologicalAppend(g: Registry, started: seq<string>, name: string)
    requires Topological(g, started) && name in g && name !in started
    requires forall d :: d in g[name].after ==> d in started
    ensures Topological(g, started + [name])
  {
    var longer := started + [name];
    assert forall i :: 0 <= i < |started| ==> longer[i] == started[i] && longer[..i] == started[..i];
    assert longer[..|started|] == started;
  }

  /** The controller's answer; where none is foreseen, that the unit is active. */
  function Answer(replies: seq<Reply>): Reply { if replies == [] then Active else replies[0] }

  /** A controller that does not throw. */
  ghost predicate Calm(replies: seq<Reply>) { Throws !in replies }

  // ---------------------------------------------------------------------------------------------
  // The manager
  // ---------------------------------------------------------------------------------------------

  class ServiceManager {
    var services: seq<ManagedService>
    /** The unit controller: what it was asked in this walk, and how it will answer. */
    var calls: seq<Call>
    var replies: seq<Reply>

    ghost predicate Valid()
      reads this
    {
      forall i, j :: 0 <= i < j < |services| ==>
        services[i].name != services[j].name && services[i].unit != services[j].unit
    }

    ghost function Known(): Registry
      reads this`services
    {
      RegistryOf(services)
    }

    ghost predicate Registers(s: ManagedService)
      reads this`services
    {
      s.name in Known() && Known()[s.name] == s
    }

    constructor (replies: seq<Reply>)
      ensures Valid() && services == [] && calls == [] && this.replies == replies
    {
      services, calls, this.replies := [], [], replies;
    }

    method Ask() returns (r: Reply)
      modifies this`replies
      ensures r == Answer(old(replies))
      ensures replies == if old(replies) == [] then [] else old(replies)[1..]
      ensures Calm(old(replies)) ==> Calm(replies) && !r.Throws?
    {
      if replies == [] { return Active; }
      r, replies := replies[0], replies[1..];
    }

    /** `register_service`: refused exactly when the name or the unit is taken. */
    method Register(s: ManagedService) returns (ok: bool)
      requires Valid()
      modifies this`services
      ensures Valid()
      ensures ok <==> forall i :: 0 <= i < |old(services)| ==>
                old(services)[i].name != s.name && old(services)[i].unit != s.unit
      ensures services == if ok then old(services) + [s] else old(services)
    {
      ok := forall i :: 0 <= i < |services| ==> services[i].name != s.name && services[i].unit != s.unit;
      if ok { services := services + [s]; }
    }

    /** Inspect the unit, and start it unless it is active; false where the controller throws. */
    method Handle(s: ManagedService, started: seq<string>) returns (ok: bool)
      requires Registers(s) && s.name !in started && (forall d :: d in s.after ==> d in started)
      requires Orderly(Known(), calls) && Handled(calls, started)
      modifies this`calls, this`replies
      ensures Orderly(Known(), calls) && Handled(calls, started + [s.name]) && old(calls) <= calls
      ensures ok ==> Attended(calls, s.name)
      ensures Calm(old(replies)) ==> ok && Calm(replies)
      ensures match Answer(old(replies))
              case Active => ok && calls == old(calls) + [Inspected(s.name, true)]
              case Inactive => calls == old(calls) + [Inspected(s.name, false), Started(s.name, started, ok)]
              case Throws => !ok && calls == old(calls)
    {
      ghost var before := calls;
      var state := Ask();
      if state.Throws? { return false; }
      OrderlyInspect(Known(), calls, started, s.name, state.Active?);
      calls := calls + [Inspected(s.name, state.Active?)];
      assert calls[|before|] == Inspected(s.name, state.Active?);
      if state.Active? { return true; }
      var answer := Ask();
      ok := !answer.Throws?;
      OrderlyStart(Known(), calls, s.name, started, ok);
      HandledTwo(before, started, s.name, ok);
      calls := calls + [Started(s.name, started, ok)];
      assert StartsAt(calls, |before| + 1, s.name);
    }

    /**
     * `start_one`. The ghost path is the chain of callers: with no cycles it cannot grow beyond the
     * registry, which is why the recursion ends.
     */
    method StartOne(s: ManagedService, started: seq<string>, ghost path: seq<string>)
        returns (ok: bool, now: seq<string>)
      requires Registers(s) && Chain(Known(), path + [s.name]) && Acyclic(Known(), (path + [s.name])[0])
      requires Underway(Known(), calls, started)
      modifies this`calls, this`replies
      ensures Stopped(Known(), calls, now) && Adds(Known(), s.name, started, now)
      ensures ok ==> Underway(Known(), calls, now) && s.name in now
      ensures Calm(old(replies)) && KnownUnder(Known(), s.name) ==> ok && Calm(replies)
      decreases |Known().Keys| - |path|, 1
    {
      if s.name in started { return true, started; }
      ChainIsShort(Known(), path + [s.name]);
      ok, now := StartDependencies(s, started, path);
      AddsBelow(Known(), s.name, started, now);
      if !ok { return; }
      ghost var before := calls;
      ok := Handle(s, now);
      if ok {
        Append(Known(), s.name, started, now);
        StillAttended(before, calls, now, s.name);
        now := now + [s.name];
      }
    }

    method StartDependencies(s: ManagedService, started: seq<string>, ghost path: seq<string>)
        returns (ok: bool, now: seq<string>)
      requires Registers(s) && Chain(Known(), path + [s.name]) && Acyclic(Known(), (path + [s.name])[0])
      requires Underway(Known(), calls, started) && |path| < |Known().Keys|
      modifies this`calls, this`replies
      ensures Stopped(Known(), calls, now) && AddsUnder(Known(), s.name, started, now)
      ensures ok ==> Underway(Known(), calls, now) && Within(s.after, |s.after|, now)
      ensures Calm(old(replies)) && KnownUnder(Known(), s.name) ==> ok && Calm(replies)
      decreases |Known().Keys| - |path|, 0
    {
      now := started;
      CallerAcyclic(Known(), path, s.name);
      for i := 0 to |s.after|
        invariant Underway(Known(), calls, now) && AddsUnder(Known(), s.name, started, now)
        invariant Within(s.after, i, now)
        invariant Calm(old(replies)) && KnownUnder(Known(), s.name) ==> Calm(replies)
      {
        KnownDependency(Known(), s, i);
        var dependency := Lookup(services, s.after[i]);
        RegistryFinds(services, s.after[i]);
        if dependency.None? { return false, now; }
        ExtendPath(Known(), path, s.name, s.after[i]);
        ghost var before := now;
        ok, now := StartOne(dependency.value, now, path + [s.name]);
        ComesFrom(Known(), s.name, s.after[i], started, before, now);
        if !ok { return; }
        WithinGrows(s.after, i, before, now);
      }
      ok := true;
    }

    /** One round of the loop in `start_registered`. */
    method StartFrom(i: nat, before: seq<string>) returns (ok: bool, now: seq<string>)
      requires Startable(Known()) && Valid() && i < |services| && services[i].autoStart
      requires Underway(Known(), calls, before) && AllWanted(Known(), before) && AutoStarted(services, i, before)
      modifies this`calls, this`replies
      ensures Stopped(Known(), calls, now) && AllWanted(Known(), now)
      ensures ok ==> Underway(Known(), calls, now) && AutoStarted(services, i + 1, now)
      ensures Calm(old(replies)) && KnownWanted(Known()) ==> ok && Calm(replies)
    {
      LookupSelf(services, i);
      RegistryFinds(services, services[i].name);
      assert [] + [services[i].name] == [services[i].name];
      UnderWanted(Known(), services[i].name);
      ok, now := StartOne(services[i], before, []);
      StaysWanted(Known(), services[i].name, before, now);
      if ok { AutoStartedGrows(services, i, before, now); }
    }

    /** `start_registered`: exactly the dependency closure of the auto-start services, in order. */
    method StartRegistered() returns (ok: bool, started: seq<string>)
      requires Startable(Known()) && Valid()
      modifies this`calls, this`replies
      ensures Topological(Known(), started) && Orderly(Known(), calls)
      ensures AllWanted(Known(), started)
      ensures ok ==> NoneMissing(Known(), started) && AllAttended(calls, started)
      ensures Calm(old(replies)) ==> (ok <==> KnownWanted(Known()))
    {
      started, calls := [], [];
      Initially(Known());
      for i := 0 to |services|
        invariant Underway(Known(), calls, started) && AllWanted(Known(), started)
        invariant AutoStarted(services, i, started)
        invariant Calm(old(replies)) && KnownWanted(Known()) ==> Calm(replies)
      {
        if services[i].autoStart {
          ok, started := StartFrom(i, started);
          if !ok { return; }
        } else {
          AutoStartedSkips(services, i, started);
        }
      }
      AutoStartedAll(services, started);
      Closure(Known(), started);
      ClosureIsKnown(Known(), started);
      return true, started;
    }
  }

  /** In the dependency closure of the auto-start services. */
  ghost predicate Wanted(g: Registry, name: string) {
    exists a :: a in g && g[a].autoStart && Leads(g, a, name)
  }

  /** No service in that closure leads back to itself; cycles elsewhere do no harm. */
  ghost predicate Startable(g: Registry) {
    forall a :: a in g && g[a].autoStart ==> Acyclic(g, a)
  }

  /** And that is no more than it takes: what can be put in order has no such cycle. */
  lemma OnlyStartableIsOrdered(g: Registry, started: seq<string>)
    requires Topological(g, started) && NoneMissing(g, started)
    ensures Startable(g)
  {
    forall a, path | a in g && g[a].autoStart && Chain(g, path) && |path| >= 2 && Leads(g, a, path[0])
      ensures path[0] != path[|path| - 1]
    {
      assert Wanted(g, path[0]);
      var at :| 0 <= at < |started| && started[at] == path[0];
      OrderExcludesCycles(g, started, path, at);
    }
  }

  ghost predicate AllWanted(g: Registry, started: seq<string>) {
    forall x :: x in started ==> Wanted(g, x)
  }

  ghost predicate NoneMissing(g: Registry, started: seq<string>) {
    forall x :: Wanted(g, x) ==> x in started
  }

  ghost predicate AutoStarted(services: seq<ManagedService>, n: nat, started: seq<string>) {
    forall k :: 0 <= k < n <= |services| && services[k].autoStart ==> services[k].name in started
  }

  lemma Initially(g: Registry)
    ensures Underway(g, [], []) && AllWanted(g, [])
  {
  }

  lemma AutoStartedAll(services: seq<ManagedService>, started: seq<string>)
    requires AutoStarted(services, |services|, started)
    ensures var g := RegistryOf(services); forall a :: a in g && g[a].autoStart ==> a in started
  {
    forall a | a in RegistryOf(services) && RegistryOf(services)[a].autoStart
      ensures a in started
    {
      RegistryFinds(services, a);
      var k :| 0 <= k < |services| && services[k] == RegistryOf(services)[a];
    }
  }

  lemma AutoStartedSkips(services: seq<ManagedService>, n: nat, started: seq<string>)
    requires n < |services| && AutoStarted(services, n, started) && !services[n].autoStart
    ensures AutoStarted(services, n + 1, started)
  {
  }

  lemma AutoStartedGrows(services: seq<ManagedService>, n: nat, before: seq<string>, now: seq<string>)
    requires n < |services| && AutoStarted(services, n, before) && before <= now && services[n].name in now
    ensures AutoStarted(services, n + 1, now)
  {
    forall k | 0 <= k < n && services[k].autoStart
      ensures services[k].name in now
    {
      assert services[k].name in before;
    }
  }

  lemma StaysWanted(g: Registry, a: string, before: seq<string>, now: seq<string>)
    requires a in g && g[a].autoStart && AllWanted(g, before) && Adds(g, a, before, now)
    ensures AllWanted(g, now)
  {
    forall x | x in now
      ensures Wanted(g, x)
    {
      var k :| 0 <= k < |now| && now[k] == x;
      if k < |before| { assert before[k] == x; }
    }
  }

  /** Every name that the service depends on, directly or not, is registered. */
  ghost predicate KnownUnder(g: Registry, name: string) {
    forall x, d :: Leads(g, name, x) && x in g && d in g[x].after ==> d in g
  }

  /** The same of everything in the closure of the auto-start services. */
  ghost predicate KnownWanted(g: Registry) {
    forall x, d :: Wanted(g, x) && x in g && d in g[x].after ==> d in g
  }

  lemma UnderWanted(g: Registry, name: string)
    requires name in g && g[name].autoStart
    ensures KnownWanted(g) ==> KnownUnder(g, name)
  {
    assert forall x :: Leads(g, name, x) ==> Wanted(g, x);
  }

  lemma KnownDependency(g: Registry, s: ManagedService, i: nat)
    requires s.name in g && g[s.name] == s && i < |s.after|
    ensures KnownUnder(g, s.name) ==> s.after[i] in g && KnownUnder(g, s.after[i])
  {
    LeadsSelf(g, s.name);
    forall x | Leads(g, s.after[i], x)
      ensures Leads(g, s.name, x)
    {
      LeadsStep(g, s.name, s.after[i], x);
    }
  }

  lemma ClosureIsKnown(g: Registry, started: seq<string>)
    requires Topological(g, started) && NoneMissing(g, started)
    ensures KnownWanted(g)
  {
    forall x, d | Wanted(g, x) && x in g && d in g[x].after
      ensures d in g
    {
      var i :| 0 <= i < |started| && started[i] == x;
      assert d in started[..i];
    }
  }

  /** A callee has no more cycles below it than the first caller. */
  lemma CallerAcyclic(g: Registry, path: seq<string>, name: string)
    requires Chain(g, path + [name]) && Acyclic(g, (path + [name])[0])
    ensures Acyclic(g, name)
  {
    LeadsAlong(g, path + [name], |path|);
    AcyclicBelow(g, (path + [name])[0], name);
  }

  lemma ExtendPath(g: Registry, path: seq<string>, name: string, dependency: string)
    requires Chain(g, path + [name]) && name in g && dependency in g
    requires dependency in g[name].after
    ensures Chain(g, path + [name] + [dependency]) && (path + [name] + [dependency])[0] == (path + [name])[0]
  {
    var longer := path + [name] + [dependency];
    assert forall i :: 0 <= i <= |path| ==> longer[i] == (path + [name])[i];
  }

  /** What starting a dependency added is led to by the service, and is not the service. */
  lemma ComesFrom(g: Registry, name: string, dependency: string, started: seq<string>, before: seq<string>,
      now: seq<string>)
    requires Acyclic(g, name) && name in g && dependency in g[name].after
    requires AddsUnder(g, name, started, before) && Adds(g, dependency, before, now)
    ensures AddsUnder(g, name, started, now)
  {
    forall i | |started| <= i < |now|
      ensures Leads(g, name, now[i]) && now[i] != name
    {
      if i < |before| {
        assert now[i] == before[i];
      } else {
        LeadsStep(g, name, dependency, now[i]);
        NotBack(g, name, dependency);
      }
    }
  }

  lemma AddsBelow(g: Registry, name: string, started: seq<string>, now: seq<string>)
    requires name !in started && AddsUnder(g, name, started, now)
    ensures Adds(g, name, started, now) && name !in now
  {
  }

  lemma Append(g: Registry, name: string, started: seq<string>, now: seq<string>)
    requires Topological(g, now) && name in g && name !in now
    requires forall d :: d in g[name].after ==> d in now
    requires Adds(g, name, started, now)
    ensures Topological(g, now + [name]) && Adds(g, name, started, now + [name])
  {
    TopologicalAppend(g, now, name);
    LeadsSelf(g, name);
  }

  lemma {:induction false} LookupSelf(services: seq<ManagedService>, i: nat)
    requires i < |services| && forall j, k :: 0 <= j < k < |services| ==> services[j].name != services[k].name
    ensures Lookup(services, services[i].name) == Some(services[i])
  {
    if i > 0 { LookupSelf(services[1..], i - 1); }
  }

  /** A topologically ordered list is closed under dependencies. */
  lemma Closure(g: Registry, started: seq<string>)
    requires Topological(g, started) && forall a :: a in g && g[a].autoStart ==> a in started
    ensures NoneMissing(g, started)
  {
    forall x | Wanted(g, x)
      ensures x in started
    {
      var a :| a in g && g[a].autoStart && Leads(g, a, x);
      var path :| Chain(g, path) && path[0] == a && path[|path| - 1] == x;
      var at :| 0 <= at < |started| && started[at] == a;
      OrderExcludesCycles(g, started, path, at);
    }
  }
}
