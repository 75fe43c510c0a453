/** Which clock servo runs: the transition planner of ptp.cpp and the stop/start sequence of backend.cpp. */
module ClockDiscipline {
  import opened Configuration
  import opened Text
  import opened Validation

  datatype ClockProfile = ClockProfile(
    interfaces: seq<string>,
    ntpUnits: seq<string>,
    irigUnits: seq<string>,
    ptpUnits: seq<string>,
    ptpTemplates: seq<string>)

  datatype Plan = Plan(stop: seq<string>, start: seq<string>)
  datatype PlanError = Unsupported | InvalidArgument
  datatype PlanResult = Planned(plan: Plan) | Refused(error: PlanError)

  // ---------------------------------------------------------------------------------------------
  // Unit instances
  // ---------------------------------------------------------------------------------------------

  const SERVICE := ".service"
  const DASH := "\\x2d"

  predicate EndsWith(s: string, tail: string) { |tail| <= |s| && s[|s| - |tail|..] == tail }

  predicate Template(unit: string) { EndsWith(unit, "@.service") }

  function EscapeChar(c: char): string { if c == '-' then DASH else [c] }

  function Escape(name: string): string {
    if name == "" then "" else Escape(name[..|name| - 1]) + EscapeChar(name[|name| - 1])
  }

  predicate EndsWithDash(s: string) {
    var n := |s|;
    n >= 4 && s[n - 4] == '\\' && s[n - 3] == 'x' && s[n - 2] == '2' && s[n - 1] == 'd'
  }

  /** What systemd's %I does with an instance name. */
  function Unescape(s: string): string
    decreases |s|
  {
    if s == "" then ""
    else if EndsWithDash(s) then Unescape(s[..|s| - 4]) + "-"
    else Unescape(s[..|s| - 1]) + [s[|s| - 1]]
  }

  ghost predicate InterfaceChars(name: string) {
    forall i :: 0 <= i < |name| ==> InterfaceChar(name[i])
  }

  /** Unescaping gives the name back. */
  lemma {:induction false} EscapeInverts(name: string)
    requires InterfaceChars(name)
    ensures Unescape(Escape(name)) == name
  {
    if name != "" {
      var rest, c := name[..|name| - 1], name[|name| - 1];
      assert name == rest + [c];
      EscapeInverts(rest);
      InvertsNext(name, rest, c);
    }
  }

  lemma InvertsNext(name: string, rest: string, c: char)
    requires name == rest + [c] && InterfaceChars(rest) && InterfaceChar(c) && Unescape(Escape(rest)) == rest
    ensures Unescape(Escape(name)) == name
  {
    assert name[..|name| - 1] == rest;
    UnescapeStep(rest, c);
  }

  /** The escaped name does not mention the separator. */
  lemma {:induction false} EscapeHidesNothing(name: string)
    requires InterfaceChars(name)
    ensures '@' !in Escape(name)
  {
    if name != "" {
      EscapeHidesNothing(name[..|name| - 1]);
      assert '@' !in EscapeChar(name[|name| - 1]);
    }
  }

  lemma UnescapeStep(rest: string, c: char)
    requires InterfaceChars(rest) && InterfaceChar(c)
    ensures Unescape(Escape(rest) + EscapeChar(c)) == Unescape(Escape(rest)) + [c]
  {
    if c == '-' {
      DashTail(Escape(rest));
    } else {
      PlainTail(rest, c);
      PlainStep(Escape(rest), c);
    }
  }

  lemma DashTail(e: string)
    ensures Unescape(e + DASH) == Unescape(e) + "-"
  {
    assert (e + DASH)[..|e|] == e;
  }

  lemma PlainStep(e: string, c: char)
    requires !EndsWithDash(e + [c])
    ensures Unescape(e + [c]) == Unescape(e) + [c]
  {
    assert (e + [c])[..|e|] == e;
  }

  /** A plain character does not complete an escape, because no name holds a backslash. */
  lemma PlainTail(rest: string, c: char)
    requires InterfaceChars(rest) && InterfaceChar(c) && c != '-'
    ensures !EndsWithDash(Escape(rest) + [c])
  {
    var e := Escape(rest);
    if EndsWithDash(e + [c]) {
      assert e[|e| - 3] == '\\';
      BackslashStarts(rest, |e| - 3);
    }
  }

  /** Every backslash of an escaped name starts a whole escape. */
  lemma {:induction false} BackslashStarts(name: string, at: nat)
    requires InterfaceChars(name) && at < |Escape(name)| && Escape(name)[at] == '\\'
    ensures at + 4 <= |Escape(name)|
  {
    var rest, c := name[..|name| - 1], name[|name| - 1];
    if at < |Escape(rest)| { BackslashStarts(rest, at); }
  }

  function InstanceOf(unit: string, name: string): string
    requires Template(unit)
  {
    unit[..|unit| - 8] + Escape(name) + SERVICE
  }

  /** Two instances are the same unit only for the same template and the same interface. */
  lemma InstanceInjective(unit: string, name: string, unit2: string, name2: string)
    requires Template(unit) && Template(unit2) && InterfaceName(name) && InterfaceName(name2)
    requires InstanceOf(unit, name) == InstanceOf(unit2, name2)
    ensures unit == unit2 && name == name2
  {
    SameStem(unit[..|unit| - 8] + Escape(name), unit2[..|unit2| - 8] + Escape(name2));
    EscapeHidesNothing(name);
    EscapeHidesNothing(name2);
    TemplateEnds(unit);
    TemplateEnds(unit2);
    LastSeparator(unit[..|unit| - 9], Escape(name), unit2[..|unit2| - 9], Escape(name2));
    EscapeInverts(name);
    EscapeInverts(name2);
  }

  lemma SameStem(a: string, b: string)
    requires a + SERVICE == b + SERVICE
    ensures a == b
  {
    assert (a + SERVICE)[..|a|] == a && (b + SERVICE)[..|b|] == b;
  }

  lemma TemplateEnds(unit: string)
    requires Template(unit)
    ensures unit[..|unit| - 8] == unit[..|unit| - 9] + "@" && unit == unit[..|unit| - 9] + "@.service"
  {
    assert unit[|unit| - 9..][0] == '@';
  }

  /** The last separator splits a text in one way only. */
  lemma LastSeparator(a: string, b: string, a2: string, b2: string)
    requires '@' !in b && '@' !in b2 && a + "@" + b == a2 + "@" + b2
    ensures a == a2 && b == b2
  {
    var s := a + "@" + b;
    assert s[|a|] == '@' && s[|a2|] == '@';
    assert forall i :: |a| < i < |s| ==> s[i] == b[i - |a| - 1];
    assert forall i :: |a2| < i < |s| ==> s[i] == b2[i - |a2| - 1];
    assert a == s[..|a|] && a2 == s[..|a2|] && b == s[|a| + 1..] && b2 == s[|a2| + 1..];
  }

  // ---------------------------------------------------------------------------------------------
  // The families of units
  // ---------------------------------------------------------------------------------------------

  function Elements(units: seq<string>): set<string> { set u | u in units }

  function Instances(templates: seq<string>, name: string): seq<string>
    requires forall t :: t in templates ==> Template(t)
  {
    if templates == [] then []
    else Instances(templates[..|templates| - 1], name) + [InstanceOf(templates[|templates| - 1], name)]
  }

  predicate PortsNameable(templates: seq<string>, names: seq<string>) {
    templates != [] && names != [] ==>
      (forall n :: n in names ==> InterfaceName(n)) && (forall t :: t in templates ==> Template(t))
  }

  /** All names are usable: what the planner checks as soon as one instance has to be named. */
  predicate Nameable(p: ClockProfile) {
    PortsNameable(p.ptpTemplates, p.interfaces)
  }

  predicate Supported(p: ClockProfile, time: TimePreferences) {
    && (time.synchronization == "irig" ==> p.irigUnits != [])
    && (time.synchronization == "ptp" ==> time.ptpInterface in p.interfaces && p.ptpTemplates != [])
    && Nameable(p)
  }

  ghost function PortUnits(templates: seq<string>, names: seq<string>): set<string>
    requires names != [] ==> forall t :: t in templates ==> Template(t)
  {
    set n, t | n in names && t in templates :: InstanceOf(t, n)
  }

  /** The units of every port, including the fixed ones of older policies, and of the IRIG servo. */
  ghost function Servos(p: ClockProfile): set<string>
    requires Nameable(p)
  {
    Elements(p.ptpUnits) + PortUnits(p.ptpTemplates, p.interfaces) + Elements(p.irigUnits)
  }

  ghost function Managed(p: ClockProfile): set<string>
    requires Nameable(p)
  {
    Servos(p) + Elements(p.ntpUnits)
  }

  /** The family that the selected discipline consists of, in start order. */
  function Family(p: ClockProfile, time: TimePreferences): seq<string>
    requires Supported(p, time)
  {
    if time.synchronization == "ntp" then p.ntpUnits
    else if time.synchronization == "irig" then p.irigUnits
    else if time.synchronization == "ptp" then Instances(p.ptpTemplates, time.ptpInterface)
    else []
  }

  lemma {:induction false} InstancesAre(templates: seq<string>, name: string)
    requires forall t :: t in templates ==> Template(t)
    ensures |Instances(templates, name)| == |templates|
    ensures forall i :: 0 <= i < |templates| ==> Instances(templates, name)[i] == InstanceOf(templates[i], name)
  {
    if templates != [] { InstancesAre(templates[..|templates| - 1], name); }
  }

  lemma FamilyIsManaged(p: ClockProfile, time: TimePreferences)
    requires Supported(p, time)
    ensures Elements(Family(p, time)) <= Managed(p)
    ensures time.synchronization != "ntp" ==> Elements(Family(p, time)) <= Servos(p)
  {
    if time.synchronization == "ptp" {
      InstancesAre(p.ptpTemplates, time.ptpInterface);
    }
  }

  // ---------------------------------------------------------------------------------------------
  // The planner
  // ---------------------------------------------------------------------------------------------

  method EscapeName(name: string) returns (escaped: string)
    ensures escaped == Escape(name)
  {
    escaped := "";
    for i := 0 to |name|
      invariant escaped == Escape(name[..i])
    {
      assert name[..i + 1][..i] == name[..i];
      escaped := escaped + (if name[i] == '-' then DASH else [name[i]]);
    }
    assert name[..|name|] == name;
  }

  method Instance(unit: string, name: string) returns (r: Option<string>)
    ensures r.Some? <==> InterfaceName(name) && Template(unit)
    ensures r.Some? ==> r.value == InstanceOf(unit, name)
  {
    if !InterfaceName(name) || !EndsWith(unit, "@.service") { return None; }
    var escaped := EscapeName(name);
    r := Some(unit[..|unit| - 8] + escaped + SERVICE);
  }

  /** The selected port's instances, one per template. */
  method SelectPort(templates: seq<string>, name: string) returns (ok: bool, selected: seq<string>)
    ensures ok <==> forall t :: t in templates ==> InterfaceName(name) && Template(t)
    ensures ok ==> selected == Instances(templates, name)
  {
    selected := [];
    for i := 0 to |templates|
      invariant forall t :: t in templates[..i] ==> InterfaceName(name) && Template(t)
      invariant selected == Instances(templates[..i], name)
    {
      var one := Instance(templates[i], name);
      if one.None? {
        assert templates[i] in templates;
        return false, [];
      }
      assert templates[..i + 1][..i] == templates[..i];
      selected := selected + [one.value];
    }
    assert templates[..|templates|] == templates;
    ok := true;
  }

  function AddNew(all: seq<string>, u: string): seq<string> { if u in all then all else all + [u] }

  function AddAll(all: seq<string>, units: seq<string>): seq<string> {
    if units == [] then all else AddNew(AddAll(all, units[..|units| - 1]), units[|units| - 1])
  }

  function AddPorts(all: seq<string>, templates: seq<string>, names: seq<string>): seq<string>
    requires names != [] ==> forall t :: t in templates ==> Template(t)
  {
    if names == [] then all
    else AddAll(AddPorts(all, templates, names[..|names| - 1]), Instances(templates, names[|names| - 1]))
  }

  function Without(units: seq<string>, gone: seq<string>): seq<string> {
    if units == [] then []
    else (if units[|units| - 1] in gone then [] else [units[|units| - 1]]) + Without(units[..|units| - 1], gone)
  }

  function Backwards(units: seq<string>): seq<string> { Without(units, []) }

  /** What the planner answers: the others in reverse order of start, then the family itself. */
  function Transition(p: ClockProfile, time: TimePreferences): Plan
    requires Supported(p, time)
  {
    var all := AddPorts(p.ptpUnits, p.ptpTemplates, p.interfaces) + p.irigUnits;
    if time.synchronization == "ntp" then Plan(Backwards(all), p.ntpUnits)
    else Plan(Without(all, Family(p, time)) + Backwards(p.ntpUnits), Family(p, time))
  }

  method AddPort(all: seq<string>, templates: seq<string>, name: string) returns (ok: bool, r: seq<string>)
    ensures ok <==> forall t :: t in templates ==> InterfaceName(name) && Template(t)
    ensures ok ==> r == AddAll(all, Instances(templates, name))
  {
    r := all;
    for k := 0 to |templates|
      invariant forall t :: t in templates[..k] ==> InterfaceName(name) && Template(t)
      invariant r == AddAll(all, Instances(templates[..k], name))
    {
      var one := Instance(templates[k], name);
      if one.None? {
        assert templates[k] in templates;
        return false, r;
      }
      assert templates[..k + 1][..k] == templates[..k];
      if one.value !in r { r := r + [one.value]; }
    }
    assert templates[..|templates|] == templates;
    ok := true;
  }

  lemma OneMorePort(templates: seq<string>, names: seq<string>, k: nat)
    requires k < |names| && PortsNameable(templates, names[..k])
    ensures PortsNameable(templates, names[..k + 1]) <==> forall t :: t in templates ==>
              InterfaceName(names[k]) && Template(t)
    ensures PortsNameable(templates, names) ==> PortsNameable(templates, names[..k + 1])
  {
    assert names[..k + 1] == names[..k] + [names[k]];
    assert templates != [] ==> templates[0] in templates;
    assert names[k] in names[..k + 1];
  }

  method AddEveryPort(p: ClockProfile) returns (ok: bool, all: seq<string>)
    ensures ok <==> PortsNameable(p.ptpTemplates, p.interfaces)
    ensures ok ==> all == AddPorts(p.ptpUnits, p.ptpTemplates, p.interfaces)
  {
    all := p.ptpUnits;
    for k := 0 to |p.interfaces|
      invariant PortsNameable(p.ptpTemplates, p.interfaces[..k])
      invariant all == AddPorts(p.ptpUnits, p.ptpTemplates, p.interfaces[..k])
    {
      OneMorePort(p.ptpTemplates, p.interfaces, k);
      ok, all := AddPort(all, p.ptpTemplates, p.interfaces[k]);
      if !ok { return; }
      assert p.interfaces[..k + 1][..k] == p.interfaces[..k];
    }
    assert p.interfaces[..|p.interfaces|] == p.interfaces;
    ok := true;
  }

  method Keep(units: seq<string>, gone: seq<string>) returns (r: seq<string>)
    ensures r == Without(units, gone)
  {
    r := [];
    var k := |units|;
    assert units[..k] == units;
    while k > 0
      invariant 0 <= k <= |units| && r + Without(units[..k], gone) == Without(units, gone)
    {
      k := k - 1;
      WithoutStep(units, k, gone, r);
      if units[k] !in gone { r := r + [units[k]]; }
    }
  }

  lemma WithoutStep(units: seq<string>, k: nat, gone: seq<string>, r: seq<string>)
    requires k < |units|
    ensures r + Without(units[..k + 1], gone) ==
            (if units[k] in gone then r else r + [units[k]]) + Without(units[..k], gone)
  {
    assert units[..k + 1][..k] == units[..k];
  }

  /** `clockUnits`: refused exactly for an unavailable discipline or an unusable name. */
  method Discipline(p: ClockProfile, time: TimePreferences) returns (r: PlanResult)
    ensures r.Planned? <==> Supported(p, time)
    ensures r.Planned? ==> r.plan == Transition(p, time)
    ensures r.Refused? ==>
              r.error == if time.synchronization == "irig" && p.irigUnits == [] then Unsupported else InvalidArgument
  {
    var selected := [];
    if time.synchronization == "irig" {
      if p.irigUnits == [] { return Refused(Unsupported); }
      selected := p.irigUnits;
    }
    if time.synchronization == "ptp" {
      if time.ptpInterface !in p.interfaces || p.ptpTemplates == [] { return Refused(InvalidArgument); }
      var ok;
      ok, selected := SelectPort(p.ptpTemplates, time.ptpInterface);
      if !ok { return Refused(InvalidArgument); }
    }
    var ok, all := AddEveryPort(p);
    if !ok { return Refused(InvalidArgument); }
    all := all + p.irigUnits;
    var stop := Keep(all, selected);
    if time.synchronization != "ntp" {
      var ntp := Keep(p.ntpUnits, []);
      return Planned(Plan(stop + ntp, selected));
    }
    return Planned(Plan(stop, p.ntpUnits));
  }

  // ---------------------------------------------------------------------------------------------
  // What a plan covers
  // ---------------------------------------------------------------------------------------------

  lemma ElementsConcat(a: seq<string>, b: seq<string>)
    ensures Elements(a + b) == Elements(a) + Elements(b)
  {
  }

  lemma {:induction false} WithoutElements(units: seq<string>, gone: seq<string>)
    ensures Elements(Without(units, gone)) == Elements(units) - Elements(gone)
  {
    if units != [] {
      var rest, last := units[..|units| - 1], [units[|units| - 1]];
      WithoutElements(rest, gone);
      assert units == rest + last;
      ElementsConcat(rest, last);
      ElementsConcat(if last[0] in gone then [] else last, Without(rest, gone));
    }
  }

  lemma {:induction false} AddAllElements(all: seq<string>, units: seq<string>)
    ensures Elements(AddAll(all, units)) == Elements(all) + Elements(units)
  {
    if units != [] {
      var rest, last := units[..|units| - 1], [units[|units| - 1]];
      AddAllElements(all, rest);
      assert units == rest + last;
      ElementsConcat(rest, last);
      ElementsConcat(AddAll(all, rest), last);
    }
  }

  lemma {:induction false} AddPortsElements(all: seq<string>, templates: seq<string>, names: seq<string>)
    requires names != [] ==> forall t :: t in templates ==> Template(t)
    ensures Elements(AddPorts(all, templates, names)) == Elements(all) + PortUnits(templates, names)
  {
    if names != [] {
      var rest, n := names[..|names| - 1], names[|names| - 1];
      AddPortsElements(all, templates, rest);
      AddAllElements(AddPorts(all, templates, rest), Instances(templates, n));
      OnePort(templates, names);
    }
  }

  lemma OnePort(templates: seq<string>, names: seq<string>)
    requires names != [] && forall t :: t in templates ==> Template(t)
    ensures PortUnits(templates, names) ==
            PortUnits(templates, names[..|names| - 1]) + Elements(Instances(templates, names[|names| - 1]))
  {
    var n := names[|names| - 1];
    InstancesAre(templates, n);
    assert names == names[..|names| - 1] + [n];
  }

  /** Everything managed is stopped or started; nothing is both but an NTP unit that is also a servo. */
  lemma PartitionExactly(p: ClockProfile, time: TimePreferences)
    requires Supported(p, time)
    ensures Transition(p, time).start == Family(p, time)
    ensures Elements(Transition(p, time).stop) + Elements(Family(p, time)) == Managed(p)
    ensures Elements(Transition(p, time).stop) * Elements(Family(p, time)) ==
            Elements(p.ntpUnits) * (if time.synchronization == "ntp" then Servos(p) else Elements(Family(p, time)))
  {
    StopElements(p, time);
    FamilyIsManaged(p, time);
  }

  lemma StopElements(p: ClockProfile, time: TimePreferences)
    requires Supported(p, time)
    ensures Elements(Transition(p, time).stop) ==
            if time.synchronization == "ntp" then Servos(p)
            else Servos(p) - Elements(Family(p, time)) + Elements(p.ntpUnits)
  {
    var ports := AddPorts(p.ptpUnits, p.ptpTemplates, p.interfaces);
    AddPortsElements(p.ptpUnits, p.ptpTemplates, p.interfaces);
    ElementsConcat(ports, p.irigUnits);
    var all := ports + p.irigUnits;
    if time.synchronization == "ntp" {
      WithoutElements(all, []);
    } else {
      WithoutElements(all, Family(p, time));
      WithoutElements(p.ntpUnits, []);
      ElementsConcat(Without(all, Family(p, time)), Backwards(p.ntpUnits));
    }
  }

  ghost predicate StopsWhatItStarts(p: ClockProfile, time: TimePreferences) {
    Supported(p, time) && Elements(Transition(p, time).stop) * Elements(Transition(p, time).start) != {}
  }

  /** Stop and start lists partition the managed units in every mode exactly when NTP has units of its own. */
  lemma DisjointInEveryMode(p: ClockProfile)
    requires Nameable(p)
    ensures Elements(p.ntpUnits) * Servos(p) == {} <==> forall time :: !StopsWhatItStarts(p, time)
  {
    forall time | Supported(p, time)
      ensures Elements(p.ntpUnits) * Servos(p) == {} ==> !StopsWhatItStarts(p, time)
    {
      PartitionExactly(p, time);
      FamilyIsManaged(p, time);
    }
    var ntp := TimePreferences("ntp", "UTC", "", []);
    PartitionExactly(p, ntp);
    assert StopsWhatItStarts(p, ntp) <==> Elements(p.ntpUnits) * Servos(p) != {};
  }

  /** No servo of another port is mistaken for the selected one. */
  lemma OtherPortsStop(p: ClockProfile, time: TimePreferences, name: string, unit: string)
    requires Supported(p, time) && time.synchronization == "ptp"
    requires name in p.interfaces && name != time.ptpInterface && unit in p.ptpTemplates
    ensures InstanceOf(unit, name) in Transition(p, time).stop
    ensures InstanceOf(unit, name) !in Transition(p, time).start
  {
    PartitionExactly(p, time);
    InstancesAre(p.ptpTemplates, time.ptpInterface);
    var u := InstanceOf(unit, name);
    if u in Family(p, time) {
      var i :| 0 <= i < |p.ptpTemplates| && InstanceOf(p.ptpTemplates[i], time.ptpInterface) == u;
      InstanceInjective(unit, name, p.ptpTemplates[i], time.ptpInterface);
    }
    assert u in Managed(p);
    assert u in Elements(Transition(p, time).stop);
  }

  // ---------------------------------------------------------------------------------------------
  // Carrying a plan out
  // ---------------------------------------------------------------------------------------------

  datatype UnitState = Inactive | Failed | Active | Between

  /** How a unit answers a job: whether the job was accepted, and what polling shows until the deadline. */
  datatype Reaction = Reaction(accepted: bool, first: UnitState, more: seq<UnitState>)

  /** The reload of the network between the stops and the starts, when the clock policy asks for one. */
  datatype Reload = NotNeeded | Works | Fails

  /** A unit told to start or stop, and every unit's state at that moment. */
  datatype Order = Order(unit: string, start: bool, states: map<string, UnitState>)

  function StateOf(states: map<string, UnitState>, unit: string): UnitState {
    if unit in states then states[unit] else Inactive
  }

  predicate Reached(state: UnitState, start: bool) {
    if start then state == Active else state == Inactive || state == Failed
  }

  ghost predicate AllAt(states: map<string, UnitState>, units: set<string>, start: bool) {
    forall u :: u in units ==> Reached(StateOf(states, u), start)
  }

  ghost predicate SameOutside(before: map<string, UnitState>, now: map<string, UnitState>, units: set<string>) {
    forall u :: u !in units ==> StateOf(before, u) == StateOf(now, u)
  }

  /** Whenever a unit is told to start, what is managed and outside the family is at rest. */
  ghost predicate Exclusive(orders: seq<Order>, others: set<string>) {
    forall i :: 0 <= i < |orders| && orders[i].start ==> AllAt(orders[i].states, others, false)
  }

  /** What a unit was told, without the moment. */
  datatype Command = Command(unit: string, start: bool)

  function Told(orders: seq<Order>): seq<Command> {
    if orders == [] then []
    else Told(orders[..|orders| - 1]) + [Command(orders[|orders| - 1].unit, orders[|orders| - 1].start)]
  }

  function Tell(units: seq<string>, start: bool): seq<Command> {
    if units == [] then [] else Tell(units[..|units| - 1], start) + [Command(units[|units| - 1], start)]
  }

  lemma ToldNext(orders: seq<Order>, o: Order)
    ensures Told(orders + [o]) == Told(orders) + [Command(o.unit, o.start)]
  {
    assert (orders + [o])[..|orders|] == orders;
  }

  lemma TellNext(units: seq<string>, i: nat, start: bool)
    requires i < |units|
    ensures Tell(units[..i + 1], start) == Tell(units[..i], start) + [Command(units[i], start)]
  {
    assert units[..i + 1][..i] == units[..i];
  }

  lemma {:induction false} TellPrefix(units: seq<string>, i: nat, start: bool)
    requires i <= |units|
    ensures Tell(units[..i], start) <= Tell(units, start)
    decreases |units| - i
  {
    if i < |units| {
      TellNext(units, i, start);
      TellPrefix(units, i + 1, start);
    } else {
      assert units[..i] == units;
    }
  }

  /** The first i units have been told, after what was told before. */
  ghost predicate ToldUpTo(before: seq<Order>, now: seq<Order>, units: seq<string>, i: nat, start: bool)
    requires i <= |units|
  {
    Told(now) == Told(before) + Tell(units[..i], start)
  }

  lemma ToldOneMore(before: seq<Order>, now: seq<Order>, units: seq<string>, i: nat, o: Order)
    requires i < |units| && o.unit == units[i] && ToldUpTo(before, now, units, i, o.start)
    ensures ToldUpTo(before, now + [o], units, i + 1, o.start)
    ensures Told(now + [o]) <= Told(before) + Tell(units, o.start)
  {
    ToldNext(now, o);
    TellNext(units, i, o.start);
    TellPrefix(units, i + 1, o.start);
  }

  /** Everything the switch to a discipline tells the units, in order. */
  function Commands(p: ClockProfile, time: TimePreferences, serversChanged: bool): seq<Command>
    requires Supported(p, time)
  {
    Tell(Transition(p, time).stop, false)
    + Tell(if serversChanged && time.synchronization == "ntp" then p.ntpUnits else [], false)
    + Tell(Transition(p, time).start, true)
  }

  /** The job is accepted, and polling shows the wanted state, before any failure of a unit that should start. */
  ghost predicate Complies(r: Reaction, start: bool) {
    r.accepted && exists k :: 0 <= k <= |r.more| && ShownAt(r, k, start)
  }

  ghost predicate ShownAt(r: Reaction, k: nat, start: bool)
    requires k <= |r.more|
  {
    && Reached(([r.first] + r.more)[k], start)
    && (start ==> forall j :: 0 <= j < k ==> ([r.first] + r.more)[j] != Failed)
  }

  /** The next unit's reaction; where none is foreseen, it does as it is told. */
  function Next(reactions: seq<Reaction>, start: bool): Reaction {
    if reactions == [] then Reaction(true, if start then Active else Inactive, []) else reactions[0]
  }

  class Host {
    var states: map<string, UnitState>
    var orders: seq<Order>
    var reactions: seq<Reaction>

    constructor (states: map<string, UnitState>, reactions: seq<Reaction>)
      ensures this.states == states && orders == [] && this.reactions == reactions
    {
      this.states, orders, this.reactions := states, [], reactions;
    }

    /** `unit`: nothing to do, or a job and a wait for its end; a submitted job is not completion. */
    method Unit(name: string, start: bool) returns (ok: bool)
      modifies this
      ensures ok && start ==> StateOf(states, name) == Active
      ensures ok && !start ==> StateOf(states, name) == Inactive || StateOf(states, name) == Failed
      ensures SameOutside(old(states), states, {name})
      ensures orders == old(orders) + [Order(name, start, old(states))]
      ensures Reached(StateOf(old(states), name), start) ==> ok && states == old(states)
      ensures ok <==> Reached(StateOf(old(states), name), start) || Complies(Next(old(reactions), start), start)
      ensures old(reactions) == [] ==> ok && reactions == []
    {
      if reactions == [] { assert ShownAt(Next(reactions, start), 0, start); }
      orders := orders + [Order(name, start, states)];
      if Reached(StateOf(states, name), start) { return true; }
      var answer := Next(reactions, start);
      reactions := if reactions == [] then [] else reactions[1..];
      states := states[name := answer.first];
      if !answer.accepted { return false; }
      ghost var seen := [answer.first] + answer.more;
      var k := 0;
      while true
        invariant 0 <= k <= |answer.more| && name in states && states[name] == seen[k]
        invariant forall j :: 0 <= j < k ==> !Reached(seen[j], start) && (start ==> seen[j] != Failed)
        invariant SameOutside(old(states), states, {name})
        invariant orders == old(orders) + [Order(name, start, old(states))]
        invariant old(reactions) == [] ==> reactions == []
        decreases |answer.more| - k
      {
        if Reached(states[name], start) {
          assert ShownAt(answer, k, start);
          return true;
        }
        if start && states[name] == Failed { return false; }
        if k == |answer.more| { return false; }
        states := states[name := answer.more[k]];
        k := k + 1;
      }
      assert false;
    }

    method StopAll(units: seq<string>, ghost others: set<string>) returns (ok: bool)
      requires Exclusive(orders, others)
      modifies this
      ensures Exclusive(orders, others) && SameOutside(old(states), states, Elements(units))
      ensures ok ==> AllAt(states, Elements(units), false)
      ensures Told(orders) <= Told(old(orders)) + Tell(units, false)
      ensures ok ==> Told(orders) == Told(old(orders)) + Tell(units, false)
      ensures old(reactions) == [] ==> ok && reactions == []
    {
      for i := 0 to |units|
        invariant Exclusive(orders, others)
        invariant ToldUpTo(old(orders), orders, units, i, false)
        invariant old(reactions) == [] ==> reactions == []
        invariant SameOutside(old(states), states, Elements(units))
        invariant AllAt(states, Elements(units[..i]), false)
      {
        ToldOneMore(old(orders), orders, units, i, Order(units[i], false, states));
        ok := Unit(units[i], false);
        if !ok { return; }
        assert units[..i + 1] == units[..i] + [units[i]];
      }
      assert units[..|units|] == units;
      ok := true;
    }

    method StartAll(units: seq<string>, ghost others: set<string>) returns (ok: bool)
      requires Exclusive(orders, others) && others !! Elements(units) && AllAt(states, others, false)
      modifies this
      ensures Exclusive(orders, others) && SameOutside(old(states), states, Elements(units))
      ensures ok ==> AllAt(states, Elements(units), true)
      ensures Told(orders) <= Told(old(orders)) + Tell(units, true)
      ensures ok ==> Told(orders) == Told(old(orders)) + Tell(units, true)
      ensures old(reactions) == [] ==> ok && reactions == []
    {
      for i := 0 to |units|
        invariant Exclusive(orders, others)
        invariant ToldUpTo(old(orders), orders, units, i, true)
        invariant old(reactions) == [] ==> reactions == []
        invariant SameOutside(old(states), states, Elements(units))
        invariant AllAt(states, others, false)
        invariant AllAt(states, Elements(units[..i]), true)
      {
        ToldOneMore(old(orders), orders, units, i, Order(units[i], true, states));
        ok := Unit(units[i], true);
        if !ok { return; }
        assert units[..i + 1] == units[..i] + [units[i]];
      }
      assert units[..|units|] == units;
      ok := true;
    }

    /**
     * The clock part of `Native::preferences`: no managed unit outside the selected family runs when a
     * start is issued, and success leaves exactly the family active.
     */
    method Preferences(p: ClockProfile, time: TimePreferences, serversChanged: bool, reload: Reload) returns (ok: bool)
      modifies this
      ensures ok ==> Supported(p, time) && !reload.Fails?
      ensures !Supported(p, time) ==> states == old(states) && orders == []
      ensures Supported(p, time) ==> Exclusive(orders, Managed(p) - Elements(Family(p, time)))
      ensures Supported(p, time) ==> SameOutside(old(states), states, Managed(p))
      ensures ok ==> AllAt(states, Elements(Family(p, time)), true)
      ensures ok ==> AllAt(states, Managed(p) - Elements(Family(p, time)), false)
      ensures Supported(p, time) ==> Told(orders) <= Commands(p, time, serversChanged)
      ensures ok ==> Told(orders) == Commands(p, time, serversChanged)
      ensures Supported(p, time) && !reload.Fails? && old(reactions) == [] ==> ok
    {
      orders := [];
      var r := Discipline(p, time);
      if r.Refused? { return false; }
      PartitionExactly(p, time);
      ghost var others := Managed(p) - Elements(Family(p, time));
      var again := if serversChanged && time.synchronization == "ntp" then p.ntpUnits else [];
      ok := Switch(r.plan.stop, again, r.plan.start, reload, others);
    }

    /** Stop everything else, stop what has to be read anew, reload the network, and start. */
    method Switch(stop: seq<string>, again: seq<string>, start: seq<string>, reload: Reload, ghost others: set<string>)
        returns (ok: bool)
      requires orders == [] && others <= Elements(stop) && others !! Elements(start)
      modifies this
      ensures Exclusive(orders, others)
      ensures SameOutside(old(states), states, Elements(stop) + Elements(again) + Elements(start))
      ensures ok ==> AllAt(states, Elements(start), true) && AllAt(states, others, false) && !reload.Fails?
      ensures Told(orders) <= Tell(stop, false) + Tell(again, false) + Tell(start, true)
      ensures ok ==> Told(orders) == Tell(stop, false) + Tell(again, false) + Tell(start, true)
      ensures !reload.Fails? && old(reactions) == [] ==> ok
    {
      ok := StopTwice(stop, again, others);
      if !ok || reload.Fails? { return false; }
      ok := StartAll(start, others);
    }

    method StopTwice(stop: seq<string>, again: seq<string>, ghost others: set<string>) returns (ok: bool)
      requires orders == [] && others <= Elements(stop)
      modifies this
      ensures Exclusive(orders, others) && SameOutside(old(states), states, Elements(stop) + Elements(again))
      ensures ok ==> AllAt(states, others, false)
      ensures Told(orders) <= Tell(stop, false) + Tell(again, false)
      ensures ok ==> Told(orders) == Tell(stop, false) + Tell(again, false)
      ensures old(reactions) == [] ==> ok && reactions == []
    {
      ok := StopAll(stop, others);
      if !ok { return; }
      assert AllAt(states, others, false);
      ghost var before := states;
      ok := StopAll(again, others);
      if ok { StillAt(before, states, others, Elements(again)); }
    }
  }

  /** Units that were at rest are so still, or have been stopped again. */
  lemma StillAt(before: map<string, UnitState>, now: map<string, UnitState>, units: set<string>, again: set<string>)
    requires AllAt(before, units, false) && SameOutside(before, now, again) && AllAt(now, again, false)
    ensures AllAt(now, units, false)
  {
  }
}
