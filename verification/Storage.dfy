/**
 * The boot-time half of factory reset: `prepare` of mnc-storage with the label resolution it relies on.
 * The program's world is an effect trace; what it reads (lsblk, the mounted journal, /proc/cmdline)
 * and what becomes of each command are parameters.
 */
module Storage {
  import opened Configuration
  import opened Faults

  datatype Role = Factory | StateRole | DataRole

  type Path = seq<string>

  datatype Policy = Policy(disk: string, labels: map<Role, string>, settings: Path)

  /** `validate`: every role has a label, and no two share one. */
  ghost predicate ValidPolicy(p: Policy) {
    && p.labels.Keys == {Factory, StateRole, DataRole}
    && forall a, b :: a in p.labels && b in p.labels && a != b ==> p.labels[a] != p.labels[b]
  }

  // ---------------------------------------------------------------------------------------------
  // Resolving labels
  // ---------------------------------------------------------------------------------------------

  /** A row of `lsblk --json`; `tag` is its LABEL, missing attributes are empty strings. */
  datatype Node = Node(
    name: string,
    kind: string,
    filesystem: string,
    tag: string,
    parent: string,
    mounted: bool,
    children: seq<Node>)

  /** Depth first, a device before its children. */
  function Descendants(n: Node): (all: seq<Node>)
    ensures all != [] && all[0] == n
    decreases n, 1
  {
    [n] + Forest(n.children)
  }

  function Forest(nodes: seq<Node>): seq<Node>
    decreases nodes, 0
  {
    if nodes == [] then [] else Descendants(nodes[0]) + Forest(nodes[1..])
  }

  /** The node is listed, or lies below one that is. */
  ghost predicate Below(n: Node, nodes: seq<Node>) {
    exists m :: m in nodes && (n == m || Below(n, m.children))
  }

  lemma {:induction false} ForestIsEverything(nodes: seq<Node>, n: Node)
    ensures n in Forest(nodes) <==> Below(n, nodes)
    decreases nodes
  {
    if nodes != [] {
      ForestIsEverything(nodes[0].children, n);
      ForestIsEverything(nodes[1..], n);
      assert nodes == [nodes[0]] + nodes[1..];
      assert n in Descendants(nodes[0]) <==> n == nodes[0] || n in Forest(nodes[0].children);
    }
  }

  /** The nodes carrying a label, in inventory order. */
  function Labelled(nodes: seq<Node>, name: string): seq<Node> {
    if nodes == [] then []
    else (if nodes[0].tag == name then [nodes[0]] else []) + Labelled(nodes[1..], name)
  }

  /** The one ext4 partition of the policy disk that may stand for a role. */
  ghost predicate Stands(p: Policy, role: Role, nodes: seq<Node>, n: Node)
    requires role in p.labels
  {
    && n in nodes && n.tag == p.labels[role]
    && n.kind == "part" && n.parent == p.disk && n.filesystem == "ext4"
  }

  ghost predicate OnlyOne(nodes: seq<Node>, name: string, n: Node) {
    exists i :: 0 <= i < |nodes| && nodes[i] == n && forall j :: 0 <= j < |nodes| && j != i ==> nodes[j].tag != name
  }

  lemma {:induction false} LabelledNone(nodes: seq<Node>, name: string)
    ensures Labelled(nodes, name) == [] <==> forall i :: 0 <= i < |nodes| ==> nodes[i].tag != name
  {
    if nodes != [] {
      LabelledNone(nodes[1..], name);
      assert forall i :: 1 <= i < |nodes| ==> nodes[i] == nodes[1..][i - 1];
    }
  }

  lemma {:induction false} LabelledOne(nodes: seq<Node>, name: string)
    requires |Labelled(nodes, name)| == 1
    ensures Labelled(nodes, name)[0].tag == name
    ensures OnlyOne(nodes, name, Labelled(nodes, name)[0])
  {
    LabelledNone(nodes[1..], name);
    if nodes[0].tag == name {
      assert forall i :: 1 <= i < |nodes| ==> nodes[i] == nodes[1..][i - 1];
      assert nodes[0] == Labelled(nodes, name)[0];
    } else {
      LabelledOne(nodes[1..], name);
      var n := Labelled(nodes, name)[0];
      var k :| 0 <= k < |nodes[1..]| && nodes[1..][k] == n
               && forall j :: 0 <= j < |nodes[1..]| && j != k ==> nodes[1..][j].tag != name;
      assert nodes[k + 1] == n;
      assert forall j :: 1 <= j < |nodes| ==> nodes[j] == nodes[1..][j - 1];
    }
  }

  /** The device found for a role is the only node with its label; without one there is no such node. */
  ghost predicate Found(p: Policy, role: Role, nodes: seq<Node>, device: Option<string>)
    requires role in p.labels
  {
    match device
    case None => forall i :: 0 <= i < |nodes| ==> nodes[i].tag != p.labels[role]
    case Some(name) =>
      exists n :: Stands(p, role, nodes, n) && n.name == name && OnlyOne(nodes, p.labels[role], n)
  }

  /** A role whose label is duplicated anywhere, or sits on another disk or filesystem. */
  ghost predicate Misplaced(p: Policy, role: Role, nodes: seq<Node>)
    requires role in p.labels
  {
    var matches := Labelled(nodes, p.labels[role]);
    |matches| > 1 || (|matches| == 1 && !Stands(p, role, nodes, matches[0]))
  }

  method ResolveRole(p: Policy, role: Role, nodes: seq<Node>) returns (ok: bool, device: Option<string>)
    requires role in p.labels
    ensures ok <==> !Misplaced(p, role, nodes)
    ensures ok ==> Found(p, role, nodes, device)
  {
    var matches := Labelled(nodes, p.labels[role]);
    if |matches| > 1 { return false, None; }
    LabelledNone(nodes, p.labels[role]);
    if matches == [] { return true, None; }
    var n := matches[0];
    LabelledOne(nodes, p.labels[role]);
    if n.kind != "part" || n.parent != p.disk || n.filesystem != "ext4" { return false, None; }
    assert Stands(p, role, nodes, n);
    return true, Some(n.name);
  }

  function Lookup(devices: map<Role, string>, role: Role): Option<string> {
    if role in devices then Some(devices[role]) else None
  }

  ghost predicate Resolved(p: Policy, inventory: seq<Node>, devices: map<Role, string>)
    requires ValidPolicy(p)
  {
    forall r :: r in p.labels ==> Found(p, r, Forest(inventory), Lookup(devices, r))
  }

  method Resolve(p: Policy, inventory: seq<Node>) returns (devices: Option<map<Role, string>>)
    requires ValidPolicy(p)
    ensures devices.Some? ==> Resolved(p, inventory, devices.value) && devices.value.Keys <= p.labels.Keys
    ensures devices.None? <==> exists r :: r in p.labels && Misplaced(p, r, Forest(inventory))
  {
    var nodes := Forest(inventory);
    var ok, factory := ResolveRole(p, Factory, nodes);
    if !ok { return None; }
    var state;
    ok, state := ResolveRole(p, StateRole, nodes);
    if !ok { return None; }
    var data;
    ok, data := ResolveRole(p, DataRole, nodes);
    if !ok { return None; }
    var result: map<Role, string> := map[];
    if factory.Some? { result := result[Factory := factory.value]; }
    if state.Some? { result := result[StateRole := state.value]; }
    if data.Some? { result := result[DataRole := data.value]; }
    assert Lookup(result, Factory) == factory && Lookup(result, StateRole) == state && Lookup(result, DataRole) == data;
    return Some(result);
  }

  ghost predicate DistinctNames(nodes: seq<Node>) {
    forall i, j :: 0 <= i < j < |nodes| ==> nodes[i].name != nodes[j].name
  }

  /** Kernel device names are unique, so distinct labels keep the roles on distinct devices. */
  lemma RolesAreSeparate(p: Policy, inventory: seq<Node>, devices: map<Role, string>, a: Role, b: Role)
    requires ValidPolicy(p) && Resolved(p, inventory, devices) && DistinctNames(Forest(inventory))
    requires a in devices && b in devices && a != b
    ensures devices[a] != devices[b]
  {
    var nodes := Forest(inventory);
    assert a in p.labels && b in p.labels;
    var m :| Stands(p, a, nodes, m) && m.name == devices[a];
    var n :| Stands(p, b, nodes, n) && n.name == devices[b];
    var i :| 0 <= i < |nodes| && nodes[i] == m;
    var j :| 0 <= j < |nodes| && nodes[j] == n;
    assert i != j;
  }

  // ---------------------------------------------------------------------------------------------
  // Effects, and when each may happen
  // ---------------------------------------------------------------------------------------------

  datatype Status = Status(statePersistent: bool, dataPersistent: bool, resetPrepared: bool)

  /** Commands as they are issued, and whether each was seen to succeed; failed mounts are not on record. */
  datatype Effect =
    | Mkfs(device: string, done: bool)
    | Mount(role: Role, device: string, done: bool)
    | MountTmpfs(role: Role, done: bool)
    | Clear(tree: Path, done: bool)
    | NewMachineId(done: bool)
    | Publish(status: Status, done: bool)

  /** What this boot finds: the facts `prepare` reads, and the fates of its commands. */
  datatype Boot = Boot(
    maintenance: bool,
    snapshots: seq<seq<Node>>,
    recheck: seq<Node>,
    holders: bool,
    busy: set<Role>,
    links: set<Path>,
    intent: bool,
    machineId: bool,
    fates: seq<Fate>)

  const VAR_LIB: Path := ["os", "var-lib", "monutchee"]
  const SSH: Path := ["os", "ssh"]
  const ROOT_SSH: Path := ["os", "root-ssh"]

  /** The trees a reset deletes from the state filesystem, in order. */
  function ResetTrees(p: Policy): seq<Path> {
    [p.settings, VAR_LIB, SSH, ROOT_SSH]
  }

  ghost predicate Mounted(effects: seq<Effect>, role: Role) {
    exists i :: 0 <= i < |effects| && effects[i].Mount? && effects[i].role == role && effects[i].done
  }

  /** The data device carries a new filesystem: `mkfs.ext4` was issued and has succeeded. */
  ghost predicate Formatted(effects: seq<Effect>) {
    exists i :: 0 <= i < |effects| && effects[i].Mkfs? && effects[i].done
  }

  /** Every reset tree has been deleted completely. */
  ghost predicate Cleared(p: Policy, effects: seq<Effect>) {
    forall i :: 0 <= i < |ResetTrees(p)| ==> Clear(ResetTrees(p)[i], true) in effects
  }

  /** The role is mounted from its device or stands empty on a tmpfs. */
  ghost predicate Placed(effects: seq<Effect>, role: Role) {
    Mounted(effects, role) || MountTmpfs(role, true) in effects
  }

  ghost predicate AllPlaced(effects: seq<Effect>) {
    Placed(effects, Factory) && Placed(effects, StateRole) && Placed(effects, DataRole)
  }

  /** The inventory lists the device once, and not as mounted. */
  ghost predicate AtRest(nodes: seq<Node>, device: string) {
    exists i :: 0 <= i < |nodes| && nodes[i].name == device && !nodes[i].mounted
                && forall j :: 0 <= j < |nodes| && j != i ==> nodes[j].name != device
  }

  ghost predicate AllDone(effects: seq<Effect>) {
    forall i :: 0 <= i < |effects| ==> effects[i].done
  }

  /**
   * When a command may follow the ones already issued: only if every one of them has succeeded.
   * Formatting names only the resolved data device, needs persistent state that asks for it, and
   * cannot come once data is mounted, here or according to a second look at the inventory; nothing is
   * mounted over or deleted through a link. The status is published when every role has its place and
   * the machine has its id; its `reset_prepared` flag is set exactly for a wanted reset, after all of
   * it has been done.
   */
  ghost predicate Lawful(p: Policy, devices: map<Role, string>, boot: Boot, past: seq<Effect>, e: Effect) {
    AllDone(past) &&
    match e
    case Mkfs(device, _) =>
      && boot.intent && DataRole in devices && device == devices[DataRole]
      && Mounted(past, StateRole) && !Formatted(past) && !Mounted(past, DataRole)
      && AtRest(Forest(boot.recheck), device) && !boot.holders
    case Mount(role, device, _) =>
      role in devices && device == devices[role] && !Mounted(past, role) && role !in boot.busy
    case MountTmpfs(role, _) => !Mounted(past, role) && role !in boot.busy
    case Clear(tree, _) =>
      && tree in ResetTrees(p) && tree !in boot.links
      && boot.intent && Formatted(past) && Mounted(past, DataRole)
    case NewMachineId(_) => !boot.machineId
    case Publish(status, _) =>
      && AllPlaced(past) && (boot.machineId || NewMachineId(true) in past)
      && status.statePersistent == Mounted(past, StateRole)
      && status.dataPersistent == Mounted(past, DataRole)
      && status.resetPrepared == (boot.intent && Mounted(past, StateRole))
      && (status.resetPrepared ==> Formatted(past) && Mounted(past, DataRole) && Cleared(p, past))
  }

  ghost predicate LawfulTrace(p: Policy, devices: map<Role, string>, boot: Boot, effects: seq<Effect>) {
    forall i :: 0 <= i < |effects| ==> Lawful(p, devices, boot, effects[..i], effects[i])
  }

  lemma LawfulAppend(p: Policy, devices: map<Role, string>, boot: Boot, effects: seq<Effect>, e: Effect)
    requires LawfulTrace(p, devices, boot, effects) && Lawful(p, devices, boot, effects, e)
    ensures LawfulTrace(p, devices, boot, effects + [e])
  {
    forall i | 0 <= i < |effects + [e]|
      ensures Lawful(p, devices, boot, (effects + [e])[..i], (effects + [e])[i])
    {
      assert (effects + [e])[..i] == effects[..i];
      assert effects[..|effects|] == effects;
    }
  }

  lemma MountedAppend(effects: seq<Effect>, e: Effect, role: Role)
    ensures Mounted(effects + [e], role) <==> Mounted(effects, role) || (e.Mount? && e.role == role && e.done)
    ensures Formatted(effects + [e]) <==> Formatted(effects) || (e.Mkfs? && e.done)
    ensures AllDone(effects + [e]) <==> AllDone(effects) && e.done
  {
    assert (effects + [e])[|effects|] == e;
    assert forall i :: 0 <= i < |effects| ==> (effects + [e])[i] == effects[i];
  }

  // ---------------------------------------------------------------------------------------------
  // The program
  // ---------------------------------------------------------------------------------------------

  function Snapshot(boot: Boot, attempt: nat): seq<Node> {
    if attempt < |boot.snapshots| then boot.snapshots[attempt] else []
  }

  /** A role of the policy has no node that carries its label. */
  ghost predicate Incomplete(p: Policy, inventory: seq<Node>)
    requires ValidPolicy(p)
  {
    exists r :: r in p.labels && forall n :: Below(n, inventory) ==> n.tag != p.labels[r]
  }

  /**
   * The layout of the look that found it complete, or of the tenth; the looks before that one had something
   * missing.
   */
  ghost predicate FromSnapshot(p: Policy, boot: Boot, devices: map<Role, string>)
    requires ValidPolicy(p)
  {
    if boot.maintenance then devices == map[]
    else exists k :: 0 <= k < 10 && TakenAt(p, boot, k, devices) && (k == 9 || devices.Keys == p.labels.Keys)
  }

  ghost predicate TakenAt(p: Policy, boot: Boot, k: nat, devices: map<Role, string>)
    requires ValidPolicy(p)
  {
    && Resolved(p, Snapshot(boot, k), devices) && devices.Keys <= p.labels.Keys
    && forall j :: 0 <= j < k ==> Incomplete(p, Snapshot(boot, j))
  }

  lemma MissingRole(p: Policy, inventory: seq<Node>, devices: map<Role, string>)
    requires ValidPolicy(p) && Resolved(p, inventory, devices) && devices.Keys <= p.labels.Keys
    requires devices.Keys != p.labels.Keys
    ensures Incomplete(p, inventory)
  {
    var r :| r in p.labels && r !in devices;
    assert Found(p, r, Forest(inventory), Lookup(devices, r));
    forall n | Below(n, inventory)
      ensures n.tag != p.labels[r]
    {
      ForestIsEverything(inventory, n);
    }
  }

  /** Up to ten looks at the inventory, ended early by a complete layout. */
  method Enumerate(p: Policy, boot: Boot) returns (ok: bool, devices: map<Role, string>)
    requires ValidPolicy(p)
    ensures ok ==> FromSnapshot(p, boot, devices)
    ensures !ok ==> exists k, r :: 0 <= k < 10 && r in p.labels && Misplaced(p, r, Forest(Snapshot(boot, k)))
  {
    devices := map[];
    var attempts := if boot.maintenance then 0 else 10;
    for attempt := 0 to attempts
      invariant attempt > 0 ==> TakenAt(p, boot, attempt - 1, devices) && devices.Keys != p.labels.Keys
      invariant attempt == 0 ==> devices == map[]
    {
      if attempt > 0 { MissingRole(p, Snapshot(boot, attempt - 1), devices); }
      var found := Resolve(p, Snapshot(boot, attempt));
      if found.None? { return false, map[]; }
      devices := found.value;
      AllThree(p, devices);
      assert TakenAt(p, boot, attempt, devices);
      if |devices| == 3 { return true, devices; }
    }
    return true, devices;
  }

  lemma AllThree(p: Policy, devices: map<Role, string>)
    requires ValidPolicy(p) && devices.Keys <= p.labels.Keys
    ensures |devices| == 3 <==> devices.Keys == p.labels.Keys
  {
    var roles := {Factory, StateRole, DataRole};
    assert |devices| == |devices.Keys|;
    if devices.Keys != roles {
      var r :| r in roles && r !in devices.Keys;
      SubsetSize(devices.Keys, roles - {r});
    }
  }

  lemma {:induction false} SubsetSize(a: set<Role>, b: set<Role>)
    requires a <= b
    ensures |a| <= |b|
  {
    if a != {} {
      var x :| x in a;
      SubsetSize(a - {x}, b - {x});
    }
  }

  /** What the program knows between two of its steps. */
  datatype Progress = Progress(ok: bool, effects: seq<Effect>, fates: seq<Fate>)

  /** A command that has to succeed: it is on record either way, as done exactly when it is seen to succeed. */
  method Issue(p: Policy, devices: map<Role, string>, boot: Boot, s: Progress, e: Effect) returns (t: Progress)
    requires LawfulTrace(p, devices, boot, s.effects) && Lawful(p, devices, boot, s.effects, e)
    ensures t.ok <==> First(s.fates).Done?
    ensures t.effects == s.effects + [e.(done := First(s.fates).Done?)] && LawfulTrace(p, devices, boot, t.effects)
    ensures AllDone(t.effects) <==> t.ok
    ensures forall r :: Mounted(t.effects, r) <==> Mounted(s.effects, r) || (e.Mount? && e.role == r && t.ok)
    ensures Formatted(t.effects) <==> Formatted(s.effects) || (e.Mkfs? && t.ok)
    ensures s.fates == [] ==> t.ok && t.fates == []
  {
    var issued := e.(done := First(s.fates).Done?);
    LawfulAppend(p, devices, boot, s.effects, issued);
    MountedAppend(s.effects, issued, DataRole);
    forall r
      ensures Mounted(s.effects + [issued], r) <==>
                Mounted(s.effects, r) || (issued.Mount? && issued.role == r && issued.done)
    {
      MountedAppend(s.effects, issued, r);
    }
    t := Progress(issued.done, s.effects + [issued], Rest(s.fates));
  }

  /** The roles other than `role`, and formatting, are as before. */
  ghost predicate OnlyRole(before: seq<Effect>, after: seq<Effect>, role: Role) {
    && before <= after
    && (forall r :: r != role ==> (Mounted(after, r) <==> Mounted(before, r)))
    && (Formatted(after) <==> Formatted(before))
  }

  /** Check and mount a role's device; fall back to tmpfs when that fails. */
  method MountRole(p: Policy, devices: map<Role, string>, boot: Boot, s: Progress, role: Role) returns (t: Progress)
    requires LawfulTrace(p, devices, boot, s.effects) && AllDone(s.effects) && !Mounted(s.effects, role)
    requires role !in boot.busy
    ensures LawfulTrace(p, devices, boot, t.effects) && OnlyRole(s.effects, t.effects, role)
    ensures t.ok ==> AllDone(t.effects) && Placed(t.effects, role)
    ensures Mounted(t.effects, role) ==> role in devices
    ensures s.fates == [] ==> t.ok && t.fates == [] && (role in devices ==> Mounted(t.effects, role))
  {
    var fates := s.fates;
    if role in devices {
      var checked := Done;
      if role != Factory {
        checked, fates := First(fates), Rest(fates);
      }
      if checked.Crash? { return Progress(false, s.effects, fates); }
      if checked.Done? {
        if First(fates).Crash? { return Progress(false, s.effects, Rest(fates)); }
        if First(fates).Done? {
          t := Issue(p, devices, boot, Progress(true, s.effects, fates), Mount(role, devices[role], true));
          if role == DataRole {
            t := Progress(First(t.fates).Done?, t.effects, Rest(t.fates));
          }
          return;
        }
        fates := Rest(fates);
      }
    }
    t := Issue(p, devices, boot, Progress(true, s.effects, fates), MountTmpfs(role, true));
  }

  /** The guarded `mkfs.ext4` of the data device. */
  method FormatData(p: Policy, devices: map<Role, string>, boot: Boot, s: Progress) returns (t: Progress)
    requires LawfulTrace(p, devices, boot, s.effects) && AllDone(s.effects)
    requires boot.intent && Mounted(s.effects, StateRole) && !Mounted(s.effects, DataRole) && !Formatted(s.effects)
    ensures LawfulTrace(p, devices, boot, t.effects) && s.effects <= t.effects
    ensures forall r :: Mounted(t.effects, r) <==> Mounted(s.effects, r)
    ensures t.ok ==> Formatted(t.effects) && AllDone(t.effects)
    ensures s.fates == [] && Unused(boot, devices) ==> t.ok && t.fates == []
    ensures !Unused(boot, devices) ==> !t.ok && t.effects == s.effects
  {
    UnusedExactly(boot, devices);
    if !Unused(boot, devices) { return s.(ok := false); }
    t := Issue(p, devices, boot, s, Mkfs(devices[DataRole], true));
  }

  /** The second look at the data device, just before formatting it: one node, no mounts, no holders. */
  predicate Unused(boot: Boot, devices: map<Role, string>) {
    && DataRole in devices
    && var users := Named(Forest(boot.recheck), devices[DataRole]);
    && |users| == 1 && !users[0].mounted && !boot.holders
  }

  lemma UnusedExactly(boot: Boot, devices: map<Role, string>)
    ensures Unused(boot, devices) <==>
              DataRole in devices && AtRest(Forest(boot.recheck), devices[DataRole]) && !boot.holders
  {
    if DataRole in devices { NamedOnce(Forest(boot.recheck), devices[DataRole]); }
  }

  lemma {:induction false} NamedNone(nodes: seq<Node>, name: string)
    ensures Named(nodes, name) == [] <==> forall i :: 0 <= i < |nodes| ==> nodes[i].name != name
  {
    if nodes != [] {
      NamedNone(nodes[1..], name);
      assert forall i :: 1 <= i < |nodes| ==> nodes[i] == nodes[1..][i - 1];
    }
  }

  lemma {:induction false} NamedOnce(nodes: seq<Node>, name: string)
    ensures |Named(nodes, name)| == 1 && !Named(nodes, name)[0].mounted <==> AtRest(nodes, name)
  {
    if nodes != [] {
      NamedNone(nodes[1..], name);
      assert forall i :: 1 <= i < |nodes| ==> nodes[i] == nodes[1..][i - 1];
      if nodes[0].name != name {
        NamedOnce(nodes[1..], name);
        AtRestTail(nodes, name);
      } else if Named(nodes[1..], name) == [] {
        assert Named(nodes, name) == [nodes[0]];
      }
    }
  }

  lemma AtRestTail(nodes: seq<Node>, name: string)
    requires nodes != [] && nodes[0].name != name
    ensures AtRest(nodes, name) <==> AtRest(nodes[1..], name)
  {
    var tail := nodes[1..];
    assert forall i :: 1 <= i < |nodes| ==> nodes[i] == tail[i - 1];
    if k :| 0 <= k < |tail| && tail[k].name == name && !tail[k].mounted
            && forall j :: 0 <= j < |tail| && j != k ==> tail[j].name != name {
      assert nodes[k + 1] == tail[k];
    }
    if k :| 0 <= k < |nodes| && nodes[k].name == name && !nodes[k].mounted
            && forall j :: 0 <= j < |nodes| && j != k ==> nodes[j].name != name {
      assert tail[k - 1] == nodes[k];
      assert forall j :: 0 <= j < |tail| ==> tail[j] == nodes[j + 1];
    }
  }

  function Named(nodes: seq<Node>, name: string): seq<Node> {
    if nodes == [] then []
    else (if nodes[0].name == name then [nodes[0]] else []) + Named(nodes[1..], name)
  }

  ghost predicate ClearedUpTo(p: Policy, n: nat, effects: seq<Effect>) {
    forall k :: 0 <= k < n <= |ResetTrees(p)| ==> Clear(ResetTrees(p)[k], true) in effects
  }

  /** Nothing but more cleared trees. */
  ghost predicate Sweeping(p: Policy, devices: map<Role, string>, boot: Boot, before: seq<Effect>, after: seq<Effect>) {
    && LawfulTrace(p, devices, boot, after) && before <= after
    && Formatted(after) && (forall r :: Mounted(after, r) <==> Mounted(before, r))
  }

  method ClearTrees(p: Policy, devices: map<Role, string>, boot: Boot, s: Progress) returns (t: Progress)
    requires LawfulTrace(p, devices, boot, s.effects) && AllDone(s.effects)
    requires s.ok && boot.intent && Formatted(s.effects) && Mounted(s.effects, DataRole)
    ensures Sweeping(p, devices, boot, s.effects, t.effects)
    ensures t.ok ==> ClearedUpTo(p, |ResetTrees(p)|, t.effects) && AllDone(t.effects)
    ensures (exists i :: 0 <= i < |ResetTrees(p)| && ResetTrees(p)[i] in boot.links) ==> !t.ok
    ensures s.fates == [] && boot.links == {} ==> t.ok && t.fates == []
  {
    t := s;
    for i := 0 to |ResetTrees(p)|
      invariant t.ok && AllDone(t.effects) && Sweeping(p, devices, boot, s.effects, t.effects)
               && ClearedUpTo(p, i, t.effects)
      invariant forall k :: 0 <= k < i ==> ResetTrees(p)[k] !in boot.links
      invariant s.fates == [] ==> t.fates == []
    {
      if ResetTrees(p)[i] in boot.links { return t.(ok := false); }
      ghost var before := t.effects;
      t := ClearTree(p, devices, boot, t, ResetTrees(p)[i]);
      if !t.ok { return; }
      ClearedOneMore(p, i, before, t.effects);
    }
  }

  method ClearTree(p: Policy, devices: map<Role, string>, boot: Boot, s: Progress, tree: Path) returns (t: Progress)
    requires LawfulTrace(p, devices, boot, s.effects) && AllDone(s.effects) && tree in ResetTrees(p)
    requires tree !in boot.links && boot.intent && Formatted(s.effects) && Mounted(s.effects, DataRole)
    ensures Sweeping(p, devices, boot, s.effects, t.effects) && t.effects == s.effects + [Clear(tree, t.ok)]
    ensures AllDone(t.effects) <==> t.ok
    ensures s.fates == [] ==> t.ok && t.fates == []
  {
    t := Issue(p, devices, boot, s, Clear(tree, true));
  }

  lemma ClearedOneMore(p: Policy, n: nat, before: seq<Effect>, after: seq<Effect>)
    requires n < |ResetTrees(p)| && ClearedUpTo(p, n, before) && after == before + [Clear(ResetTrees(p)[n], true)]
    ensures ClearedUpTo(p, n + 1, after)
  {
    forall k | 0 <= k < n
      ensures Clear(ResetTrees(p)[k], true) in after
    {
      assert Clear(ResetTrees(p)[k], true) in before;
    }
    assert after[|before|] == Clear(ResetTrees(p)[n], true);
  }

  lemma ClearedGrows(p: Policy, before: seq<Effect>, after: seq<Effect>)
    requires Cleared(p, before) && before <= after
    ensures Cleared(p, after)
  {
    forall k | 0 <= k < |ResetTrees(p)|
      ensures Clear(ResetTrees(p)[k], true) in after
    {
      assert Clear(ResetTrees(p)[k], true) in before;
    }
  }

  /** A boot in which nothing is misplaced, in use, linked or failing. */
  ghost predicate Smooth(p: Policy, boot: Boot)
    requires ValidPolicy(p)
  {
    && boot.fates == [] && boot.busy == {} && boot.links == {}
    && forall k, r :: 0 <= k < 10 && r in p.labels ==> !Misplaced(p, r, Forest(Snapshot(boot, k)))
  }

  /** A wanted reset has been replayed. */
  ghost predicate Replayed(p: Policy, effects: seq<Effect>) {
    Formatted(effects) && Mounted(effects, DataRole) && Cleared(p, effects)
  }

  /** The data device is missing, listed as mounted or more than once, or held by another device. */
  ghost predicate InUse(boot: Boot, devices: map<Role, string>) {
    DataRole in devices ==> !AtRest(Forest(boot.recheck), devices[DataRole]) || boot.holders
  }

  lemma PlacedGrows(before: seq<Effect>, after: seq<Effect>, role: Role)
    requires Placed(before, role) && before <= after
    ensures Placed(after, role)
  {
    if i :| 0 <= i < |before| && before[i].Mount? && before[i].role == role && before[i].done {
      assert after[i] == before[i];
    }
  }

  lemma AllPlacedGrows(before: seq<Effect>, after: seq<Effect>)
    requires AllPlaced(before) && before <= after
    ensures AllPlaced(after)
  {
    PlacedGrows(before, after, Factory);
    PlacedGrows(before, after, StateRole);
    PlacedGrows(before, after, DataRole);
  }

  /** The data role: formatted first, and the reset trees cleared, when mounted state asks for it. */
  method PrepareData(p: Policy, devices: map<Role, string>, boot: Boot, s: Progress)
      returns (t: Progress, resetting: bool)
    requires LawfulTrace(p, devices, boot, s.effects) && AllDone(s.effects) && s.ok
             && !Mounted(s.effects, DataRole) && !Formatted(s.effects) && DataRole !in boot.busy
    ensures LawfulTrace(p, devices, boot, t.effects) && s.effects <= t.effects
    ensures t.ok ==> Placed(t.effects, DataRole)
    ensures resetting && InUse(boot, devices) ==> !t.ok && t.effects == s.effects
    ensures resetting == (boot.intent && Mounted(s.effects, StateRole))
    ensures Mounted(t.effects, StateRole) <==> Mounted(s.effects, StateRole)
    ensures t.ok ==> AllDone(t.effects) && (resetting ==> Replayed(p, t.effects))
    ensures s.fates == [] && boot.links == {} && Unused(boot, devices) ==>
              t.ok && t.fates == [] && Mounted(t.effects, DataRole)
  {
    resetting := boot.intent && MountsIn(s.effects, StateRole);
    t := s;
    UnusedExactly(boot, devices);
    if resetting {
      t := FormatData(p, devices, boot, t);
      if !t.ok { return; }
    }
    t := MountRole(p, devices, boot, t, DataRole);
    if !t.ok { return; }
    if resetting {
      t := ReplayTrees(p, devices, boot, t);
    }
  }

  /** What is left of a reset once data is in place: it has to be persistent, and then the trees go. */
  method ReplayTrees(p: Policy, devices: map<Role, string>, boot: Boot, s: Progress) returns (t: Progress)
    requires LawfulTrace(p, devices, boot, s.effects) && AllDone(s.effects) && s.ok && boot.intent
             && Formatted(s.effects)
    requires Placed(s.effects, DataRole)
    ensures LawfulTrace(p, devices, boot, t.effects) && s.effects <= t.effects && Placed(t.effects, DataRole)
    ensures forall r :: Mounted(t.effects, r) <==> Mounted(s.effects, r)
    ensures t.ok ==> AllDone(t.effects) && Replayed(p, t.effects)
    ensures s.fates == [] && boot.links == {} && Mounted(s.effects, DataRole) ==> t.ok && t.fates == []
  {
    if !MountsIn(s.effects, DataRole) { return s.(ok := false); }
    t := ClearTrees(p, devices, boot, s);
    PlacedGrows(s.effects, t.effects, DataRole);
  }

  /** The machine id, the directories of the system, and the published status. */
  method Conclude(p: Policy, devices: map<Role, string>, boot: Boot, s: Progress, resetting: bool) returns (t: Progress)
    requires LawfulTrace(p, devices, boot, s.effects) && resetting == (boot.intent && Mounted(s.effects, StateRole))
    requires AllDone(s.effects) && (resetting ==> Replayed(p, s.effects)) && AllPlaced(s.effects)
    ensures LawfulTrace(p, devices, boot, t.effects) && s.effects <= t.effects
    ensures t.ok ==> AllDone(t.effects)
    ensures t.ok ==>
              Published(t.effects, Status(MountsIn(s.effects, StateRole), MountsIn(s.effects, DataRole), resetting))
    ensures s.fates == [] ==> t.ok
  {
    t := s;
    if !boot.machineId {
      t := Issue(p, devices, boot, s, NewMachineId(true));
      if !t.ok { return; }
    }
    if resetting { ClearedGrows(p, s.effects, t.effects); }
    AllPlacedGrows(s.effects, t.effects);
    // Bind mounts, the hostname file and the time zone link.
    t := Progress(First(t.fates).Done?, t.effects, Rest(t.fates));
    if !t.ok { return; }
    var status := Status(MountsIn(t.effects, StateRole), MountsIn(t.effects, DataRole), resetting);
    t := Issue(p, devices, boot, t, Publish(status, true));
  }

  ghost predicate Published(effects: seq<Effect>, status: Status) {
    effects != [] && effects[|effects| - 1] == Publish(status, true)
  }

  /** `prepare`: every trace it can leave behind, complete or cut short anywhere, is lawful. */
  method Prepare(p: Policy, boot: Boot) returns (ok: bool, devices: map<Role, string>, effects: seq<Effect>)
    requires ValidPolicy(p)
    ensures effects != [] ==> FromSnapshot(p, boot, devices)
    ensures LawfulTrace(p, devices, boot, effects)
    ensures ok ==> AllDone(effects) && effects != [] && effects[|effects| - 1].Publish?
    ensures Smooth(p, boot) && devices.Keys == p.labels.Keys && Unused(boot, devices) ==>
              ok && Published(effects, Status(true, true, boot.intent))
    ensures boot.intent && Mounted(effects, StateRole) && InUse(boot, devices) ==>
              !ok && forall i :: 0 <= i < |effects| ==> !effects[i].Mkfs?
  {
    effects := [];
    ok, devices := Enumerate(p, boot);
    if !ok { return; }
    ok, effects := PrepareOn(p, devices, boot);
  }

  /** The boot on the devices found. */
  method PrepareOn(p: Policy, devices: map<Role, string>, boot: Boot) returns (ok: bool, effects: seq<Effect>)
    ensures LawfulTrace(p, devices, boot, effects)
    ensures ok ==> AllDone(effects) && effects != [] && effects[|effects| - 1].Publish?
    ensures boot.fates == [] && boot.busy == {} && boot.links == {} && StateRole in devices && Unused(boot, devices) ==>
              ok && Published(effects, Status(true, true, boot.intent))
    ensures boot.intent && Mounted(effects, StateRole) && InUse(boot, devices) ==>
              !ok && forall i :: 0 <= i < |effects| ==> !effects[i].Mkfs?
  {
    var s, resetting := PrepareRoles(p, devices, boot);
    if s.ok { s := Conclude(p, devices, boot, s, resetting); }
    effects, ok := s.effects, s.ok;
    InUseIsRefused(p, boot, devices, effects);
  }

  /** The loop over the roles, in their order. */
  method PrepareRoles(p: Policy, devices: map<Role, string>, boot: Boot) returns (s: Progress, resetting: bool)
    ensures LawfulTrace(p, devices, boot, s.effects)
    ensures s.ok ==> AllDone(s.effects) && AllPlaced(s.effects)
    ensures s.ok ==> resetting == (boot.intent && Mounted(s.effects, StateRole))
    ensures s.ok && resetting ==> Replayed(p, s.effects)
    ensures boot.fates == [] && boot.busy == {} && boot.links == {} && StateRole in devices && Unused(boot, devices) ==>
              s.ok && s.fates == [] && Mounted(s.effects, StateRole) && Mounted(s.effects, DataRole)
  {
    resetting := false;
    s := PrepareBoth(p, devices, boot);
    if !s.ok || DataRole in boot.busy { return s.(ok := false), resetting; }
    ghost var before := s.effects;
    s, resetting := PrepareData(p, devices, boot, s);
    if s.ok {
      PlacedGrows(before, s.effects, Factory);
      PlacedGrows(before, s.effects, StateRole);
    }
  }

  /** The factory and the state role. */
  method PrepareBoth(p: Policy, devices: map<Role, string>, boot: Boot) returns (s: Progress)
    ensures LawfulTrace(p, devices, boot, s.effects) && !Mounted(s.effects, DataRole) && !Formatted(s.effects)
    ensures s.ok ==> AllDone(s.effects) && Placed(s.effects, Factory) && Placed(s.effects, StateRole)
    ensures boot.fates == [] && boot.busy == {} && StateRole in devices ==>
              s.ok && s.fates == [] && Mounted(s.effects, StateRole)
  {
    s := Progress(true, [], boot.fates);
    if Factory in boot.busy { return s.(ok := false); }
    s := MountRole(p, devices, boot, s, Factory);
    if !s.ok || StateRole in boot.busy { return s.(ok := false); }
    ghost var before := s.effects;
    s := MountRole(p, devices, boot, s, StateRole);
    PlacedGrows(before, s.effects, Factory);
  }

  /** A lawful trace never formats a device in use, and never publishes a status for a reset that could not format. */
  lemma InUseIsRefused(p: Policy, boot: Boot, devices: map<Role, string>, effects: seq<Effect>)
    requires LawfulTrace(p, devices, boot, effects)
    ensures InUse(boot, devices) ==> forall i :: 0 <= i < |effects| ==> !effects[i].Mkfs?
    ensures InUse(boot, devices) && boot.intent && Mounted(effects, StateRole) ==>
              effects == [] || !effects[|effects| - 1].Publish?
  {
    if InUse(boot, devices) {
      forall i | 0 <= i < |effects|
        ensures !effects[i].Mkfs?
      {
        assert Lawful(p, devices, boot, effects[..i], effects[i]);
      }
      if effects != [] && effects[|effects| - 1].Publish? {
        var n := |effects| - 1;
        assert Lawful(p, devices, boot, effects[..n], effects[n]);
        if k :| 0 <= k < |effects| && effects[k].Mount? && effects[k].role == StateRole && effects[k].done {
          assert effects[..n][k] == effects[k];
        }
      }
    }
  }

  predicate MountsIn(effects: seq<Effect>, role: Role)
    ensures MountsIn(effects, role) <==> Mounted(effects, role)
  {
    exists i :: 0 <= i < |effects| && effects[i].Mount? && effects[i].role == role && effects[i].done
  }

  // ---------------------------------------------------------------------------------------------
  // What every trace keeps
  // ---------------------------------------------------------------------------------------------

  /**
   * Reset replay is confined: only the data device is ever formatted, once, and only for a reset
   * that the mounted persistent state asks for; the factory and state devices never are.
   */
  lemma ReplayIsConfined(p: Policy, boot: Boot, inventory: seq<Node>, devices: map<Role, string>,
                         effects: seq<Effect>, i: nat)
    requires ValidPolicy(p) && Resolved(p, inventory, devices) && DistinctNames(Forest(inventory))
    requires LawfulTrace(p, devices, boot, effects) && i < |effects| && effects[i].Mkfs?
    ensures boot.intent && Mounted(effects[..i], StateRole)
    ensures DataRole in devices && effects[i].device == devices[DataRole]
    ensures !boot.holders && exists k :: 0 <= k < |Forest(boot.recheck)|
                                         && Forest(boot.recheck)[k].name == effects[i].device
                                         && !Forest(boot.recheck)[k].mounted
                                         && forall j :: 0 <= j < |Forest(boot.recheck)| && j != k ==>
                                              Forest(boot.recheck)[j].name != effects[i].device
    ensures forall r :: r in devices && r != DataRole ==> effects[i].device != devices[r]
    ensures forall j :: 0 <= j < |effects| && effects[j].Mkfs? ==> j == i
  {
    assert Lawful(p, devices, boot, effects[..i], effects[i]);
    forall r | r in devices && r != DataRole
      ensures effects[i].device != devices[r]
    {
      assert r in p.labels && DataRole in p.labels;
      RolesAreSeparate(p, inventory, devices, DataRole, r);
    }
    forall j | 0 <= j < |effects| && effects[j].Mkfs?
      ensures j == i
    {
      var second := if i < j then j else i;
      assert Lawful(p, devices, boot, effects[..second], effects[second]);
    }
  }

  /**
   * `reset_prepared` is on record only after the data device was formatted, with success, then
   * mounted, and every tree cleared, and nothing issued before it has failed.
   */
  lemma PreparedMeansDone(p: Policy, boot: Boot, devices: map<Role, string>, effects: seq<Effect>, i: nat)
    requires LawfulTrace(p, devices, boot, effects)
    requires i < |effects| && effects[i].Publish? && effects[i].status.resetPrepared
    ensures boot.intent && DataRole in devices && AllDone(effects[..i])
    ensures forall tree :: tree in [p.settings, ["os", "var-lib", "monutchee"], ["os", "ssh"], ["os", "root-ssh"]] ==>
              Clear(tree, true) in effects[..i] && tree !in boot.links
    ensures exists j, k :: 0 <= j < k < i
                           && effects[j] == Mkfs(devices[DataRole], true)
                           && effects[k] == Mount(DataRole, devices[DataRole], true)
  {
    assert Lawful(p, devices, boot, effects[..i], effects[i]);
    TreesCleared(p, boot, devices, effects, i);
    var j := FormatStep(p, boot, devices, effects, i);
    var k := MountStep(p, boot, devices, effects, i);
    assert Lawful(p, devices, boot, effects[..j], effects[j]);
    assert forall x :: 0 <= x < j ==> effects[..j][x] == effects[x];
  }

  lemma TreesCleared(p: Policy, boot: Boot, devices: map<Role, string>, effects: seq<Effect>, i: nat)
    requires LawfulTrace(p, devices, boot, effects) && i <= |effects| && Cleared(p, effects[..i])
    ensures forall tree :: tree in [p.settings, ["os", "var-lib", "monutchee"], ["os", "ssh"], ["os", "root-ssh"]] ==>
              Clear(tree, true) in effects[..i] && tree !in boot.links
  {
    var trees := [p.settings, ["os", "var-lib", "monutchee"], ["os", "ssh"], ["os", "root-ssh"]];
    assert ResetTrees(p) == trees;
    forall tree | tree in trees
      ensures Clear(tree, true) in effects[..i] && tree !in boot.links
    {
      var n :| 0 <= n < |trees| && trees[n] == tree;
      assert Clear(ResetTrees(p)[n], true) in effects[..i];
      var k :| 0 <= k < i && effects[k] == Clear(tree, true);
      assert Lawful(p, devices, boot, effects[..k], effects[k]);
    }
  }

  lemma FormatStep(p: Policy, boot: Boot, devices: map<Role, string>, effects: seq<Effect>, i: nat) returns (j: nat)
    requires LawfulTrace(p, devices, boot, effects) && i <= |effects| && Formatted(effects[..i])
    ensures j < i && DataRole in devices && effects[j] == Mkfs(devices[DataRole], true)
  {
    j :| 0 <= j < |effects[..i]| && effects[..i][j].Mkfs? && effects[..i][j].done;
    assert Lawful(p, devices, boot, effects[..j], effects[j]);
  }

  lemma MountStep(p: Policy, boot: Boot, devices: map<Role, string>, effects: seq<Effect>, i: nat) returns (k: nat)
    requires LawfulTrace(p, devices, boot, effects) && i <= |effects| && Mounted(effects[..i], DataRole)
    ensures k < i && DataRole in devices && effects[k] == Mount(DataRole, devices[DataRole], true)
  {
    k :| 0 <= k < |effects[..i]| && effects[..i][k].Mount? && effects[..i][k].role == DataRole && effects[..i][k].done;
    assert Lawful(p, devices, boot, effects[..k], effects[k]);
  }

  const MACHINE_ID: Path := ["os", "machine-id"]

  /** No run deletes the machine-id unless the policy's settings path is `os` or the file itself. */
  lemma MachineIdSurvives(p: Policy, boot: Boot, devices: map<Role, string>, effects: seq<Effect>, i: nat)
    requires LawfulTrace(p, devices, boot, effects) && i < |effects| && effects[i].Clear?
    requires p.settings != []
    ensures effects[i].tree <= MACHINE_ID ==> p.settings == ["os"] || p.settings == MACHINE_ID
    ensures boot.intent
  {
    assert Lawful(p, devices, boot, effects[..i], effects[i]);
    var tree := effects[i].tree;
    if tree <= MACHINE_ID {
      assert tree != SSH && tree != ROOT_SSH && tree != VAR_LIB by {
        assert SSH[1] != MACHINE_ID[1] && ROOT_SSH[1] != MACHINE_ID[1] && |VAR_LIB| > |MACHINE_ID|;
      }
      assert tree == MACHINE_ID[..|tree|];
    }
  }
}
