/** The payload tree of an artifact and the order in which mnc-artifact.py walks it. */
module PayloadTree {
  import opened Configuration
  import opened Text

  type Bytes = seq<nat>

  /** A directory lists its entries in whatever order the file system enumerates them. */
  datatype Node = File(data: Bytes, mode: nat) | Directory(entries: seq<Entry>) | Symlink | Special
  datatype Entry = Entry(name: string, node: Node)

  datatype Found = Found(path: seq<string>, data: Bytes, mode: nat)

  // ---------------------------------------------------------------------------------------------
  // Names in order
  // ---------------------------------------------------------------------------------------------

  predicate Leq(a: string, b: string) {
    a == "" || (b != "" && (a[0] < b[0] || (a[0] == b[0] && Leq(a[1..], b[1..]))))
  }

  /** The order is by code points: a prefix comes first, otherwise the first difference decides. */
  lemma {:induction false} LeqExactly(a: string, b: string)
    ensures Leq(a, b) <==> a <= b || Decided(a, b)
  {
    if a != "" && b != "" {
      LeqExactly(a[1..], b[1..]);
      assert a == [a[0]] + a[1..] && b == [b[0]] + b[1..];
      if a[0] == b[0] {
        DifferLater(a, b);
      } else {
        assert DiffersAt(a, b, 0);
      }
    }
  }

  ghost predicate Decided(a: string, b: string) {
    exists k: nat :: DiffersAt(a, b, k) && a[k] < b[k]
  }

  lemma DifferLater(a: string, b: string)
    requires a != "" && b != "" && a[0] == b[0]
    ensures Decided(a, b) <==> Decided(a[1..], b[1..])
  {
    if k: nat :| DiffersAt(a[1..], b[1..], k) && a[1..][k] < b[1..][k] {
      assert a[..k + 1] == [a[0]] + a[1..][..k] && b[..k + 1] == [b[0]] + b[1..][..k];
      assert DiffersAt(a, b, k + 1);
    }
    if k: nat :| DiffersAt(a, b, k) && a[k] < b[k] {
      assert k > 0;
      assert a[1..][..k - 1] == a[..k][1..] && b[1..][..k - 1] == b[..k][1..];
      assert DiffersAt(a[1..], b[1..], k - 1);
    }
  }

  /** The first place at which the names differ. */
  predicate DiffersAt(a: string, b: string, k: nat) {
    k < |a| && k < |b| && a[..k] == b[..k] && a[k] != b[k]
  }

  lemma {:induction false} LeqTotal(a: string, b: string)
    ensures Leq(a, b) || Leq(b, a)
    ensures Leq(a, b) && Leq(b, a) ==> a == b
  {
    if a != "" && b != "" && a[0] == b[0] {
      LeqTotal(a[1..], b[1..]);
      assert a == [a[0]] + a[1..] && b == [b[0]] + b[1..];
    }
  }

  lemma {:induction false} LeqTransitive(a: string, b: string, c: string)
    requires Leq(a, b) && Leq(b, c)
    ensures Leq(a, c)
  {
    if a != "" && a[0] == b[0] && b[0] == c[0] { LeqTransitive(a[1..], b[1..], c[1..]); }
  }

  function Insert(e: Entry, es: seq<Entry>): (r: seq<Entry>)
    ensures |r| == |es| + 1
  {
    if es == [] || Leq(e.name, es[0].name) then [e] + es else [es[0]] + Insert(e, es[1..])
  }

  /** `sorted` by name. */
  function Sort(es: seq<Entry>): (r: seq<Entry>)
    ensures |r| == |es|
  {
    if es == [] then [] else Insert(es[0], Sort(es[1..]))
  }

  /** The head is below the rest, recursively. */
  ghost predicate Sorted(es: seq<Entry>) {
    es != [] ==> (forall e :: e in es[1..] ==> Leq(es[0].name, e.name)) && Sorted(es[1..])
  }

  ghost predicate NoNameTwice(es: seq<Entry>) {
    forall i, j :: 0 <= i < j < |es| ==> es[i].name != es[j].name
  }

  lemma {:induction false} InsertHolds(e: Entry, es: seq<Entry>)
    ensures multiset(Insert(e, es)) == multiset(es) + multiset{e}
    ensures Weight(Insert(e, es)) == Weight([e]) + Weight(es)
  {
    if es == [] || Leq(e.name, es[0].name) {
      assert ([e] + es)[1..] == es;
    } else {
      InsertHolds(e, es[1..]);
      assert es == [es[0]] + es[1..];
      assert ([es[0]] + Insert(e, es[1..]))[1..] == Insert(e, es[1..]);
    }
  }

  lemma InsertMembers(e: Entry, es: seq<Entry>, x: Entry)
    ensures x in Insert(e, es) <==> x == e || x in es
  {
    InsertHolds(e, es);
    assert x in Insert(e, es) <==> x in multiset(Insert(e, es));
  }

  lemma {:induction false} InsertSorts(e: Entry, es: seq<Entry>)
    requires Sorted(es)
    ensures Sorted(Insert(e, es))
  {
    var r := Insert(e, es);
    if es == [] || Leq(e.name, es[0].name) {
      assert r[1..] == es;
      forall x | x in es
        ensures Leq(e.name, x.name)
      {
        if x != es[0] {
          assert x in es[1..];
          LeqTransitive(e.name, es[0].name, x.name);
        }
      }
    } else {
      InsertSorts(e, es[1..]);
      assert r[1..] == Insert(e, es[1..]);
      LeqTotal(e.name, es[0].name);
      forall x | x in r[1..]
        ensures Leq(es[0].name, x.name)
      {
        InsertMembers(e, es[1..], x);
      }
    }
  }

  /** The sorted list is an ordered permutation. */
  lemma {:induction false} SortHolds(es: seq<Entry>)
    ensures Sorted(Sort(es)) && multiset(Sort(es)) == multiset(es)
    ensures Weight(Sort(es)) == Weight(es)
  {
    if es != [] {
      SortHolds(es[1..]);
      InsertSorts(es[0], Sort(es[1..]));
      InsertHolds(es[0], Sort(es[1..]));
      assert es == [es[0]] + es[1..];
    }
  }

  lemma SortMembers(es: seq<Entry>)
    ensures forall e :: e in Sort(es) <==> e in es
  {
    SortHolds(es);
    assert forall e :: e in Sort(es) <==> e in multiset(Sort(es));
  }

  lemma {:induction false} SortDistinct(es: seq<Entry>)
    requires NoNameTwice(es)
    ensures NoNameTwice(Sort(es))
  {
    if es != [] {
      assert NoNameTwice(es[1..]);
      SortDistinct(es[1..]);
      SortMembers(es[1..]);
      forall e | e in Sort(es[1..])
        ensures e.name != es[0].name
      {
        var k :| 0 <= k < |es[1..]| && es[1..][k] == e;
      }
      InsertDistinct(es[0], Sort(es[1..]));
    }
  }

  lemma {:induction false} InsertDistinct(e: Entry, es: seq<Entry>)
    requires NoNameTwice(es) && forall x :: x in es ==> x.name != e.name
    ensures NoNameTwice(Insert(e, es))
  {
    if es != [] && !Leq(e.name, es[0].name) {
      assert forall x :: x in es[1..] ==> x in es;
      InsertDistinct(e, es[1..]);
      forall x | x in Insert(e, es[1..])
        ensures x.name != es[0].name
      {
        InsertMembers(e, es[1..], x);
        if x in es[1..] { var k :| 0 <= k < |es[1..]| && es[1..][k] == x; }
      }
    }
  }

  // ---------------------------------------------------------------------------------------------
  // The walk
  // ---------------------------------------------------------------------------------------------

  function NodeWeight(n: Node): nat {
    if n.Directory? then 1 + Weight(n.entries) else 1
  }

  function Weight(es: seq<Entry>): nat {
    if es == [] then 0 else 1 + NodeWeight(es[0].node) + Weight(es[1..])
  }

  /** `walk_payload`: None where the source raises. */
  function Walk(es: seq<Entry>, prefix: seq<string>): Option<seq<Found>>
    decreases Weight(es), 1
  {
    SortHolds(es);
    WalkOrdered(Sort(es), prefix)
  }

  function WalkOrdered(es: seq<Entry>, prefix: seq<string>): Option<seq<Found>>
    decreases Weight(es), 0
  {
    if es == [] then Some([])
    else
      var here := WalkEntry(es[0], prefix);
      var rest := WalkOrdered(es[1..], prefix);
      if here.None? || rest.None? then None else Some(here.value + rest.value)
  }

  function WalkEntry(e: Entry, prefix: seq<string>): Option<seq<Found>>
    decreases NodeWeight(e.node), 0
  {
    match e.node
    case Symlink => None
    case Special => None
    case Directory(inner) => Walk(inner, prefix + [e.name])
    case File(data, mode) => Some([Found(prefix + [e.name], data, mode)])
  }

  // ---------------------------------------------------------------------------------------------
  // What a tree is, whatever the order of enumeration
  // ---------------------------------------------------------------------------------------------

  /** A directory never lists a name twice, and a name is one non-empty path component. */
  ghost predicate WellFormed(es: seq<Entry>) {
    && NoNameTwice(es)
    && (forall e :: e in es ==> e.name != "" && '/' !in e.name)
    && (forall e :: e in es && e.node.Directory? ==> WellFormed(e.node.entries))
  }

  ghost function Names(es: seq<Entry>): set<string> { set e | e in es :: e.name }

  ghost predicate Same(a: Node, b: Node) {
    match a
    case Directory(es) => b.Directory? && SameEntries(es, b.entries)
    case _ => a == b
  }

  /** The same names on both sides, standing for the same nodes. */
  ghost predicate SameEntries(a: seq<Entry>, b: seq<Entry>) {
    && Names(a) == Names(b)
    && (forall e, f :: e in a && f in b && e.name == f.name ==> Same(e.node, f.node))
  }

  ghost predicate OnlyFiles(es: seq<Entry>) {
    forall e :: e in es ==> e.node.File? || (e.node.Directory? && OnlyFiles(e.node.entries))
  }

  /** The file lies at this path below the directory. */
  ghost predicate Holds(es: seq<Entry>, path: seq<string>, data: Bytes, mode: nat)
    decreases |path|
  {
    path != [] && exists e :: e in es && HoldsAt(e, path, data, mode)
  }

  ghost predicate HoldsAt(e: Entry, path: seq<string>, data: Bytes, mode: nat)
    requires path != []
    decreases |path|, 0
  {
    && e.name == path[0]
    && if |path| == 1 then e.node == File(data, mode)
       else e.node.Directory? && Holds(e.node.entries, path[1..], data, mode)
  }

  // ---------------------------------------------------------------------------------------------
  // The order of the walk does not depend on the order of enumeration
  // ---------------------------------------------------------------------------------------------

  ghost predicate InnerWellFormed(es: seq<Entry>) {
    forall e :: e in es && e.node.Directory? ==> WellFormed(e.node.entries)
  }

  lemma {:induction false} WalkIsDeterministic(a: seq<Entry>, b: seq<Entry>, prefix: seq<string>)
    requires WellFormed(a) && WellFormed(b) && SameEntries(a, b)
    ensures Walk(a, prefix) == Walk(b, prefix)
    decreases Weight(a), 1
  {
    SortHolds(a);
    SortHolds(b);
    SortDistinct(a);
    SortDistinct(b);
    SortSame(a, b);
    OrderedSame(Sort(a), Sort(b), prefix);
  }

  lemma SortSame(a: seq<Entry>, b: seq<Entry>)
    requires InnerWellFormed(a) && InnerWellFormed(b) && SameEntries(a, b)
    ensures InnerWellFormed(Sort(a)) && InnerWellFormed(Sort(b)) && SameEntries(Sort(a), Sort(b))
  {
    SortMembers(a);
    SortMembers(b);
    assert Names(Sort(a)) == Names(a) && Names(Sort(b)) == Names(b);
  }

  lemma NoNames(es: seq<Entry>)
    ensures Names(es) == {} <==> es == []
  {
    if es != [] { assert es[0].name in Names(es); }
  }

  lemma {:induction false} OrderedSame(s: seq<Entry>, t: seq<Entry>, prefix: seq<string>)
    requires Sorted(s) && Sorted(t) && NoNameTwice(s) && NoNameTwice(t)
    requires InnerWellFormed(s) && InnerWellFormed(t) && SameEntries(s, t)
    ensures WalkOrdered(s, prefix) == WalkOrdered(t, prefix)
    decreases Weight(s), 0
  {
    if s == [] {
      NoNames(s);
      NoNames(t);
    } else {
      Heads(s, t);
      Tails(s, t);
      EntrySame(s[0], t[0], prefix);
      OrderedSame(s[1..], t[1..], prefix);
    }
  }

  lemma {:induction false} EntrySame(e: Entry, f: Entry, prefix: seq<string>)
    requires e.name == f.name && Same(e.node, f.node)
    requires e.node.Directory? ==> WellFormed(e.node.entries)
    requires f.node.Directory? ==> WellFormed(f.node.entries)
    ensures WalkEntry(e, prefix) == WalkEntry(f, prefix)
    decreases NodeWeight(e.node), 0
  {
    if e.node.Directory? {
      WalkIsDeterministic(e.node.entries, f.node.entries, prefix + [e.name]);
    }
  }

  lemma HeadIsLeast(es: seq<Entry>, e: Entry)
    requires Sorted(es) && e in es
    ensures Leq(es[0].name, e.name)
  {
    LeqTotal(e.name, e.name);
    if e != es[0] { assert e in es[1..]; }
  }

  lemma Heads(s: seq<Entry>, t: seq<Entry>)
    requires Sorted(s) && Sorted(t) && Names(s) == Names(t) && s != []
    ensures t != [] && s[0].name == t[0].name
  {
    assert s[0].name in Names(t);
    var f :| f in t && f.name == s[0].name;
    assert t[0].name in Names(s);
    var e :| e in s && e.name == t[0].name;
    HeadIsLeast(s, e);
    HeadIsLeast(t, f);
    LeqTotal(s[0].name, t[0].name);
  }

  lemma TailNames(es: seq<Entry>)
    requires NoNameTwice(es) && es != []
    ensures Names(es[1..]) == Names(es) - {es[0].name}
  {
    assert es == [es[0]] + es[1..];
    forall e | e in es[1..]
      ensures e.name != es[0].name
    {
      var k :| 0 <= k < |es[1..]| && es[1..][k] == e;
      assert es[k + 1].name != es[0].name;
    }
  }

  lemma Tails(s: seq<Entry>, t: seq<Entry>)
    requires NoNameTwice(s) && NoNameTwice(t) && SameEntries(s, t) && s != [] && t != [] && s[0].name == t[0].name
    ensures SameEntries(s[1..], t[1..]) && Same(s[0].node, t[0].node)
  {
    TailNames(s);
    TailNames(t);
    assert forall e :: e in s[1..] ==> e in s;
    assert forall f :: f in t[1..] ==> f in t;
    assert s[0] in s && t[0] in t;
  }

  // ---------------------------------------------------------------------------------------------
  // Each file is listed, once, and nothing else is
  // ---------------------------------------------------------------------------------------------

  lemma {:induction false} WalkRefuses(es: seq<Entry>, prefix: seq<string>)
    ensures Walk(es, prefix).Some? <==> OnlyFiles(es)
    decreases Weight(es), 1
  {
    SortHolds(es);
    SortMembers(es);
    OrderedRefuses(Sort(es), prefix);
  }

  lemma {:induction false} OrderedRefuses(es: seq<Entry>, prefix: seq<string>)
    ensures WalkOrdered(es, prefix).Some? <==> OnlyFiles(es)
    decreases Weight(es), 0
  {
    if es != [] {
      OrderedRefuses(es[1..], prefix);
      if es[0].node.Directory? {
        assert NodeWeight(es[0].node) == 1 + Weight(es[0].node.entries);
        WalkRefuses(es[0].node.entries, prefix + [es[0].name]);
      }
      assert forall e :: e in es <==> e == es[0] || e in es[1..];
      assert es[0] in es;
    }
  }

  /** Below the prefix, through an entry of the directory. */
  ghost predicate Under(es: seq<Entry>, prefix: seq<string>, path: seq<string>) {
    |prefix| < |path| && path[..|prefix|] == prefix && exists e :: e in es && e.name == path[|prefix|]
  }

  lemma {:induction false} WalkStaysUnder(es: seq<Entry>, prefix: seq<string>, f: Found)
    requires Walk(es, prefix).Some? && f in Walk(es, prefix).value
    ensures Under(es, prefix, f.path)
    decreases Weight(es), 1
  {
    SortHolds(es);
    SortMembers(es);
    OrderedStaysUnder(Sort(es), prefix, f);
  }

  lemma {:induction false} OrderedStaysUnder(es: seq<Entry>, prefix: seq<string>, f: Found)
    requires WalkOrdered(es, prefix).Some? && f in WalkOrdered(es, prefix).value
    ensures Under(es, prefix, f.path)
    decreases Weight(es), 0
  {
    if f in WalkEntry(es[0], prefix).value {
      EntryStaysUnder(es[0], prefix, f);
      assert es[0] in es;
    } else {
      OrderedStaysUnder(es[1..], prefix, f);
      var e :| e in es[1..] && e.name == f.path[|prefix|];
      assert e in es;
    }
  }

  lemma {:induction false} EntryStaysUnder(e: Entry, prefix: seq<string>, f: Found)
    requires WalkEntry(e, prefix).Some? && f in WalkEntry(e, prefix).value
    ensures |prefix| < |f.path| && f.path[..|prefix| + 1] == prefix + [e.name] && f.path[|prefix|] == e.name
    ensures f.path[..|prefix|] == prefix
    decreases NodeWeight(e.node), 0
  {
    if e.node.Directory? { WalkStaysUnder(e.node.entries, prefix + [e.name], f); }
    assert f.path[..|prefix| + 1] == prefix + [e.name];
    assert f.path[..|prefix|] == f.path[..|prefix| + 1][..|prefix|];
  }

  lemma {:induction false} WalkIsExact(es: seq<Entry>, prefix: seq<string>, path: seq<string>, data: Bytes, mode: nat)
    requires OnlyFiles(es)
    ensures Walk(es, prefix).Some?
    ensures Found(prefix + path, data, mode) in Walk(es, prefix).value <==> Holds(es, path, data, mode)
    decreases Weight(es), 1
  {
    SortHolds(es);
    SortMembers(es);
    WalkRefuses(es, prefix);
    OrderedIsExact(Sort(es), prefix, path, data, mode);
  }

  lemma {:induction false} OrderedIsExact(es: seq<Entry>, prefix: seq<string>, path: seq<string>, data: Bytes,
      mode: nat)
    requires OnlyFiles(es) && WalkOrdered(es, prefix).Some?
    ensures Found(prefix + path, data, mode) in WalkOrdered(es, prefix).value <==> Holds(es, path, data, mode)
    decreases Weight(es), 0
  {
    if es != [] {
      assert es[0] in es && forall e :: e in es <==> e == es[0] || e in es[1..];
      OrderedIsExact(es[1..], prefix, path, data, mode);
      EntryIsExact(es[0], prefix, path, data, mode);
    }
  }

  lemma {:induction false} EntryIsExact(e: Entry, prefix: seq<string>, path: seq<string>, data: Bytes, mode: nat)
    requires e.node.File? || (e.node.Directory? && OnlyFiles(e.node.entries))
    requires WalkEntry(e, prefix).Some?
    ensures Found(prefix + path, data, mode) in WalkEntry(e, prefix).value <==>
              path != [] && HoldsAt(e, path, data, mode)
    decreases NodeWeight(e.node), 0
  {
    var f := Found(prefix + path, data, mode);
    if f in WalkEntry(e, prefix).value {
      EntryStaysUnder(e, prefix, f);
      assert path[0] == f.path[|prefix|];
    }
    if path != [] && path[0] == e.name {
      assert path == [e.name] + path[1..];
      assert prefix + path == prefix + [e.name] + path[1..];
      if e.node.Directory? {
        WalkIsExact(e.node.entries, prefix + [e.name], path[1..], data, mode);
      } else {
        assert prefix + path == prefix + [e.name] <==> path == [e.name];
      }
    }
  }

  ghost predicate NoPathTwice(found: seq<Found>) {
    forall i, j :: 0 <= i < j < |found| ==> found[i].path != found[j].path
  }

  lemma {:induction false} WalkListsOnce(es: seq<Entry>, prefix: seq<string>)
    requires WellFormed(es) && Walk(es, prefix).Some?
    ensures NoPathTwice(Walk(es, prefix).value)
    decreases Weight(es), 1
  {
    SortHolds(es);
    SortMembers(es);
    SortDistinct(es);
    OrderedListsOnce(Sort(es), prefix);
  }

  lemma {:induction false} OrderedListsOnce(es: seq<Entry>, prefix: seq<string>)
    requires NoNameTwice(es) && InnerWellFormed(es) && WalkOrdered(es, prefix).Some?
    ensures NoPathTwice(WalkOrdered(es, prefix).value)
    decreases Weight(es), 0
  {
    if es != [] {
      var here, rest := WalkEntry(es[0], prefix).value, WalkOrdered(es[1..], prefix).value;
      if es[0].node.Directory? {
        assert NodeWeight(es[0].node) == 1 + Weight(es[0].node.entries);
        WalkListsOnce(es[0].node.entries, prefix + [es[0].name]);
      }
      OrderedListsOnce(es[1..], prefix);
      forall f, g | f in here && g in rest
        ensures f.path != g.path
      {
        EntryStaysUnder(es[0], prefix, f);
        OrderedStaysUnder(es[1..], prefix, g);
      }
    }
  }

  /** The paths are made of non-empty components without a slash, so their printed forms differ too. */
  lemma {:induction false} WalkNames(es: seq<Entry>, prefix: seq<string>, f: Found)
    requires WellFormed(es) && SepFree(prefix, '/') && Walk(es, prefix).Some? && f in Walk(es, prefix).value
    ensures SepFree(f.path, '/')
    decreases Weight(es), 1
  {
    SortHolds(es);
    SortMembers(es);
    OrderedNames(Sort(es), prefix, f);
  }

  lemma {:induction false} OrderedNames(es: seq<Entry>, prefix: seq<string>, f: Found)
    requires InnerWellFormed(es) && forall e :: e in es ==> e.name != "" && '/' !in e.name
    requires SepFree(prefix, '/') && WalkOrdered(es, prefix).Some? && f in WalkOrdered(es, prefix).value
    ensures SepFree(f.path, '/')
    decreases Weight(es), 0
  {
    if f !in WalkEntry(es[0], prefix).value {
      OrderedNames(es[1..], prefix, f);
    } else if es[0].node.Directory? {
      assert NodeWeight(es[0].node) == 1 + Weight(es[0].node.entries);
      WalkNames(es[0].node.entries, prefix + [es[0].name], f);
    }
  }
}
