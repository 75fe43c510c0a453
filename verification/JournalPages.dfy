/** Bounded journal pages and cursor continuation, and that paging through a journal loses nothing. */
module JournalPages {
  import opened Configuration

  datatype Entry = Entry(
    cursor: string,
    timestamp: int,
    priority: nat,
    component: string,
    unit: string,
    source: string,
    event: string,
    audience: string,
    category: string)

  /** `source` is the query's module. */
  datatype Criteria = Criteria(
    component: Option<string>,
    source: Option<string>,
    maximumPriority: Option<nat>,
    since: Option<int>,
    until: Option<int>,
    components: seq<string>,
    units: seq<string>,
    audience: Option<string>,
    category: Option<string>,
    event: Option<string>)

  /** A missing or empty cursor starts at the beginning. */
  datatype Query = Query(criteria: Criteria, after: Option<string>, limit: nat, newestFirst: bool, strictCursor: bool)

  predicate Listed(values: seq<string>, value: string) {
    values == [] || value in values
  }

  predicate Allows<T(==)>(wanted: Option<T>, value: T) {
    wanted.None? || wanted.value == value
  }

  predicate Matches(e: Entry, c: Criteria) {
    && Allows(c.audience, e.audience) && Allows(c.category, e.category) && Allows(c.event, e.event)
    && (c.since.Some? ==> e.timestamp >= c.since.value)
    && (c.until.Some? ==> e.timestamp <= c.until.value)
    && Allows(c.component, e.component) && Allows(c.source, e.source)
    && (c.maximumPriority.Some? ==> e.priority <= c.maximumPriority.value)
    && if c.components != [] && c.units != []
       then Listed(c.components, e.component) || Listed(c.units, e.unit)
       else Listed(c.components, e.component) && Listed(c.units, e.unit)
  }

  /** A missing criterion admits everything; listed components and listed units add up. */
  lemma MatchesExactly(e: Entry, c: Criteria)
    ensures Matches(e, c) <==>
              && Admits(c.component, e.component) && Admits(c.source, e.source) && Admits(c.audience, e.audience)
              && Admits(c.category, e.category) && Admits(c.event, e.event)
              && !(c.since.Some? && e.timestamp < c.since.value) && !(c.until.Some? && c.until.value < e.timestamp)
              && !(c.maximumPriority.Some? && c.maximumPriority.value < e.priority)
              && ((c.components == [] && c.units == []) || e.component in c.components || e.unit in c.units)
  {
  }

  predicate Admits(wanted: Option<string>, value: string) {
    wanted == None || wanted == Some(value)
  }

  // ---------------------------------------------------------------------------------------------
  // What a page is
  // ---------------------------------------------------------------------------------------------

  function Reversed(s: seq<Entry>): (r: seq<Entry>)
    ensures |r| == |s|
    ensures forall i :: 0 <= i < |s| ==> r[i] == s[|s| - 1 - i]
  {
    if s == [] then [] else Reversed(s[1..]) + [s[0]]
  }

  function Ordered(entries: seq<Entry>, q: Query): seq<Entry> {
    if q.newestFirst then Reversed(entries) else entries
  }

  function Filter(s: seq<Entry>, c: Criteria): seq<Entry> {
    if s == [] then [] else (if Matches(s[0], c) then [s[0]] else []) + Filter(s[1..], c)
  }

  function Take(s: seq<Entry>, n: nat): seq<Entry> {
    if |s| <= n then s else s[..n]
  }

  /** The position just after the first entry with the cursor; past the end if there is none. */
  function After(s: seq<Entry>, cursor: string): (at: nat)
    ensures at <= |s|
  {
    if s == [] then 0 else if s[0].cursor == cursor then 1 else
      var rest := After(s[1..], cursor);
      1 + rest
  }

  predicate Unplaced(q: Query) { q.after.None? || q.after.value == "" }

  function Start(s: seq<Entry>, q: Query): (at: nat)
    ensures at <= |s|
  {
    if Unplaced(q) then 0 else After(s, q.after.value)
  }

  predicate Contains(s: seq<Entry>, cursor: string) {
    exists i :: 0 <= i < |s| && s[i].cursor == cursor
  }

  /** No page for an expired strict cursor; otherwise the first matches after the cursor, up to the limit. */
  function Page(entries: seq<Entry>, q: Query): Option<seq<Entry>> {
    var s := Ordered(entries, q);
    if q.limit == 0 then Some([])
    else if q.strictCursor && !Unplaced(q) && !Contains(entries, q.after.value) then None
    else Some(Take(Filter(s[Start(s, q)..], q.criteria), q.limit))
  }

  /**
   * The edge cases of a page: only a strict query whose cursor no entry has is refused; a lenient one
   * finds nothing there; an empty cursor is none; and nothing is longer than the limit.
   */
  lemma PageEdges(entries: seq<Entry>, q: Query)
    ensures Page(entries, q).None? <==>
              && q.limit > 0 && q.strictCursor && q.after.Some? && q.after.value != ""
              && forall i :: 0 <= i < |entries| ==> entries[i].cursor != q.after.value
    ensures q.limit == 0 ==> Page(entries, q) == Some([])
    ensures !q.strictCursor && q.after.Some? && q.after.value != "" && !Contains(entries, q.after.value) ==>
              Page(entries, q) == Some([])
    ensures Page(entries, q.(after := Some(""))) == Page(entries, q.(after := None))
    ensures Page(entries, q).Some? ==> |Page(entries, q).value| <= q.limit
  {
    var s := Ordered(entries, q);
    if q.after.Some? && q.after.value != "" && !Contains(entries, q.after.value) {
      AbsentEitherWay(entries, q);
      AfterAbsent(s, q.after.value);
      assert s[|s|..] == [];
    }
  }

  lemma AbsentEitherWay(entries: seq<Entry>, q: Query)
    requires q.after.Some? && !Contains(entries, q.after.value)
    ensures !Contains(Ordered(entries, q), q.after.value)
  {
    var s := Ordered(entries, q);
    assert forall i :: 0 <= i < |s| ==> s[i] == entries[if q.newestFirst then |s| - 1 - i else i];
  }

  lemma {:induction false} FilterConcat(a: seq<Entry>, b: seq<Entry>, c: Criteria)
    ensures Filter(a + b, c) == Filter(a, c) + Filter(b, c)
  {
    if a == [] {
      assert a + b == b;
    } else {
      assert (a + b)[1..] == a[1..] + b;
      FilterConcat(a[1..], b, c);
    }
  }

  lemma {:induction false} AfterIs(s: seq<Entry>, cursor: string, i: nat)
    requires i < |s| && s[i].cursor == cursor && forall j :: 0 <= j < i ==> s[j].cursor != cursor
    ensures After(s, cursor) == i + 1
  {
    if i > 0 { AfterIs(s[1..], cursor, i - 1); }
  }

  lemma {:induction false} AfterAbsent(s: seq<Entry>, cursor: string)
    requires !Contains(s, cursor)
    ensures After(s, cursor) == |s|
  {
    if s != [] {
      assert forall i :: 1 <= i < |s| ==> s[i] == s[1..][i - 1];
      AfterAbsent(s[1..], cursor);
    }
  }

  lemma FilterSplit(s: seq<Entry>, at: nat, mid: nat, c: Criteria)
    requires at <= mid <= |s|
    ensures Filter(s[at..], c) == Filter(s[at..mid], c) + Filter(s[mid..], c)
  {
    assert s[at..] == s[at..mid] + s[mid..];
    FilterConcat(s[at..mid], s[mid..], c);
  }

  lemma FilterNext(s: seq<Entry>, at: nat, mid: nat, c: Criteria)
    requires at <= mid < |s|
    ensures Filter(s[at..mid + 1], c) == Filter(s[at..mid], c) + if Matches(s[mid], c) then [s[mid]] else []
  {
    assert s[at..mid + 1] == s[at..mid] + [s[mid]];
    FilterConcat(s[at..mid], [s[mid]], c);
    assert [s[mid]][1..] == [];
  }

  lemma TakePrefix(a: seq<Entry>, b: seq<Entry>)
    ensures Take(a + b, |a|) == a
  {
    assert (a + b)[..|a|] == a;
  }

  /** How far the scan has come: still looking for the cursor, or collecting matches after it. */
  ghost predicate Scanned(s: seq<Entry>, q: Query, offset: nat, collecting: bool, result: seq<Entry>)
    requires offset <= |s|
  {
    if collecting then Start(s, q) <= offset && result == Filter(s[Start(s, q)..offset], q.criteria)
    else !Unplaced(q) && result == [] && forall j :: 0 <= j < offset ==> s[j].cursor != q.after.value
  }

  lemma ScanBegins(s: seq<Entry>, q: Query)
    ensures Scanned(s, q, 0, Unplaced(q), [])
  {
    if Unplaced(q) { assert s[0..0] == []; }
  }

  lemma CursorFound(s: seq<Entry>, q: Query, offset: nat)
    requires offset < |s| && Scanned(s, q, offset, false, []) && s[offset].cursor == q.after.value
    ensures Scanned(s, q, offset + 1, true, [])
  {
    AfterIs(s, q.after.value, offset);
    assert s[offset + 1..offset + 1] == [];
  }

  lemma Collected(s: seq<Entry>, q: Query, offset: nat, result: seq<Entry>)
    requires offset < |s| && Scanned(s, q, offset, true, result)
    ensures Scanned(s, q, offset + 1, true, result + if Matches(s[offset], q.criteria) then [s[offset]] else [])
  {
    FilterNext(s, Start(s, q), offset, q.criteria);
  }

  lemma ScanFilled(s: seq<Entry>, q: Query, offset: nat, result: seq<Entry>)
    requires offset <= |s| && Scanned(s, q, offset, true, result)
    ensures Take(Filter(s[Start(s, q)..], q.criteria), |result|) == result
  {
    FilterSplit(s, Start(s, q), offset, q.criteria);
    TakePrefix(result, Filter(s[offset..], q.criteria));
  }

  lemma ScanEnds(s: seq<Entry>, q: Query, collecting: bool, result: seq<Entry>)
    requires Scanned(s, q, |s|, collecting, result)
    ensures Filter(s[Start(s, q)..], q.criteria) == result
  {
    if collecting {
      assert s[Start(s, q)..] == s[Start(s, q)..|s|];
    } else {
      AfterAbsent(s, q.after.value);
      assert s[|s|..] == [];
    }
  }

  function Position(entries: seq<Entry>, q: Query, offset: nat): (i: nat)
    requires offset < |entries|
    ensures i < |entries|
  {
    if q.newestFirst then |entries| - 1 - offset else offset
  }

  lemma PositionHolds(entries: seq<Entry>, q: Query)
    ensures |Ordered(entries, q)| == |entries|
    ensures forall k :: 0 <= k < |entries| ==> Ordered(entries, q)[k] == entries[Position(entries, q, k)]
  {
  }

  /** The loop of `bounded_page`. */
  method Scan(entries: seq<Entry>, q: Query, ghost s: seq<Entry>) returns (result: seq<Entry>)
    requires q.limit > 0 && |s| == |entries|
    requires forall k :: 0 <= k < |entries| ==> s[k] == entries[Position(entries, q, k)]
    ensures result == Take(Filter(s[Start(s, q)..], q.criteria), q.limit)
  {
    var afterCursor := Unplaced(q);
    result := [];
    ScanBegins(s, q);
    for offset := 0 to |entries|
      invariant |result| < q.limit && Scanned(s, q, offset, afterCursor, result)
    {
      var entry := entries[Position(entries, q, offset)];
      if !afterCursor {
        if entry.cursor == q.after.value {
          CursorFound(s, q, offset);
          afterCursor := true;
        }
      } else {
        Collected(s, q, offset, result);
        if Matches(entry, q.criteria) {
          result := result + [entry];
          if |result| == q.limit {
            ScanFilled(s, q, offset + 1, result);
            return;
          }
        } else {
          assert result + [] == result;
        }
      }
    }
    ScanEnds(s, q, afterCursor, result);
  }

  /** `bounded_page`. */
  method ReadPage(entries: seq<Entry>, q: Query) returns (page: Option<seq<Entry>>)
    ensures page == Page(entries, q)
  {
    if q.limit == 0 { return Some([]); }
    if q.strictCursor && !Unplaced(q) && !Contains(entries, q.after.value) { return None; }
    PositionHolds(entries, q);
    var result := Scan(entries, q, Ordered(entries, q));
    return Some(result);
  }

  // ---------------------------------------------------------------------------------------------
  // Paging is lossless
  // ---------------------------------------------------------------------------------------------

  ghost predicate DistinctCursors(s: seq<Entry>) {
    && (forall i :: 0 <= i < |s| ==> s[i].cursor != "")
    && (forall i, j :: 0 <= i < j < |s| ==> s[i].cursor != s[j].cursor)
  }

  lemma OrderedDistinct(entries: seq<Entry>, q: Query)
    requires DistinctCursors(entries)
    ensures DistinctCursors(Ordered(entries, q))
  {
  }

  /** A page ends at position k: what it holds is all that matches from `at` to there. */
  ghost predicate EndsAt(s: seq<Entry>, at: nat, k: nat, page: seq<Entry>, c: Criteria) {
    at <= k < |s| && page != [] && page[|page| - 1] == s[k] && page == Filter(s[at..k + 1], c)
  }

  /** Every non-empty page ends somewhere. */
  lemma {:induction false} PageEnd(s: seq<Entry>, at: nat, n: nat, c: Criteria) returns (k: nat)
    requires at <= |s| && n > 0 && Filter(s[at..], c) != []
    ensures EndsAt(s, at, k, Take(Filter(s[at..], c), n), c)
    decreases |s| - at
  {
    FilterHead(s, at, c);
    if !Matches(s[at], c) {
      k := PageEnd(s, at + 1, n, c);
      EndsAfterSkipping(s, at, k, n, c);
    } else if n == 1 || Filter(s[at + 1..], c) == [] {
      k := at;
      EndsAtOnce(s, at, n, c);
    } else {
      k := PageEnd(s, at + 1, n - 1, c);
      EndsAfterTaking(s, at, k, n, c);
    }
  }

  lemma EndsAfterSkipping(s: seq<Entry>, at: nat, k: nat, n: nat, c: Criteria)
    requires at < |s| && !Matches(s[at], c) && EndsAt(s, at + 1, k, Take(Filter(s[at + 1..], c), n), c)
    ensures EndsAt(s, at, k, Take(Filter(s[at..], c), n), c)
  {
    FilterHead(s, at, c);
    EndsLater(s, at, k, Take(Filter(s[at + 1..], c), n), c);
  }

  lemma EndsAtOnce(s: seq<Entry>, at: nat, n: nat, c: Criteria)
    requires at < |s| && Matches(s[at], c) && n > 0 && (n == 1 || Filter(s[at + 1..], c) == [])
    ensures EndsAt(s, at, at, Take(Filter(s[at..], c), n), c)
  {
    FilterHead(s, at, c);
    EndsHere(s, at, c);
    TakePrefix([s[at]], Filter(s[at + 1..], c));
  }

  lemma EndsAfterTaking(s: seq<Entry>, at: nat, k: nat, n: nat, c: Criteria)
    requires at < |s| && Matches(s[at], c) && n > 1
    requires EndsAt(s, at + 1, k, Take(Filter(s[at + 1..], c), n - 1), c)
    ensures EndsAt(s, at, k, Take(Filter(s[at..], c), n), c)
  {
    var rest := Filter(s[at + 1..], c);
    FilterHead(s, at, c);
    EndsLater(s, at, k, Take(rest, n - 1), c);
    TakeCons(s[at], rest, n - 1);
  }

  lemma FilterHead(s: seq<Entry>, at: nat, c: Criteria)
    requires at < |s|
    ensures Filter(s[at..], c) == (if Matches(s[at], c) then [s[at]] else []) + Filter(s[at + 1..], c)
  {
    assert s[at..][1..] == s[at + 1..];
  }

  lemma EndsLater(s: seq<Entry>, at: nat, k: nat, page: seq<Entry>, c: Criteria)
    requires at < |s| && EndsAt(s, at + 1, k, page, c)
    ensures EndsAt(s, at, k, (if Matches(s[at], c) then [s[at]] else []) + page, c)
  {
    FilterFrom(s, at, k + 1, c);
  }

  lemma EndsHere(s: seq<Entry>, at: nat, c: Criteria)
    requires at < |s| && Matches(s[at], c)
    ensures EndsAt(s, at, at, [s[at]], c)
  {
    FilterFrom(s, at, at + 1, c);
    assert s[at + 1..at + 1] == [];
  }

  lemma FilterFrom(s: seq<Entry>, at: nat, to: nat, c: Criteria)
    requires at < to <= |s|
    ensures Filter(s[at..to], c) == (if Matches(s[at], c) then [s[at]] else []) + Filter(s[at + 1..to], c)
  {
    assert s[at..to][1..] == s[at + 1..to];
  }

  lemma TakeCons(e: Entry, s: seq<Entry>, n: nat)
    ensures Take([e] + s, n + 1) == [e] + Take(s, n)
  {
    if |s| > n { assert ([e] + s)[..n + 1] == [e] + s[..n]; }
  }

  /**
   * Feeding back the last cursor until a page comes back empty terminates, and the pages, all within
   * the limit, are together exactly the matching entries in order: no gaps, no duplicates, no errors.
   */
  method FetchAll(entries: seq<Entry>, q: Query) returns (pages: seq<seq<Entry>>)
    requires DistinctCursors(entries) && q.limit > 0 && Unplaced(q)
    ensures Concat(pages) == Filter(Ordered(entries, q), q.criteria)
    ensures forall i :: 0 <= i < |pages| ==> 0 < |pages[i]| <= q.limit
  {
    OrderedDistinct(entries, q);
    assert Ordered(entries, q)[0..] == Ordered(entries, q);
    pages := FetchFrom(entries, q, Ordered(entries, q), 0);
  }

  method FetchFrom(entries: seq<Entry>, q: Query, ghost s: seq<Entry>, ghost at: nat) returns (pages: seq<seq<Entry>>)
    requires s == Ordered(entries, q) && DistinctCursors(s) && at == Start(s, q) && q.limit > 0 && Live(entries, q)
    ensures Concat(pages) == Filter(s[at..], q.criteria)
    ensures forall i :: 0 <= i < |pages| ==> 0 < |pages[i]| <= q.limit
    decreases |s| - at
  {
    var page := FetchOne(entries, q);
    if page == [] { return []; }
    ghost var k := Progress(entries, q, at);
    var rest := FetchFrom(entries, q.(after := Some(page[|page| - 1].cursor)), s, k + 1);
    pages := [page] + rest;
    assert pages[1..] == rest;
  }

  /** A cursor taken from the journal, or none yet. */
  predicate Live(entries: seq<Entry>, q: Query) {
    Unplaced(q) || Contains(entries, q.after.value)
  }

  method FetchOne(entries: seq<Entry>, q: Query) returns (page: seq<Entry>)
    requires q.limit > 0 && Live(entries, q)
    ensures var s := Ordered(entries, q); page == Take(Filter(s[Start(s, q)..], q.criteria), q.limit)
    ensures page == [] ==> Filter(Ordered(entries, q)[Start(Ordered(entries, q), q)..], q.criteria) == []
    ensures |page| <= q.limit
  {
    var r := ReadPage(entries, q);
    page := r.value;
  }

  /** One page further: it ends at k, nothing between was skipped, and its last cursor leads on from there. */
  lemma Progress(entries: seq<Entry>, q: Query, at: nat) returns (k: nat)
    requires DistinctCursors(Ordered(entries, q)) && q.limit > 0 && at == Start(Ordered(entries, q), q)
    requires Filter(Ordered(entries, q)[at..], q.criteria) != []
    ensures var s := Ordered(entries, q);
            var page := Take(Filter(s[at..], q.criteria), q.limit);
            && at <= k < |s| && page != [] && page[|page| - 1] == s[k]
            && Filter(s[at..], q.criteria) == page + Filter(s[k + 1..], q.criteria)
            && Live(entries, q.(after := Some(s[k].cursor)))
            && Start(s, q.(after := Some(s[k].cursor))) == k + 1
  {
    k := PageEnd(Ordered(entries, q), at, q.limit, q.criteria);
    FilterSplit(Ordered(entries, q), at, k + 1, q.criteria);
    Continues(entries, q, k);
  }

  /** The cursor of an entry leads to the position after it. */
  lemma Continues(entries: seq<Entry>, q: Query, k: nat)
    requires DistinctCursors(Ordered(entries, q)) && k < |Ordered(entries, q)|
    ensures var s := Ordered(entries, q);
            && Contains(entries, s[k].cursor) && s[k].cursor != ""
            && Start(s, q.(after := Some(s[k].cursor))) == k + 1
  {
    OrderedFrom(entries, q, k);
    AfterIs(Ordered(entries, q), Ordered(entries, q)[k].cursor, k);
  }

  lemma OrderedFrom(entries: seq<Entry>, q: Query, k: nat)
    requires k < |Ordered(entries, q)|
    ensures Contains(entries, Ordered(entries, q)[k].cursor)
  {
    var i := if q.newestFirst then |entries| - 1 - k else k;
    assert entries[i] == Ordered(entries, q)[k];
  }

  function Concat(pages: seq<seq<Entry>>): seq<Entry> {
    if pages == [] then [] else pages[0] + Concat(pages[1..])
  }
}
