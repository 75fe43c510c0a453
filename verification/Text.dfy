/** Strings as the recognisers and the journal readers and writers use them. */
module Text {
  import opened Configuration

  /** `string_view::find` for one character; |s| plays the part of npos. */
  function Find(s: string, c: char): (at: nat)
    ensures at <= |s|
    ensures at < |s| ==> s[at] == c
    ensures forall i :: 0 <= i < at ==> s[i] != c
  {
    if s == [] || s[0] == c then 0 else 1 + Find(s[1..], c)
  }

  /** The first separator of `head + sep + rest` is the one after a separator-free head. */
  lemma FindAfterHead(head: string, c: char, rest: string)
    requires c !in head
    ensures Find(head + [c] + rest, c) == |head|
  {
    assert (head + [c] + rest)[|head|] == c;
  }

  lemma FindAbsent(s: string, c: char)
    requires c !in s
    ensures Find(s, c) == |s|
  {
  }

  lemma SplitAtFind(s: string, c: char)
    requires Find(s, c) < |s|
    ensures s == s[..Find(s, c)] + [c] + s[Find(s, c) + 1..]
    ensures c !in s[..Find(s, c)]
  {
  }

  /** Items separated by one character. */
  function Join(items: seq<string>, sep: char): string {
    if items == [] then ""
    else if |items| == 1 then items[0]
    else items[0] + [sep] + Join(items[1..], sep)
  }

  ghost predicate Distinct(items: seq<string>) {
    forall i, j :: 0 <= i < j < |items| ==> items[i] != items[j]
  }

  ghost predicate SepFree(items: seq<string>, sep: char) {
    forall i :: 0 <= i < |items| ==> items[i] != "" && sep !in items[i]
  }

  /** Non-empty separator-free items can be read back from their join. */
  lemma {:induction false} JoinInjective(a: seq<string>, b: seq<string>, sep: char)
    requires SepFree(a, sep) && SepFree(b, sep)
    requires Join(a, sep) == Join(b, sep)
    ensures a == b
  {
    if a != [] && b != [] {
      JoinHead(a, sep);
      JoinHead(b, sep);
      var at := Find(Join(a, sep), sep);
      assert a[0] == Join(a, sep)[..at] == Join(b, sep)[..at] == b[0];
      if at < |Join(a, sep)| {
        assert Join(a[1..], sep) == Join(a, sep)[at + 1..];
        assert Join(b[1..], sep) == Join(b, sep)[at + 1..];
        JoinInjective(a[1..], b[1..], sep);
        assert a == [a[0]] + a[1..] && b == [b[0]] + b[1..];
      }
    }
  }

  /** The first separator of a join ends its first item; there is none exactly for one item. */
  lemma JoinHead(items: seq<string>, sep: char)
    requires items != [] && SepFree(items, sep)
    ensures Join(items, sep) != ""
    ensures Find(Join(items, sep), sep) == |items[0]|
    ensures Join(items, sep)[..|items[0]|] == items[0]
    ensures |items| == 1 <==> Find(Join(items, sep), sep) == |Join(items, sep)|
    ensures |items| > 1 ==> Join(items, sep) == items[0] + [sep] + Join(items[1..], sep)
  {
    if |items| == 1 {
      FindAbsent(items[0], sep);
    } else {
      FindAfterHead(items[0], sep, Join(items[1..], sep));
    }
  }

  function Split(s: string, sep: char): (items: seq<string>)
    ensures items != []
    decreases |s|
  {
    var at := Find(s, sep);
    if at == |s| then [s] else [s[..at]] + Split(s[at + 1..], sep)
  }

  /** The items of a join are the items again. */
  lemma {:induction false} SplitInverts(items: seq<string>, sep: char)
    requires items != [] && SepFree(items, sep)
    ensures Split(Join(items, sep), sep) == items
  {
    JoinHead(items, sep);
    if |items| > 1 {
      var s := Join(items, sep);
      assert s[..|items[0]|] == items[0] && s[|items[0]| + 1..] == Join(items[1..], sep);
      SplitInverts(items[1..], sep);
    }
  }

  /** And the join of the items is the text again. */
  lemma {:induction false} JoinInverts(s: string, sep: char)
    ensures Join(Split(s, sep), sep) == s
    decreases |s|
  {
    var at := Find(s, sep);
    if at < |s| {
      JoinInverts(s[at + 1..], sep);
      SplitAtFind(s, sep);
      var items := Split(s, sep);
      assert items[1..] == Split(s[at + 1..], sep) && |items| > 1;
    }
  }

  lemma SplitHead(head: string, sep: char, rest: string)
    requires sep !in head
    ensures Split(head + [sep] + rest, sep) == [head] + Split(rest, sep)
  {
    FindAfterHead(head, sep, rest);
    var s := head + [sep] + rest;
    assert s[..|head|] == head && s[|head| + 1..] == rest;
  }

  lemma {:induction false} SplitClean(s: string, sep: char)
    ensures forall i :: 0 <= i < |Split(s, sep)| ==> sep !in Split(s, sep)[i]
    decreases |s|
  {
    var at := Find(s, sep);
    if at < |s| { SplitClean(s[at + 1..], sep); }
  }

  lemma {:induction false} SplitCharacters(s: string, sep: char, i: nat)
    requires i < |Split(s, sep)|
    ensures forall k :: 0 <= k < |Split(s, sep)[i]| ==> Split(s, sep)[i][k] in s
    decreases |s|
  {
    var at := Find(s, sep);
    if at < |s| && i > 0 {
      SplitCharacters(s[at + 1..], sep, i - 1);
      assert forall c :: c in s[at + 1..] ==> c in s;
    }
  }

  lemma {:induction false} JoinCharacters(items: seq<string>, sep: char, c: char)
    requires c in Join(items, sep)
    ensures c == sep || exists i :: 0 <= i < |items| && c in items[i]
  {
    if |items| > 1 && c != sep && c !in items[0] {
      JoinCharacters(items[1..], sep, c);
      var i :| 0 <= i < |items[1..]| && c in items[1..][i];
      assert items[i + 1] == items[1..][i];
    }
  }

  predicate IsDigit(c: char) { '0' <= c <= '9' }
  predicate IsUpper(c: char) { 'A' <= c <= 'Z' }
  predicate IsLower(c: char) { 'a' <= c <= 'z' }
  predicate IsAlnum(c: char) { IsDigit(c) || IsUpper(c) || IsLower(c) }
  predicate IsHex(c: char) { IsDigit(c) || 'a' <= c <= 'f' || 'A' <= c <= 'F' }

  /** What a reader has in hand, in front of what the rest of its text gives. */
  ghost function Prepend<T>(head: seq<T>, tail: Option<seq<T>>): Option<seq<T>> {
    if tail.None? then None else Some(head + tail.value)
  }

  lemma PrependNothing<T>(tail: Option<seq<T>>)
    ensures Prepend([], tail) == tail
  {
    if tail.Some? { assert [] + tail.value == tail.value; }
  }

  lemma PrependPrepend<T>(head: seq<T>, x: T, tail: Option<seq<T>>)
    ensures Prepend(head, Prepend([x], tail)) == Prepend(head + [x], tail)
  {
    if tail.Some? { assert head + ([x] + tail.value) == head + [x] + tail.value; }
  }
}
