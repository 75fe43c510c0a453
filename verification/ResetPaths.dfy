/**
 * The reset paths of a product profile as `loadProfile` reads them: which spellings its check accepts,
 * and which of those let a reset delete the journal that holds its own intent.
 */
module ResetPaths {
  import opened Configuration
  import opened Text
  import opened Journal
  import opened Device
  import opened FactoryReset
  import opened LostIntent

  const STATE_FILE := "state.json"

  // ---------------------------------------------------------------------------------------------
  // Normal form
  // ---------------------------------------------------------------------------------------------

  predicate Absolute(text: string) { text != "" && text[0] == '/' }

  /** The components that remain: empty ones and dots dropped, each double dot taking one back. */
  function Fold(parts: Path, pieces: seq<string>): Path
    decreases |pieces|
  {
    if pieces == [] then parts
    else
      var piece := pieces[0];
      var next := if piece == "" || piece == "." then parts
                  else if piece == ".." then (if parts == [] then [] else parts[..|parts| - 1])
                  else parts + [piece];
      Fold(next, pieces[1..])
  }

  /** `lexically_normal` of an absolute path; it keeps a trailing separator apart. */
  function Normalized(text: string): ResetPath
    requires Absolute(text)
  {
    var pieces := Split(text[1..], '/');
    var parts, last := Fold([], pieces), pieces[|pieces| - 1];
    ResetPath(parts, parts != [] && (last == "" || last == "." || last == ".."))
  }

  /** Every component with a separator after it. */
  function Closed(parts: Path): string {
    if parts == [] then "" else parts[0] + "/" + Closed(parts[1..])
  }

  /** The path as a string. */
  function Printed(p: ResetPath): string {
    var s := "/" + Closed(p.parts);
    if p.slash || p.parts == [] then s else s[..|s| - 1]
  }

  lemma {:induction false} FoldClean(parts: Path, pieces: seq<string>)
    requires SepFree(parts, '/') && forall i :: 0 <= i < |pieces| ==> '/' !in pieces[i]
    ensures SepFree(Fold(parts, pieces), '/')
    decreases |pieces|
  {
    if pieces != [] {
      var piece := pieces[0];
      var next := if piece == "" || piece == "." then parts
                  else if piece == ".." then (if parts == [] then [] else parts[..|parts| - 1])
                  else parts + [piece];
      FoldClean(next, pieces[1..]);
    }
  }

  lemma NormalizedClean(text: string)
    requires Absolute(text)
    ensures SepFree(Normalized(text).parts, '/')
  {
    SplitClean(text[1..], '/');
    FoldClean([], Split(text[1..], '/'));
  }

  /** Components without separators can be compared as strings, once each is closed. */
  lemma {:induction false} ClosedPrefix(a: Path, b: Path)
    requires SepFree(a, '/') && SepFree(b, '/')
    ensures Closed(a) <= Closed(b) <==> a <= b
    ensures a <= b ==> (|Closed(a)| == |Closed(b)| <==> a == b)
    decreases |a|
  {
    if a != [] && b != [] {
      ClosedPrefix(a[1..], b[1..]);
      HeadsDecide(a[0], Closed(a[1..]), b[0], Closed(b[1..]));
      assert a == [a[0]] + a[1..] && b == [b[0]] + b[1..];
    }
  }

  lemma HeadsDecide(a: string, x: string, b: string, y: string)
    requires '/' !in a && '/' !in b
    ensures a + "/" + x <= b + "/" + y <==> a == b && x <= y
  {
    var s, t := a + "/" + x, b + "/" + y;
    assert s[|a|] == '/' && t[|b|] == '/';
    if s <= t {
      assert forall i :: 0 <= i < |s| ==> s[i] == t[i];
      assert forall i :: 0 <= i < |a| ==> s[i] == a[i];
      assert forall i :: 0 <= i < |b| ==> t[i] == b[i];
      assert a == s[..|a|] == t[..|a|] && b == t[..|b|];
      assert x == s[|a| + 1..] && y == t[|b| + 1..];
    }
    if a == b && x <= y {
      assert t[..|s|] == s;
    }
  }

  // ---------------------------------------------------------------------------------------------
  // The check
  // ---------------------------------------------------------------------------------------------

  /** What `loadProfile` asks of one reset path, comparing paths and strings as the source does. */
  predicate Accepts(text: string, state: string)
    requires Absolute(state)
  {
    && Absolute(text)
    && var target, directory := Normalized(text), Normalized(state);
    && target.parts != []
    && target != ResetPath(["etc"], false) && target != ResetPath(["var"], false)
        && target != ResetPath(["data"], false)
    && target != ResetPath(["usr"], false) && target != ResetPath(["root"], false)
    && target != directory
    && !(Printed(target) + "/" <= Printed(directory))
  }

  /** The string comparison finds exactly the ancestors that are spelled without a trailing separator. */
  lemma CoveringExactly(target: ResetPath, directory: ResetPath)
    requires SepFree(target.parts, '/') && SepFree(directory.parts, '/') && target.parts != []
    ensures Printed(target) + "/" <= Printed(directory) <==>
              !target.slash && target.parts <= directory.parts && (target.parts != directory.parts || directory.slash)
  {
    var a, b := Closed(target.parts), Closed(directory.parts);
    ClosedPrefix(target.parts, directory.parts);
    ClosedEnds(target.parts);
    if target.slash {
      NoDoubleSeparator(target.parts, directory.parts);
      assert Printed(target) + "/" == "/" + (a + "/");
      PrintedPrefix(a + "/", directory);
    } else {
      assert Printed(target) + "/" == "/" + a;
      PrintedPrefix(a, directory);
    }
  }

  /**
   * What the check refuses: the root, the listed directories, and the state directory or one above it, unless
   * spelled otherwise.
   */
  lemma AcceptsExactly(text: string, state: string)
    requires Absolute(state)
    ensures Accepts(text, state) <==>
              && Absolute(text)
              && var t, s := Normalized(text), Normalized(state);
              && t.parts != []
              && (|t.parts| == 1 && t.parts[0] in {"etc", "var", "data", "usr", "root"} ==> t.slash)
              && (t.parts <= s.parts ==> t.slash && !(t.parts == s.parts && s.slash))
  {
    if Absolute(text) {
      NormalizedClean(text);
      NormalizedClean(state);
      var t, s := Normalized(text), Normalized(state);
      if t.parts != [] { CoveringExactly(t, s); }
      assert |t.parts| == 1 ==> t.parts == [t.parts[0]];
    }
  }

  lemma ClosedEnds(parts: Path)
    requires parts != []
    ensures Closed(parts) != "" && Closed(parts)[|Closed(parts)| - 1] == '/'
  {
    if |parts| > 1 { ClosedEnds(parts[1..]); }
  }

  lemma PrintedPrefix(s: string, p: ResetPath)
    ensures "/" + s <= Printed(p) <==> s <= Closed(p.parts) && (|s| < |Closed(p.parts)| || p.slash || p.parts == [])
  {
    var t := Closed(p.parts);
    assert "/" + s <= "/" + t <==> s <= t by {
      if s <= t { assert ("/" + t)[..|s| + 1] == "/" + s; }
      if "/" + s <= "/" + t { assert ("/" + s)[1..] == s && ("/" + t)[1..][..|s|] == s; }
    }
    if !p.slash && p.parts != [] {
      ClosedEnds(p.parts);
      assert Printed(p) == ("/" + t)[..|t|];
    }
  }

  lemma {:induction false} NoDoubleSeparator(a: Path, b: Path)
    requires SepFree(a, '/') && SepFree(b, '/') && a != []
    ensures !(Closed(a) + "/" <= Closed(b))
    decreases |a|
  {
    if b != [] {
      var x := Closed(a[1..]) + "/";
      assert Closed(a) + "/" == a[0] + "/" + x;
      HeadsDecide(a[0], x, b[0], Closed(b[1..]));
      if |a| > 1 {
        NoDoubleSeparator(a[1..], b[1..]);
      } else if |b| > 1 {
        assert Closed(b[1..])[0] == b[1][0];
      }
    }
  }

  // ---------------------------------------------------------------------------------------------
  // The intent and its own deletion
  // ---------------------------------------------------------------------------------------------

  function JournalPath(state: string): Path
    requires Absolute(state)
  {
    Normalized(state).parts + [STATE_FILE]
  }

  /** state.json itself, or a directory above it spelled with a trailing separator. */
  predicate Slips(text: string, state: string)
    requires Absolute(text) && Absolute(state)
  {
    var target := Normalized(text);
    target.parts <= JournalPath(state) && (target.slash <==> target.parts != JournalPath(state))
  }

  /** Of the accepted paths, exactly these delete the journal. */
  lemma AcceptedCovers(text: string, state: string)
    requires Absolute(state) && Accepts(text, state)
    ensures Covers(Normalized(text), JournalPath(state)) <==> Slips(text, state)
  {
    NormalizedClean(text);
    NormalizedClean(state);
    var target, directory := Normalized(text), Normalized(state);
    CoveringExactly(target, directory);
    if target.parts <= JournalPath(state) && target.parts != JournalPath(state) {
      assert target.parts == JournalPath(state)[..|target.parts|] == directory.parts[..|target.parts|];
    }
  }

  /** And all of them are accepted, but for the state directory in its own spelling. */
  lemma SlippingIsAccepted(text: string, state: string)
    requires Absolute(state) && Absolute(text) && Slips(text, state) && Normalized(text) != Normalized(state)
    requires Normalized(text).parts != [] && |Normalized(state).parts| > 0
    ensures Accepts(text, state)
  {
    NormalizedClean(text);
    NormalizedClean(state);
    CoveringExactly(Normalized(text), Normalized(state));
  }

  /** A profile as loaded from these texts. */
  ghost predicate LoadedFrom(p: Profile, texts: seq<string>, state: string) {
    && Absolute(state) && p.journal == JournalPath(state) && |p.resetPaths| == |texts|
    && forall i :: 0 <= i < |texts| ==> Accepts(texts[i], state) && p.resetPaths[i] == Normalized(texts[i])
  }

  /**
   * "Intent survives every deletion" holds of a loaded profile exactly when none of its reset paths
   * is state.json itself, or a directory above it spelled with a trailing separator: the check of the
   * profile alone does not ensure that.
   */
  lemma IntentSurvivesExactly(site: Site, texts: seq<string>, state: string)
    requires LoadedFrom(site.profile, texts, state) && TreesAreSafe(site)
    ensures CanLoseIntent(site) <==> exists i :: 0 <= i < |texts| && Slips(texts[i], state)
  {
    var p := site.profile;
    LosesExactly(site);
    forall i | 0 <= i < |texts|
      ensures Covers(p.resetPaths[i], p.journal) <==> Slips(texts[i], state)
    {
      AcceptedCovers(texts[i], state);
    }
  }

  /** The spelling "/state/os/" above a state directory "/state/os/system" is accepted, and slips. */
  lemma StateOsSlips()
    ensures Normalized("/state/os/") == ResetPath(["state", "os"], true)
    ensures Normalized("/state/os/system") == ResetPath(["state", "os", "system"], false)
    ensures Accepts("/state/os/", "/state/os/system") && Slips("/state/os/", "/state/os/system")
  {
    OsSpelledOut();
    SystemSpelledOut();
    SlippingIsAccepted("/state/os/", "/state/os/system");
  }

  lemma OsSpelledOut()
    ensures Normalized("/state/os/") == ResetPath(["state", "os"], true)
  {
    assert "/state/os/"[1..] == "state" + "/" + ("os" + "/" + "");
    NormalizedThree("/state/os/", "state", "os", "");
  }

  lemma SystemSpelledOut()
    ensures Normalized("/state/os/system") == ResetPath(["state", "os", "system"], false)
  {
    assert "/state/os/system"[1..] == "state" + "/" + ("os" + "/" + "system");
    NormalizedThree("/state/os/system", "state", "os", "system");
  }

  predicate Plain(piece: string) { '/' !in piece && piece != "." && piece != ".." }

  lemma NormalizedThree(text: string, a: string, b: string, c: string)
    requires Absolute(text) && text[1..] == a + "/" + (b + "/" + c) && Plain(a) && Plain(b) && Plain(c)
             && a != "" && b != ""
    ensures Normalized(text) == if c == "" then ResetPath([a, b], true) else ResetPath([a, b, c], false)
  {
    SplitHead(a, '/', b + "/" + c);
    SplitHead(b, '/', c);
    SplitAlone(c);
    assert Split(text[1..], '/') == [a, b, c];
    FoldThree(a, b, c);
  }

  lemma SplitAlone(s: string)
    requires '/' !in s
    ensures Split(s, '/') == [s]
  {
    FindAbsent(s, '/');
  }

  lemma FoldThree(a: string, b: string, c: string)
    requires a != "" && a != "." && a != ".." && b != "" && b != "." && b != ".." && c != "." && c != ".."
    ensures Fold([], [a, b, c]) == if c == "" then [a, b] else [a, b, c]
  {
    assert [a, b, c] == [a] + [b, c] && [b, c] == [b] + [c] && [c] == [c] + [];
    assert [] + [a] == [a] && [a] + [b] == [a, b] && [a, b] + [c] == [a, b, c];
    FoldPlain([], a, [b, c]);
    FoldPlain([a], b, [c]);
    if c == "" {
      assert Fold([a, b], [""]) == Fold([a, b], [""][1..]);
    } else {
      FoldPlain([a, b], c, []);
    }
  }

  lemma FoldPlain(parts: Path, piece: string, rest: seq<string>)
    requires piece != "" && piece != "." && piece != ".."
    ensures Fold(parts, [piece] + rest) == Fold(parts + [piece], rest)
  {
    assert ([piece] + rest)[1..] == rest;
  }
}
