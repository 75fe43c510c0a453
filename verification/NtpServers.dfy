/**
 * `validNtpServer`: the loops of the recogniser, proved to accept exactly the IPv6address grammar of
 * section 3.2.2 of RFC 3986, canonical dotted decimals, and host names.
 */
module NtpServers {
  import opened Text
  import opened Addresses

  // ---------------------------------------------------------------------------------------------
  // The grammar
  // ---------------------------------------------------------------------------------------------

  /** h16 = 1*4HEXDIG */
  predicate IsH16(s: string) {
    1 <= |s| <= 4 && forall i :: 0 <= i < |s| ==> IsHex(s[i])
  }

  ghost predicate AllH16(words: seq<string>) {
    forall i :: 0 <= i < |words| ==> IsH16(words[i])
  }

  /** Colon-separated h16 words, the last 32 bits written as IPv4address if `dotted` is not empty. */
  datatype Groups = Groups(words: seq<string>, dotted: string)

  ghost predicate WellFormed(g: Groups) {
    AllH16(g.words) && (g.dotted != "" ==> IsIpv4Text(g.dotted))
  }

  /** How many 16-bit pieces of the address the groups fill. */
  ghost function Units(g: Groups): nat {
    |g.words| + if g.dotted == "" then 0 else 2
  }

  function Items(g: Groups): seq<string> {
    g.words + if g.dotted == "" then [] else [g.dotted]
  }

  function Print(g: Groups): string {
    Join(Items(g), ':')
  }

  /** The first production: six words and the low 32 bits, that is, eight units without "::". */
  ghost predicate Uncompressed(s: string) {
    exists g: Groups :: WellFormed(g) && Units(g) == 8 && s == Print(g)
  }

  /**
   * The other eight productions, for k = 0 .. 7: at most k words, "::", then exactly 7 - k units.
   * "::" therefore stands for one unit or more, and the low 32 bits may be dotted only after it.
   */
  ghost predicate Production(k: nat, s: string, left: seq<string>, right: Groups) {
    && AllH16(left) && |left| <= k
    && WellFormed(right) && Units(right) == 7 - k
    && s == Join(left, ':') + "::" + Print(right)
  }

  ghost predicate Ipv6Address(s: string) {
    Uncompressed(s) || exists k: nat, left, right :: k <= 7 && Production(k, s, left, right)
  }

  // ---------------------------------------------------------------------------------------------
  // Shape of printed groups
  // ---------------------------------------------------------------------------------------------

  lemma DottedShape(text: string)
    requires IsIpv4Text(text)
    ensures '.' in text && ':' !in text && text != ""
  {
    var q: Quad :| text == Dotted(q);
    DottedChars(q);
    assert text == Decimal(q[0]) + "." + Dotted(q[1..]);
    assert text[|Decimal(q[0])|] == '.';
  }

  lemma {:induction false} DottedChars(octets: seq<nat>)
    ensures forall i :: 0 <= i < |Dotted(octets)| ==> IsDigit(Dotted(octets)[i]) || Dotted(octets)[i] == '.'
  {
    if |octets| > 1 {
      DottedChars(octets[1..]);
    }
  }

  lemma ItemsSepFree(g: Groups)
    requires WellFormed(g)
    ensures SepFree(Items(g), ':')
  {
    if g.dotted != "" {
      DottedShape(g.dotted);
    }
    assert forall w :: IsH16(w) ==> w != "" && ':' !in w;
  }

  /** No two neighbouring colons, and none at either end. */
  ghost predicate Single(s: string) {
    && (forall i :: 0 <= i < |s| - 1 ==> !(s[i] == ':' && s[i + 1] == ':'))
    && (s != "" ==> s[0] != ':' && s[|s| - 1] != ':')
  }

  lemma {:induction false} JoinSingle(items: seq<string>)
    requires SepFree(items, ':')
    ensures Single(Join(items, ':'))
    ensures Join(items, ':') == "" <==> items == []
  {
    if |items| > 1 {
      JoinSingle(items[1..]);
      assert Join(items, ':') == items[0] + [':'] + Join(items[1..], ':');
    }
  }

  // ---------------------------------------------------------------------------------------------
  // Counting the words of one part
  // ---------------------------------------------------------------------------------------------

  /** The value of the `count` lambda: words in the part, or -1 where it is malformed. */
  ghost function Count(part: string, allowV4: bool): (n: int)
    ensures n >= -1
    decreases |part|
  {
    if part == "" then 0
    else
      var colon := Find(part, ':');
      var word := part[..colon];
      if '.' in word then (if allowV4 && colon == |part| && IsIpv4Text(word) then 2 else -1)
      else if !IsH16(word) then -1
      else if colon == |part| then 1
      else if colon + 1 == |part| then -1
      else if Count(part[colon + 1..], allowV4) < 0 then -1
      else 1 + Count(part[colon + 1..], allowV4)
  }

  /** What a well-formed part is the printing of. */
  lemma {:induction false} CountSound(part: string, allowV4: bool) returns (g: Groups)
    requires Count(part, allowV4) >= 0
    ensures WellFormed(g) && part == Print(g) && Units(g) == Count(part, allowV4)
    ensures !allowV4 ==> g.dotted == ""
    decreases |part|
  {
    if part == "" { return Groups([], ""); }
    var colon := Find(part, ':');
    var word := part[..colon];
    if colon == |part| {
      assert word == part;
      if '.' in word {
        g := Groups([], word);
        assert Items(g) == [word];
      } else {
        g := Groups([word], "");
        assert Items(g) == [word];
      }
    } else {
      SplitAtFind(part, ':');
      var rest := CountSound(part[colon + 1..], allowV4);
      g := Groups([word] + rest.words, rest.dotted);
      assert Items(g) == [word] + Items(rest);
      assert Items(g)[1..] == Items(rest);
      assert Items(rest) != [];
    }
  }

  lemma {:induction false} CountComplete(g: Groups, allowV4: bool)
    requires WellFormed(g) && (!allowV4 ==> g.dotted == "")
    ensures Count(Print(g), allowV4) == Units(g)
    decreases |g.words|
  {
    ItemsSepFree(g);
    var part := Print(g);
    if g.words == [] {
      if g.dotted != "" {
        assert Items(g) == [g.dotted];
        DottedShape(g.dotted);
        FindAbsent(part, ':');
        assert part[..|part|] == part;
      }
    } else {
      JoinHead(Items(g), ':');
      var colon := Find(part, ':');
      assert part[..colon] == g.words[0];
      assert '.' !in g.words[0] by { assert IsH16(g.words[0]); }
      if |Items(g)| > 1 {
        var rest := Groups(g.words[1..], g.dotted);
        assert Items(rest) == Items(g)[1..];
        assert part[colon + 1..] == Print(rest);
        ItemsSepFree(rest);
        JoinSingle(Items(rest));
        CountComplete(rest, allowV4);
      }
    }
  }

  /** Two readings of the same part have the same number of units. */
  lemma CountExact(part: string, allowV4: bool, n: nat)
    ensures Count(part, allowV4) == n
            <==> exists g: Groups :: WellFormed(g) && (!allowV4 ==> g.dotted == "") && Units(g) == n && part == Print(g)
  {
    if Count(part, allowV4) == n {
      var g := CountSound(part, allowV4);
    }
    forall g: Groups | WellFormed(g) && (!allowV4 ==> g.dotted == "") && Units(g) == n && part == Print(g)
      ensures Count(part, allowV4) == n
    {
      CountComplete(g, allowV4);
    }
  }

  method CountWords(text: string, allowV4: bool) returns (n: int)
    ensures n == Count(text, allowV4)
  {
    var part := text;
    var words := 0;
    while part != ""
      invariant Count(text, allowV4) == if Count(part, allowV4) < 0 then -1 else words + Count(part, allowV4)
      invariant words > 0 ==> part != ""
      decreases |part|
    {
      var colon := Find(part, ':');
      var word := part[..colon];
      if '.' in word {
        var dotted := ReadDecimalAddress(word);
        return if allowV4 && colon == |part| && dotted then words + 2 else -1;
      }
      if !IsH16(word) { return -1; }
      words := words + 1;
      if colon == |part| { return words; }
      part := part[colon + 1..];
      if part == "" { return -1; }
    }
    return words;
  }

  // ---------------------------------------------------------------------------------------------
  // IPv6 literals
  // ---------------------------------------------------------------------------------------------

  /** `find("::", from)`, with |s| for npos. */
  method FindCompression(s: string, from: nat) returns (at: nat)
    requires from <= |s|
    ensures at == |s| || (from <= at < |s| - 1 && s[at] == ':' && s[at + 1] == ':')
    ensures forall i :: from <= i < at && i < |s| - 1 ==> !(s[i] == ':' && s[i + 1] == ':')
  {
    at := from;
    while at + 1 < |s|
      invariant from <= at <= |s|
      invariant forall i :: from <= i < at && i < |s| - 1 ==> !(s[i] == ':' && s[i + 1] == ':')
    {
      if s[at] == ':' && s[at + 1] == ':' { return; }
      at := at + 1;
    }
    at := |s|;
  }

  lemma UncompressedHasNoDouble(s: string)
    requires Uncompressed(s)
    ensures Single(s)
  {
    var g: Groups :| WellFormed(g) && Units(g) == 8 && s == Print(g);
    ItemsSepFree(g);
    JoinSingle(Items(g));
  }

  /** A compressed address determines where its "::" is, and there is no other. */
  lemma CompressionIsUnique(k: nat, s: string, left: seq<string>, right: Groups, i: nat)
    requires k <= 7 && Production(k, s, left, right)
    requires i + 1 < |s| && s[i] == ':' && s[i + 1] == ':'
    ensures i == |Join(left, ':')|
  {
    var l, r := Join(left, ':'), Print(right);
    assert SepFree(left, ':') by { assert forall w :: IsH16(w) ==> w != "" && ':' !in w; }
    JoinSingle(left);
    ItemsSepFree(right);
    JoinSingle(Items(right));
    assert s == l + "::" + r;
  }

  lemma CompressedSound(s: string, c: nat)
    requires c + 1 < |s| && s[c] == ':' && s[c + 1] == ':'
    requires Count(s[..c], false) >= 0 && Count(s[c + 2..], true) >= 0
    requires Count(s[..c], false) + Count(s[c + 2..], true) < 8
    ensures Ipv6Address(s)
  {
    var left := CountSound(s[..c], false);
    var right := CountSound(s[c + 2..], true);
    assert s == s[..c] + "::" + s[c + 2..];
    Produced(s, left, right);
  }

  lemma Produced(s: string, left: Groups, right: Groups)
    requires WellFormed(left) && WellFormed(right) && left.dotted == "" && Units(left) + Units(right) < 8
    requires s == Print(left) + "::" + Print(right)
    ensures Ipv6Address(s)
  {
    assert Items(left) == left.words;
    assert Production(7 - Units(right), s, left.words, right);
  }

  lemma CompressedComplete(k: nat, s: string, left: seq<string>, right: Groups)
    requires k <= 7 && Production(k, s, left, right)
    ensures var c := |Join(left, ':')|;
            0 <= Count(s[..c], false) <= k && Count(s[c + 2..], true) == 7 - k
  {
    var c, g := |Join(left, ':')|, Groups(left, "");
    assert Items(g) == left;
    assert s[..c] == Print(g) && s[c + 2..] == Print(right);
    CountComplete(g, false);
    CountComplete(right, true);
  }

  lemma ProductionHasDouble(k: nat, s: string, left: seq<string>, right: Groups)
    requires Production(k, s, left, right)
    ensures exists i :: 0 <= i < |s| - 1 && s[i] == ':' && s[i + 1] == ':'
  {
    var i := |Join(left, ':')|;
    assert s[i] == ':' && s[i + 1] == ':';
  }

  /** The branch of `validNtpServer` for text with a colon. */
  method ReadIpv6(text: string) returns (ok: bool)
    ensures ok <==> Ipv6Address(text)
  {
    var compression := FindCompression(text, 0);
    if compression != |text| {
      var second := FindCompression(text, compression + 2);
      if second != |text| {
        if Ipv6Address(text) { TwoCompressions(text, compression, second); }
        return false;
      }
    }
    if compression == |text| {
      var words := CountWords(text, true);
      CountExact(text, true, 8);
      if k: nat, left, right :| k <= 7 && Production(k, text, left, right) {
        ProductionHasDouble(k, text, left, right);
        assert false;
      }
      return words == 8;
    }
    var left := CountWords(text[..compression], false);
    var right := CountWords(text[compression + 2..], true);
    ok := left >= 0 && right >= 0 && left + right < 8;
    if ok { CompressedSound(text, compression); }
    if Uncompressed(text) {
      UncompressedHasNoDouble(text);
      assert false;
    }
    forall k: nat, l, r | k <= 7 && Production(k, text, l, r)
      ensures ok
    {
      CompressionIsUnique(k, text, l, r, compression);
      CompressedComplete(k, text, l, r);
    }
  }

  lemma TwoCompressions(s: string, c: nat, d: nat)
    requires c + 2 <= d && d + 1 < |s|
    requires s[c] == ':' && s[c + 1] == ':' && s[d] == ':' && s[d + 1] == ':'
    ensures !Ipv6Address(s)
  {
    if Uncompressed(s) { UncompressedHasNoDouble(s); }
    if k: nat, left, right :| k <= 7 && Production(k, s, left, right) {
      CompressionIsUnique(k, s, left, right, c);
      CompressionIsUnique(k, s, left, right, d);
    }
  }

  // ---------------------------------------------------------------------------------------------
  // Host names, and the whole rule
  // ---------------------------------------------------------------------------------------------

  predicate IsLabel(s: string) {
    && 1 <= |s| <= 63 && s[0] != '-' && s[|s| - 1] != '-'
    && forall i :: 0 <= i < |s| ==> IsAlnum(s[i]) || s[i] == '-'
  }

  ghost predicate IsLabels(text: string, labels: seq<string>) {
    labels != [] && (forall i :: 0 <= i < |labels| ==> IsLabel(labels[i])) && text == Join(labels, '.')
  }

  /** Dot-separated labels, optionally closed by the root's dot. */
  ghost predicate HostName(s: string) {
    LabelText(s) || (s != "" && s[|s| - 1] == '.' && LabelText(s[..|s| - 1]))
  }

  predicate DigitsAndDots(s: string) { forall i :: 0 <= i < |s| ==> IsDigit(s[i]) || s[i] == '.' }

  ghost predicate NtpServer(s: string) {
    && 0 < |s| <= 253
    && if ':' in s then Ipv6Address(s) else if DigitsAndDots(s) then IsIpv4Text(s) else HostName(s)
  }

  ghost predicate LabelText(text: string) { exists labels :: IsLabels(text, labels) }

  lemma LabelStepDown(text: string, labels: seq<string>)
    requires IsLabels(text, labels)
    ensures var dot := Find(text, '.');
            IsLabel(text[..dot]) && (dot == |text| || LabelText(text[dot + 1..]))
  {
    assert forall w :: IsLabel(w) ==> w != "" && '.' !in w;
    JoinHead(labels, '.');
    var dot := Find(text, '.');
    if dot < |text| {
      assert text[dot + 1..] == Join(labels[1..], '.');
      assert IsLabels(text[dot + 1..], labels[1..]);
    }
  }

  lemma LabelOne(text: string)
    requires IsLabel(text)
    ensures LabelText(text)
  {
    assert IsLabels(text, [text]);
  }

  lemma LabelsCons(head: string, rest: string)
    requires IsLabel(head) && LabelText(rest)
    ensures LabelText(head + ['.'] + rest)
  {
    var labels :| IsLabels(rest, labels);
    assert ([head] + labels)[1..] == labels;
    assert IsLabels(head + ['.'] + rest, [head] + labels);
  }

  lemma LabelStep(text: string)
    ensures LabelText(text) <==>
            var dot := Find(text, '.');
            IsLabel(text[..dot]) && (dot == |text| || LabelText(text[dot + 1..]))
  {
    var dot := Find(text, '.');
    if labels :| IsLabels(text, labels) {
      LabelStepDown(text, labels);
    } else if IsLabel(text[..dot]) {
      if dot == |text| {
        assert text[..dot] == text;
        LabelOne(text);
      } else if LabelText(text[dot + 1..]) {
        LabelsCons(text[..dot], text[dot + 1..]);
        SplitAtFind(text, '.');
      }
    }
  }

  lemma {:induction false} LabelTextEnds(text: string)
    requires LabelText(text)
    ensures text != "" && text[|text| - 1] != '.'
    decreases |text|
  {
    LabelStep(text);
    var dot := Find(text, '.');
    if dot < |text| { LabelTextEnds(text[dot + 1..]); }
  }

  lemma HostNameCut(name: string)
    requires name != ""
    ensures HostName(name) <==> LabelText(if name[|name| - 1] == '.' then name[..|name| - 1] else name)
  {
    if LabelText(name) { LabelTextEnds(name); }
  }

  /** The loop of the host name branch. */
  method ReadHostName(name: string) returns (ok: bool)
    requires name != ""
    ensures ok <==> HostName(name)
  {
    var text := if name[|name| - 1] == '.' then name[..|name| - 1] else name;
    HostNameCut(name);
    ghost var whole := text;
    while text != ""
      invariant LabelText(whole) <==> LabelText(text)
      decreases |text|
    {
      var dot := Find(text, '.');
      LabelStep(text);
      if !IsLabel(text[..dot]) { return false; }
      if dot == |text| { return true; }
      text := text[dot + 1..];
    }
    if LabelText("") { LabelTextEnds(""); }
    return false;
  }

  method ReadNtpServer(server: string) returns (ok: bool)
    ensures ok <==> NtpServer(server)
  {
    if server == "" || |server| > 253 { return false; }
    if ':' in server {
      ok := ReadIpv6(server);
    } else if DigitsAndDots(server) {
      ok := ReadDecimalAddress(server);
    } else {
      ok := ReadHostName(server);
    }
  }
}
