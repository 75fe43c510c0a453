/** The writer of changed-field lists in logging.cpp and their reader in journal_reader.cpp. */
module ChangedFields {
  import opened Text
  import opened Configuration

  const MAX_FIELDS: nat := 64
  const MAX_NAME: nat := 128

  predicate NameChar(c: char) { IsAlnum(c) || c == '.' || c == '-' || c == '_' }

  predicate Identifier(s: string) {
    1 <= |s| <= MAX_NAME && forall i :: 0 <= i < |s| ==> NameChar(s[i])
  }

  /** What `valid_user_event` admits. */
  ghost predicate Fields(names: seq<string>) {
    |names| <= MAX_FIELDS && Identifiers(names)
  }

  ghost predicate Identifiers(names: seq<string>) {
    forall i :: 0 <= i < |names| ==> Identifier(names[i])
  }

  function Quote(name: string): string { "\"" + name + "\"" }

  function Items(names: seq<string>): string {
    if names == [] then ""
    else if |names| == 1 then Quote(names[0])
    else Quote(names[0]) + "," + Items(names[1..])
  }

  /** The text written for a list. */
  function Written(names: seq<string>): string { "[" + Items(names) + "]" }

  method WriteFields(names: seq<string>) returns (text: string)
    ensures text == Written(names)
  {
    text := "[";
    for i := 0 to |names|
      invariant text == "[" + Items(names[..i])
    {
      ItemsAppend(names[..i], names[i]);
      assert names[..i + 1] == names[..i] + [names[i]];
      if |text| > 1 { text := text + ","; }
      text := text + "\"";
      text := text + names[i];
      text := text + "\"";
    }
    assert names[..|names|] == names;
    text := text + "]";
  }

  lemma {:induction false} ItemsAppend(names: seq<string>, name: string)
    ensures Items(names + [name]) == (if names == [] then Quote(name) else Items(names) + "," + Quote(name))
    ensures Items(names) == "" <==> names == []
  {
    if names != [] {
      assert (names + [name])[1..] == names[1..] + [name];
      ItemsAppend(names[1..], name);
    }
  }

  // ---------------------------------------------------------------------------------------------
  // Reading
  // ---------------------------------------------------------------------------------------------

  /** A name cut off the front of a text, and what follows its closing quote. */
  datatype Cut = Cut(name: string, tail: string)

  function CutName(value: string): (r: Option<Cut>)
    ensures r.Some? ==> |r.value.tail| < |value|
  {
    if value == "" || value[0] != '\"' then None
    else
      var rest := value[1..];
      var end := Find(rest, '\"');
      if end == |rest| || !Identifier(rest[..end]) then None else Some(Cut(rest[..end], rest[end + 1..]))
  }

  /** The names of a non-empty item list, if the text is one. */
  function ReadItems(value: string): Option<seq<string>>
    decreases |value|
  {
    var cut := CutName(value);
    if cut.None? then None
    else if cut.value.tail == "" then Some([cut.value.name])
    else if cut.value.tail[0] != ',' then None
    else
      var more := ReadItems(cut.value.tail[1..]);
      if more.None? then None else Some([cut.value.name] + more.value)
  }

  /** The list a text is read as; anything but a written list counts as the empty one. */
  function Read(value: string): seq<string> {
    if |value| > MAX_FIELDS * 132 || |value| < 2 || value[0] != '[' || value[|value| - 1] != ']' then []
    else
      var names := ReadItems(value[1..|value| - 1]);
      if names.Some? && |names.value| <= MAX_FIELDS then names.value else []
  }

  lemma CutExact(value: string, name: string, tail: string)
    ensures CutName(value) == Some(Cut(name, tail)) <==> Identifier(name) && value == Quote(name) + tail
  {
    if CutName(value) == Some(Cut(name, tail)) {
      SplitAtFind(value[1..], '\"');
    }
    if Identifier(name) && value == Quote(name) + tail {
      assert value[1..] == name + ['\"'] + tail;
      FindAfterHead(name, '\"', tail);
      assert value[1..][..|name|] == name && value[1..][|name| + 1..] == tail;
    }
  }

  lemma ReadLast(name: string)
    requires Identifier(name)
    ensures ReadItems(Quote(name)) == Some([name])
  {
    assert Quote(name) == Quote(name) + "";
    CutExact(Quote(name), name, "");
  }

  lemma ReadMore(name: string, rest: string)
    requires Identifier(name)
    ensures ReadItems(Quote(name) + ("," + rest)) == Prepend([name], ReadItems(rest))
  {
    CutExact(Quote(name) + ("," + rest), name, "," + rest);
    assert ("," + rest)[1..] == rest;
  }

  lemma {:induction false} ReadItemsComplete(names: seq<string>)
    requires names != [] && Identifiers(names)
    ensures ReadItems(Items(names)) == Some(names)
  {
    if |names| == 1 {
      ReadLast(names[0]);
      assert names == [names[0]];
    } else {
      ReadItemsComplete(names[1..]);
      ReadMore(names[0], Items(names[1..]));
      assert names == [names[0]] + names[1..];
      ItemsCons(names[0], names[1..]);
    }
  }

  /** How a text that is read as something begins. */
  lemma ReadBegins(value: string) returns (name: string, rest: string)
    requires ReadItems(value).Some?
    ensures Identifier(name) && |rest| < |value|
    ensures value == Quote(name) || (value == Quote(name) + ("," + rest) && ReadItems(rest).Some?)
  {
    var cut := CutName(value).value;
    CutExact(value, cut.name, cut.tail);
    name := cut.name;
    rest := if cut.tail == "" then "" else cut.tail[1..];
    if cut.tail == "" {
      assert Quote(name) + "" == Quote(name);
    } else {
      assert cut.tail == "," + rest;
    }
  }

  lemma {:induction false} ReadItemsSound(value: string)
    requires ReadItems(value).Some?
    ensures var names := ReadItems(value).value;
            names != [] && Identifiers(names) && value == Items(names)
    decreases |value|
  {
    var name, rest := ReadBegins(value);
    if value == Quote(name) {
      ReadLast(name);
    } else {
      ReadItemsSound(rest);
      ReadMore(name, rest);
      ItemsCons(name, ReadItems(rest).value);
    }
  }

  lemma ItemsCons(name: string, more: seq<string>)
    requires more != []
    ensures Items([name] + more) == Quote(name) + ("," + Items(more))
  {
    assert ([name] + more)[1..] == more;
  }

  lemma {:induction false} ItemsLength(names: seq<string>)
    requires forall i :: 0 <= i < |names| ==> |names[i]| <= MAX_NAME
    ensures |Items(names)| <= 131 * |names|
  {
    if |names| > 1 { ItemsLength(names[1..]); }
  }

  /** Round trip: every admitted list is read back from what is written for it. */
  lemma RoundTrip(names: seq<string>)
    requires Fields(names)
    ensures Read(Written(names)) == names
  {
    var value := Written(names);
    ItemsLength(names);
    assert value[1..|value| - 1] == Items(names);
    if names != [] { ReadItemsComplete(names); }
  }

  /** At most 64 names of 1 to 128 letters, digits, dots, dashes and underscores. */
  ghost predicate Admitted(names: seq<string>) {
    && |names| <= 64
    && forall i :: 0 <= i < |names| ==>
         && 0 < |names[i]| < 129
         && forall k :: 0 <= k < |names[i]| ==>
              var c := names[i][k];
              'a' <= c <= 'z' || 'A' <= c <= 'Z' || '0' <= c <= '9' || c in {'.', '-', '_'}
  }

  /** Of the non-empty lists exactly these are read, each from exactly the text written for it. */
  lemma ReadsExactly(text: string, names: seq<string>)
    requires names != []
    ensures Read(text) == names <==> text == Written(names) && Admitted(names)
  {
    if Read(text) == names { ReadsOnlyWritten(text); }
    if text == Written(names) && Admitted(names) { RoundTrip(names); }
  }

  /** The reader invents nothing: a non-empty list comes only from the text written for that list. */
  lemma ReadsOnlyWritten(value: string)
    requires Read(value) != []
    ensures Fields(Read(value)) && value == Written(Read(value))
  {
    Unwrap(value);
    ReadItemsSound(value[1..|value| - 1]);
  }

  lemma Unwrap(value: string)
    requires |value| >= 2 && value[0] == '[' && value[|value| - 1] == ']'
    ensures value == "[" + value[1..|value| - 1] + "]"
  {
  }

  // ---------------------------------------------------------------------------------------------
  // The reader's loop
  // ---------------------------------------------------------------------------------------------

  /** The reader. Its text has to open with `["` and close with `"]` before the loop begins. */
  method ReadFields(text: string) returns (result: seq<string>)
    ensures result == Read(text)
  {
    if text == "[]" {
      NothingInside();
      return [];
    }
    if |text| > MAX_FIELDS * 132 { return []; }
    if |text| < 2 || text[..2] != "[\"" || text[|text| - 2..] != "\"]" {
      NeitherQuote(text);
      return [];
    }
    Bracketed(text);
    result := ReadInner(text[1..|text| - 1]);
  }

  lemma NothingInside()
    ensures Read("[]") == []
  {
    assert "[]"[1..1] == "";
  }

  lemma Bracketed(text: string)
    requires |text| >= 2 && text[..2] == "[\"" && text[|text| - 2..] == "\"]"
    ensures text[0] == '[' && text[|text| - 1] == ']'
  {
    assert text[0] == text[..2][0] && text[|text| - 1] == text[|text| - 2..][1];
  }

  lemma NeitherQuote(text: string)
    requires |text| < 2 || text[..2] != "[\"" || text[|text| - 2..] != "\"]"
    ensures Read(text) == []
  {
    if Read(text) != [] {
      var names := Read(text);
      ReadsOnlyWritten(text);
      WrittenEnds(names);
    }
  }

  lemma WrittenEnds(names: seq<string>)
    requires names != []
    ensures |Written(names)| >= 4 && Written(names)[..2] == "[\"" && Written(names)[|Written(names)| - 2..] == "\"]"
  {
    var w := Written(names);
    ItemsEnds(names);
    assert w[..2] == [w[0], w[1]] && w[|w| - 2..] == [w[|w| - 2], w[|w| - 1]];
  }

  lemma {:induction false} ItemsEnds(names: seq<string>)
    requires names != []
    ensures var t := Items(names); |t| >= 2 && t[0] == '\"' && t[|t| - 1] == '\"'
  {
    if |names| > 1 { ItemsEnds(names[1..]); }
  }

  method ReadInner(inner: string) returns (result: seq<string>)
    ensures var names := ReadItems(inner);
            result == if names.Some? && |names.value| <= MAX_FIELDS then names.value else []
  {
    result := [];
    var value := inner;
    assert ReadItems(inner).Some? ==> [] + ReadItems(inner).value == ReadItems(inner).value;
    while value != ""
      invariant (value == "" ==> result == []) && |result| <= MAX_FIELDS
      invariant ReadItems(inner) == Prepend(result, ReadItems(value))
      decreases |value|
    {
      if value[0] != '\"' { return []; }
      var rest := value[1..];
      var end := Find(rest, '\"');
      if end == |rest| || end == 0 || end > MAX_NAME { return []; }
      var name := rest[..end];
      if !(forall i :: 0 <= i < |name| ==> NameChar(name[i])) { return []; }
      assert CutName(value) == Some(Cut(name, rest[end + 1..]));
      ghost var before := result;
      result := result + [name];
      if |result| > MAX_FIELDS {
        TooMany(inner, before, value);
        return [];
      }
      var tail := rest[end + 1..];
      if tail == "" { return; }
      if |tail| < 2 || tail[0] != ',' || tail[1] != '\"' { return []; }
      PrependPrepend(before, name, ReadItems(tail[1..]));
      value := tail[1..];
    }
  }

  lemma TooMany(inner: string, before: seq<string>, value: string)
    requires ReadItems(inner) == Prepend(before, ReadItems(value)) && |before| >= MAX_FIELDS
    ensures ReadItems(inner).Some? ==> |ReadItems(inner).value| > MAX_FIELDS
  {
    if ReadItems(value).Some? { ReadItemsSound(value); }
  }
}
