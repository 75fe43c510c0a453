/** The address recognisers of validation.cpp, each proved against the grammar it recognises. */
module Addresses {
  import opened Text
  import opened Configuration

  // ---------------------------------------------------------------------------------------------
  // Decimal octets
  // ---------------------------------------------------------------------------------------------

  const UINT32: nat := 0x1_0000_0000

  predicate AllDigits(s: string) { forall i :: 0 <= i < |s| ==> IsDigit(s[i]) }

  function DigitValue(c: char): nat
    requires IsDigit(c)
  {
    c as int - '0' as int
  }

  function Value(s: string): nat
    requires AllDigits(s)
  {
    if s == "" then 0 else 10 * Value(s[..|s| - 1]) + DigitValue(s[|s| - 1])
  }

  /** `from_chars` into an unsigned, base ten, accepted only when it consumes the whole part. */
  function FromChars(s: string): (r: Option<nat>)
  {
    if s != "" && AllDigits(s) && Value(s) < UINT32 then Some(Value(s)) else None
  }

  function ParseOctet(part: string): (r: Option<nat>)
  {
    if part != "" && (|part| == 1 || part[0] != '0') && FromChars(part).Some? && FromChars(part).value <= 255
    then FromChars(part) else None
  }

  /** Decimal numeral without leading zeros. */
  function Decimal(n: nat): (s: string)
    ensures s != "" && AllDigits(s)
    ensures |s| == 1 <==> n < 10
    ensures n >= 10 ==> s[0] != '0'
  {
    if n < 10 then [('0' as int + n) as char]
    else Decimal(n / 10) + [('0' as int + n % 10) as char]
  }

  lemma {:induction false} DecimalValue(n: nat)
    ensures Value(Decimal(n)) == n
  {
    if n >= 10 {
      DecimalValue(n / 10);
      var s := Decimal(n);
      assert s[..|s| - 1] == Decimal(n / 10);
    } else {
      assert Decimal(n)[..0] == "";
    }
  }

  lemma {:induction false} ValueDecimal(s: string)
    requires s != "" && AllDigits(s) && (|s| == 1 || s[0] != '0')
    ensures Decimal(Value(s)) == s
    ensures |s| > 1 ==> Value(s) >= 10
  {
    var body, last := s[..|s| - 1], s[|s| - 1];
    assert s == body + [last];
    if |s| > 1 {
      ValueDecimal(body);
      if |body| == 1 {
        assert body[..0] == "";
        assert Value(body) == DigitValue(body[0]);
      }
    } else {
      assert s[..0] == "";
    }
  }

  /** An octet is accepted exactly when it is the numeral of a number up to 255. */
  lemma ParseOctetExact(part: string, n: nat)
    ensures ParseOctet(part) == Some(n) <==> n <= 255 && part == Decimal(n)
  {
    if ParseOctet(part) == Some(n) {
      ValueDecimal(part);
    }
    if n <= 255 && part == Decimal(n) {
      DecimalValue(n);
    }
  }

  // ---------------------------------------------------------------------------------------------
  // Dotted IPv4
  // ---------------------------------------------------------------------------------------------

  /** Four octets in printed order. */
  type Quad = q: seq<nat> | |q| == 4 && forall i :: 0 <= i < 4 ==> q[i] <= 255 witness [0, 0, 0, 0]

  function Dotted(octets: seq<nat>): string {
    if octets == [] then ""
    else if |octets| == 1 then Decimal(octets[0])
    else Decimal(octets[0]) + "." + Dotted(octets[1..])
  }

  /** The octets of `rest` when exactly `n` of them, dot separated, make up the whole text. */
  function ParseOctets(rest: string, n: nat): (r: Option<seq<nat>>)
    requires n > 0
    decreases n
  {
    var dot := Find(rest, '.');
    var octet := ParseOctet(rest[..dot]);
    if octet.None? || (n == 1) != (dot == |rest|) then None
    else if n == 1 then Some([octet.value])
    else
      var more := ParseOctets(rest[dot + 1..], n - 1);
      if more.None? then None else Some([octet.value] + more.value)
  }

  ghost predicate Octets(octets: seq<nat>) { forall i :: 0 <= i < |octets| ==> octets[i] <= 255 }

  lemma {:induction false} ParseOctetsSound(rest: string, n: nat)
    requires n > 0 && ParseOctets(rest, n).Some?
    ensures var octets := ParseOctets(rest, n).value;
            |octets| == n && Octets(octets) && rest == Dotted(octets)
    decreases n
  {
    var dot := Find(rest, '.');
    var octets := ParseOctets(rest, n).value;
    ParseOctetExact(rest[..dot], octets[0]);
    if n == 1 {
      assert rest[..dot] == rest;
    } else {
      ParseOctetsSound(rest[dot + 1..], n - 1);
      assert octets[1..] == ParseOctets(rest[dot + 1..], n - 1).value;
      SplitAtFind(rest, '.');
    }
  }

  lemma {:induction false} ParseOctetsComplete(octets: seq<nat>)
    requires octets != [] && Octets(octets)
    ensures ParseOctets(Dotted(octets), |octets|) == Some(octets)
  {
    if |octets| == 1 {
      ParseOctetsOne(octets[0]);
      assert octets == [octets[0]];
    } else {
      ParseOctetsComplete(octets[1..]);
      ParseOctetsNext(octets[0], octets[1..]);
      assert octets == [octets[0]] + octets[1..];
    }
  }

  lemma ParseOctetsNext(n: nat, octets: seq<nat>)
    requires n <= 255 && octets != [] && ParseOctets(Dotted(octets), |octets|) == Some(octets)
    ensures ParseOctets(Dotted([n] + octets), |[n] + octets|) == Some([n] + octets)
  {
    assert ([n] + octets)[1..] == octets;
    ParseOctetsCons(n, Dotted(octets), octets);
  }

  lemma ParseOctetsOne(n: nat)
    requires n <= 255
    ensures ParseOctets(Decimal(n), 1) == Some([n])
  {
    ParseOctetExact(Decimal(n), n);
    FindAbsent(Decimal(n), '.');
    assert Decimal(n)[..|Decimal(n)|] == Decimal(n);
  }

  lemma ParseOctetsCons(n: nat, tail: string, octets: seq<nat>)
    requires n <= 255
    requires octets != [] && ParseOctets(tail, |octets|) == Some(octets)
    ensures ParseOctets(Decimal(n) + "." + tail, 1 + |octets|) == Some([n] + octets)
  {
    var head := Decimal(n);
    var rest := head + "." + tail;
    ParseOctetExact(head, n);
    FindAfterHead(head, '.', tail);
    assert rest == head + ['.'] + tail;
    assert rest[..|head|] == head && rest[|head| + 1..] == tail;
  }

  function Number(q: seq<nat>): nat {
    if q == [] then 0 else 256 * Number(q[..|q| - 1]) + q[|q| - 1]
  }

  /** `ipv4`: the address as a number, or nothing where the source throws. */
  function Ipv4(text: string): (r: Option<nat>) {
    var q := ParseOctets(text, 4);
    if q.Some? && q.value != [] && q.value[0] != 0 && q.value[0] < 224 && q.value[0] != 127
    then Some(Number(q.value)) else None
  }

  ghost predicate Unicast(q: Quad) { 1 <= q[0] <= 223 && q[0] != 127 }

  ghost predicate IsIpv4Text(text: string) {
    exists q: Quad :: text == Dotted(q)
  }

  lemma NumberOfQuad(q: Quad)
    ensures Number(q) == ((q[0] * 256 + q[1]) * 256 + q[2]) * 256 + q[3]
    ensures Number(q) / 0x100_0000 == q[0]
    ensures Number(q) < UINT32
  {
    assert q[..3][..2] == q[..2] && q[..2][..1] == q[..1] && q[..1][..0] == [];
    assert Number(q[..1]) == q[0];
    assert Number(q[..2]) == 256 * q[0] + q[1];
    assert Number(q[..3]) == 256 * Number(q[..2]) + q[2];
  }

  /** Equal numbers come from equal octets. */
  lemma NumberInjective(a: Quad, b: Quad)
    requires Number(a) == Number(b)
    ensures a == b
  {
    NumberOfQuad(a);
    NumberOfQuad(b);
    assert a[0] == b[0];
    assert a[1] == b[1] && a[2] == b[2] && a[3] == b[3];
  }

  /** `ipv4` accepts exactly canonical unicast dotted decimals, and inverts their printing. */
  lemma Ipv4Exact(text: string, n: nat)
    ensures Ipv4(text) == Some(n) <==> exists q: Quad :: Unicast(q) && text == Dotted(q) && n == Number(q)
  {
    var r := ParseOctets(text, 4);
    if Ipv4(text) == Some(n) {
      ParseOctetsSound(text, 4);
      var q: Quad := r.value;
      assert Unicast(q) && text == Dotted(q) && n == Number(q);
    }
    forall q: Quad | Unicast(q) && text == Dotted(q) && n == Number(q)
      ensures Ipv4(text) == Some(n)
    {
      ParseOctetsComplete(q);
    }
  }

  /** Every accepted text is the printing of one quad only, so address texts and addresses correspond. */
  lemma Ipv4Injective(s: string, t: string)
    requires Ipv4(s).Some? && Ipv4(s) == Ipv4(t)
    ensures s == t
  {
    Ipv4Exact(s, Ipv4(s).value);
    Ipv4Exact(t, Ipv4(t).value);
    var a: Quad :| Unicast(a) && s == Dotted(a) && Ipv4(s).value == Number(a);
    var b: Quad :| Unicast(b) && t == Dotted(b) && Ipv4(t).value == Number(b);
    NumberInjective(a, b);
  }

  /** Cuts the next of k parts off the front of the text; only the last one ends without a dot. */
  method NextOctet(rest: string, k: nat) returns (n: Option<nat>, tail: string)
    requires k > 0
    ensures n.None? ==> ParseOctets(rest, k) == None
    ensures n.Some? && k == 1 ==> ParseOctets(rest, k) == Some([n.value])
    ensures n.Some? && k > 1 ==> ParseOctets(rest, k) == Prepend([n.value], ParseOctets(tail, k - 1))
  {
    tail := rest;
    var dot := Find(rest, '.');
    n := ParseOctet(rest[..dot]);
    if n.None? || (k == 1) != (dot == |rest|) { return None, tail; }
    if dot != |rest| { tail := rest[dot + 1..]; }
  }

  /** The loop of `ipv4`: four parts are cut off the front, and the result is shifted along. */
  method ReadQuad(text: string) returns (ok: bool, result: nat)
    ensures ok <==> ParseOctets(text, 4).Some?
    ensures ok ==> result == Number(ParseOctets(text, 4).value)
  {
    result := 0;
    var rest := text;
    ghost var octets: seq<nat> := [];
    PrependNothing(ParseOctets(text, 4));
    for i := 0 to 4
      invariant result == Number(octets)
      invariant i < 4 ==> ParseOctets(text, 4) == Prepend(octets, ParseOctets(rest, 4 - i))
      invariant i == 4 ==> ParseOctets(text, 4) == Some(octets)
    {
      var n, tail := NextOctet(rest, 4 - i);
      if n.None? { return false, 0; }
      NumberNext(octets, n.value);
      if i < 3 { PrependPrepend(octets, n.value, ParseOctets(tail, 3 - i)); }
      result, rest := result * 256 + n.value, tail;
      octets := octets + [n.value];
    }
    ok := true;
  }

  /** `ipv4`. */
  method ReadIpv4(text: string) returns (address: Option<nat>)
    ensures address == Ipv4(text)
    ensures address.Some? ==> address.value < UINT32
  {
    var ok, result := ReadQuad(text);
    if !ok { return None; }
    ParseOctetsSound(text, 4);
    NumberOfQuad(ParseOctets(text, 4).value);
    if result / 0x100_0000 == 0 || result / 0x100_0000 >= 224 || result / 0x100_0000 == 127 { return None; }
    return Some(result);
  }

  lemma NumberNext(octets: seq<nat>, n: nat)
    ensures Number(octets + [n]) == Number(octets) * 256 + n
  {
    assert (octets + [n])[..|octets|] == octets;
  }

  /** `decimalAddress`, the NTP rules' own copy of the loop: any four octets, not only unicast. */
  method ReadDecimalAddress(address: string) returns (ok: bool)
    ensures ok <==> IsIpv4Text(address)
  {
    var text := address;
    for i := 0 to 4
      invariant i < 4 ==> ParseOctets(address, 4).Some? == ParseOctets(text, 4 - i).Some?
      invariant i == 4 ==> ParseOctets(address, 4).Some?
    {
      var n, tail := NextOctet(text, 4 - i);
      if n.None? {
        DecimalAddressExact(address);
        return false;
      }
      text := tail;
    }
    DecimalAddressExact(address);
    return true;
  }

  lemma DecimalAddressExact(text: string)
    ensures ParseOctets(text, 4).Some? <==> IsIpv4Text(text)
  {
    if ParseOctets(text, 4).Some? {
      ParseOctetsSound(text, 4);
      var q: Quad := ParseOctets(text, 4).value;
      assert text == Dotted(q);
    }
    forall q: Quad | text == Dotted(q)
      ensures ParseOctets(text, 4).Some?
    {
      ParseOctetsComplete(q);
    }
  }
}
