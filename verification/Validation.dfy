/** `validateNetwork` and `validate`, with the subnet checks on the source's own 32-bit masks. */
module Validation {
  import opened Text
  import opened Configuration
  import opened Addresses
  import opened NtpServers

  // ---------------------------------------------------------------------------------------------
  // Unsigned 32-bit masks
  // ---------------------------------------------------------------------------------------------

  function Pow2(k: nat): (p: nat)
    ensures p > 0
  {
    if k == 0 then 1 else 2 * Pow2(k - 1)
  }

  /** Bitwise and. */
  function And(a: nat, b: nat): nat {
    if a == 0 || b == 0 then 0 else (if a % 2 == 1 && b % 2 == 1 then 1 else 0) + 2 * And(a / 2, b / 2)
  }

  function Not32(a: nat): nat
    requires a < UINT32
  {
    UINT32 - 1 - a
  }

  function ShiftLeft32(a: nat, k: nat): (r: nat)
    ensures r < UINT32
  {
    a * Pow2(k) % UINT32
  }

  function Mask(prefix: nat): (m: nat)
    requires 1 <= prefix <= 32
    ensures m < UINT32
  {
    ShiftLeft32(UINT32 - 1, 32 - prefix)
  }

  lemma Pow2At32()
    ensures Pow2(32) == UINT32
  {
    assert Pow2(8) == 256;
    assert Pow2(16) == 256 * 256 by { assert Pow2(12) == 4096; }
    assert Pow2(24) == 0x100_0000 by { assert Pow2(20) == 0x10_0000; }
    assert Pow2(28) == 0x1000_0000;
  }

  /** Halving a remainder. */
  lemma ModDouble(a: nat, m: nat)
    requires m > 0
    ensures a % (2 * m) == 2 * ((a / 2) % m) + a % 2
  {
    var h := a / 2;
    var q, r := h / m, h % m;
    assert a == 2 * h + a % 2;
    assert h == m * q + r;
    assert a == (2 * m) * q + (2 * r + a % 2);
    assert 0 <= 2 * r + a % 2 < 2 * m;
    DivModUnique(a, 2 * m, q, 2 * r + a % 2);
  }

  lemma MulAtLeast(d: nat, k: nat)
    requires k >= 1
    ensures d * k >= d
  {
  }

  lemma DivModUnique(a: nat, d: nat, q: nat, r: nat)
    requires a == d * q + r && r < d
    ensures a / d == q && a % d == r
  {
    var k := a / d - q;
    assert d * k == r - a % d;
    if k >= 1 {
      MulAtLeast(d, k);
    }
  }

  lemma {:induction false} AndLow(a: nat, k: nat)
    ensures And(a, Pow2(k) - 1) == a % Pow2(k)
  {
    if k > 0 {
      var half := Pow2(k - 1);
      AndLow(a / 2, k - 1);
      ModDouble(a, half);
      AndOdd(a, half - 1);
    }
  }

  lemma {:induction false} Pow2Mono(k: nat, w: nat)
    requires k <= w
    ensures Pow2(k) <= Pow2(w)
  {
    if k < w { Pow2Mono(k, w - 1); }
  }

  /** `a` with its low k bits cleared. */
  ghost function ClearLow(a: nat, k: nat): nat {
    if k == 0 then a else 2 * ClearLow(a / 2, k - 1)
  }

  lemma {:induction false} ClearLowArithmetic(a: nat, k: nat)
    ensures ClearLow(a, k) == a - a % Pow2(k)
  {
    if k > 0 {
      ClearLowArithmetic(a / 2, k - 1);
      ModDouble(a, Pow2(k - 1));
    }
  }

  lemma AndAllOnes(a: nat, w: nat)
    requires a < Pow2(w)
    ensures And(a, Pow2(w) - 1) == a
  {
    AndLow(a, w);
    DivModUnique(a, Pow2(w), 0, a);
  }

  lemma {:induction false} AndHigh(a: nat, k: nat, w: nat)
    requires k <= w && a < Pow2(w) && Pow2(k) <= Pow2(w)
    ensures And(a, Pow2(w) - Pow2(k)) == ClearLow(a, k)
  {
    if k == 0 {
      AndAllOnes(a, w);
    } else {
      Pow2Mono(k - 1, w - 1);
      AndHigh(a / 2, k - 1, w - 1);
      var m := Pow2(w - 1) - Pow2(k - 1);
      assert Pow2(w) - Pow2(k) == 2 * m;
      AndEven(a, m);
    }
  }

  lemma AndOdd(a: nat, m: nat)
    ensures And(a, 2 * m + 1) == 2 * And(a / 2, m) + a % 2
  {
    assert (2 * m + 1) / 2 == m && (2 * m + 1) % 2 == 1;
  }

  lemma AndEven(a: nat, m: nat)
    ensures And(a, 2 * m) == 2 * And(a / 2, m)
  {
    assert 2 * m / 2 == m && 2 * m % 2 == 0;
  }

  lemma MaskIsHigh(prefix: nat)
    requires 1 <= prefix <= 32
    ensures Pow2(32 - prefix) <= UINT32
    ensures Mask(prefix) == UINT32 - Pow2(32 - prefix)
    ensures Not32(Mask(prefix)) == Pow2(32 - prefix) - 1
  {
    var p := Pow2(32 - prefix);
    Pow2At32();
    Pow2Mono(32 - prefix, 32);
    assert (UINT32 - 1) * p == UINT32 * (p - 1) + (UINT32 - p);
    DivModUnique((UINT32 - 1) * p, UINT32, p - 1, UINT32 - p);
  }

  /** Masking keeps the network part; the complement keeps the host part. */
  lemma MaskMeaning(a: nat, prefix: nat)
    requires 1 <= prefix <= 32 && a < UINT32
    ensures And(a, Mask(prefix)) == a - a % Pow2(32 - prefix)
    ensures And(a, Not32(Mask(prefix))) == a % Pow2(32 - prefix)
  {
    MaskIsHigh(prefix);
    Pow2At32();
    AndHigh(a, 32 - prefix, 32);
    ClearLowArithmetic(a, 32 - prefix);
    AndLow(a, 32 - prefix);
  }

  lemma SameNetwork(a: nat, b: nat, p: nat)
    requires p > 0
    ensures a - a % p == b - b % p <==> a / p == b / p
  {
    var x, y := a / p, b / p;
    assert a - a % p == p * x && b - b % p == p * y;
    if p * x == p * y && x != y {
      MulAtLeast(p, if x > y then x - y else y - x);
    }
  }

  // ---------------------------------------------------------------------------------------------
  // What an accepted configuration is
  // ---------------------------------------------------------------------------------------------

  predicate InterfaceName(name: string) {
    && 0 < |name| < 16
    && forall i :: 0 <= i < |name| ==> InterfaceChar(name[i])
  }

  predicate InterfaceChar(c: char) { IsAlnum(c) || c == '_' || c == '-' }

  /** A usable host number of its subnet; /31 and /32 subnets have no reserved ones. */
  ghost predicate HostOf(address: nat, prefix: nat)
    requires prefix <= 32
  {
    prefix < 31 ==> 0 < address % Pow2(32 - prefix) < Pow2(32 - prefix) - 1
  }

  ghost predicate StaticAddressing(c: NetworkConfig) {
    && 1 <= c.prefixLength <= 32
    && (c.preferredDefault ==> c.gateway != "")
    && Ipv4(c.address).Some?
    && var address := Ipv4(c.address).value;
    && HostOf(address, c.prefixLength)
    && (c.gateway != "" ==>
          && Ipv4(c.gateway).Some?
          && Gateway(Ipv4(c.gateway).value, address, c.prefixLength))
  }

  /** Another usable host of the same subnet. */
  ghost predicate Gateway(gateway: nat, address: nat, prefix: nat)
    requires prefix <= 32
  {
    && gateway != address
    && gateway / Pow2(32 - prefix) == address / Pow2(32 - prefix)
    && HostOf(gateway, prefix)
  }

  ghost predicate ValidInterface(c: NetworkConfig) {
    && InterfaceName(c.name)
    && |c.dnsServers| <= 4
    && (forall i :: 0 <= i < |c.dnsServers| ==> Ipv4(c.dnsServers[i]).Some?)
    && if c.mode.Dhcp? then c.address == "" && c.gateway == "" else StaticAddressing(c)
  }

  function Names(configs: Network): (names: seq<string>)
    ensures |names| == |configs|
    ensures forall i :: 0 <= i < |names| ==> names[i] == configs[i].name
  {
    if configs == [] then [] else [configs[0].name] + Names(configs[1..])
  }

  ghost predicate OnePreferred(configs: Network) {
    forall i, j :: 0 <= i < j < |configs| && configs[i].preferredDefault ==> !configs[j].preferredDefault
  }

  ghost predicate ValidNetwork(configs: Network) {
    && |configs| <= 8
    && OnePreferred(configs)
    && Distinct(Names(configs))
    && (forall i :: 0 <= i < |configs| ==> ValidInterface(configs[i]))
  }

  predicate ValidHostname(s: string) {
    && 0 < |s| <= 63 && s[0] != '-' && s[|s| - 1] != '-'
    && forall i :: 0 <= i < |s| ==> IsAlnum(s[i]) || s[i] == '-'
  }

  predicate ValidTimezone(s: string) {
    && 0 < |s| <= 128 && s[0] != '/'
    && (forall i :: 0 <= i < |s| ==> IsAlnum(s[i]) || s[i] == '/' || s[i] == '_' || s[i] == '-' || s[i] == '+')
  }

  /** A host name is one label of a domain name. */
  lemma HostnameIsLabel(s: string)
    ensures ValidHostname(s) <==> IsLabel(s)
  {
  }

  /** As a path below the zone directory, a time zone stays there, and the test for ".." refuses nothing more. */
  lemma TimezoneStaysBelow(s: string)
    requires ValidTimezone(s)
    ensures s[0] != '/' && '.' !in s && forall part :: part in Split(s, '/') ==> part != ".." && part != "."
  {
    forall part | part in Split(s, '/')
      ensures part != ".." && part != "."
    {
      var i :| 0 <= i < |Split(s, '/')| && Split(s, '/')[i] == part;
      SplitCharacters(s, '/', i);
      assert part != "" ==> part[0] in s;
    }
  }

  predicate ClockMode(s: string) { s == "ntp" || s == "ptp" || s == "irig" || s == "local" }

  ghost predicate ValidConfiguration(c: Configuration) {
    && ValidHostname(c.system.hostname)
    && ClockMode(c.time.synchronization)
    && ValidTimezone(c.time.timezone)
    && ((c.time.ptpInterface == "" && c.time.synchronization != "ptp") || InterfaceName(c.time.ptpInterface))
    && |c.time.ntpServers| <= 8
    && (forall i :: 0 <= i < |c.time.ntpServers| ==> NtpServer(c.time.ntpServers[i]))
    && Distinct(c.time.ntpServers)
    && ValidNetwork(c.system.network)
  }

  /** A character of an interface name or a time zone: a letter or a digit, or one of these. */
  predicate Plain(c: char, others: set<char>) {
    '0' <= c <= '9' || 'A' <= c <= 'Z' || 'a' <= c <= 'z' || c in others
  }

  /** An interface name fits the kernel's 16 bytes with its terminator. */
  lemma InterfaceNameExactly(s: string)
    ensures InterfaceName(s) <==> 1 <= |s| <= 15 && forall i :: 0 <= i < |s| ==> Plain(s[i], {'_', '-'})
  {
  }

  /** Everything that is asked of a configuration, apart from its addresses and servers. */
  lemma ConfigurationExactly(c: Configuration)
    ensures ValidConfiguration(c) <==>
              && IsLabel(c.system.hostname)
              && c.time.synchronization in {"ntp", "ptp", "irig", "local"}
              && var zone := c.time.timezone;
              && 1 <= |zone| <= 128 && zone[0] != '/'
              && (forall i :: 0 <= i < |zone| ==> Plain(zone[i], {'/', '_', '-', '+'}))
              && (c.time.ptpInterface == "" ==> c.time.synchronization != "ptp")
              && (c.time.ptpInterface != "" ==> InterfaceName(c.time.ptpInterface))
              && |c.time.ntpServers| <= 8 && |c.system.network| <= 8
              && (forall i, j :: 0 <= i < j < |c.time.ntpServers| ==> c.time.ntpServers[i] != c.time.ntpServers[j])
              && (forall i, j :: 0 <= i < j < |c.system.network| ==>
                    && c.system.network[i].name != c.system.network[j].name
                    && !(c.system.network[i].preferredDefault && c.system.network[j].preferredDefault))
              && (forall i :: 0 <= i < |c.time.ntpServers| ==> NtpServer(c.time.ntpServers[i]))
              && (forall i :: 0 <= i < |c.system.network| ==> ValidInterface(c.system.network[i]))
  {
    HostnameIsLabel(c.system.hostname);
  }

  // ---------------------------------------------------------------------------------------------
  // The checks
  // ---------------------------------------------------------------------------------------------

  /** The reserved-number test on masks. */
  method CheckHost(address: nat, prefix: nat) returns (ok: bool)
    requires address < UINT32 && 1 <= prefix <= 32
    ensures ok <==> HostOf(address, prefix)
  {
    if prefix >= 31 { return true; }
    var mask := Mask(prefix);
    MaskMeaning(address, prefix);
    MaskIsHigh(prefix);
    var host := And(address, Not32(mask));
    assert host < Pow2(32 - prefix);
    return host != 0 && host != Not32(mask);
  }

  method CheckStatic(c: NetworkConfig) returns (ok: bool)
    ensures ok <==> StaticAddressing(c)
  {
    if !(1 <= c.prefixLength <= 32) || (c.preferredDefault && c.gateway == "") { return false; }
    var address := ReadIpv4(c.address);
    if address.None? { return false; }
    var host := CheckHost(address.value, c.prefixLength);
    if !host { return false; }
    if c.gateway == "" { return true; }
    var gateway := ReadIpv4(c.gateway);
    if gateway.None? { return false; }
    ok := CheckGateway(gateway.value, address.value, c.prefixLength);
  }

  method CheckGateway(gateway: nat, address: nat, prefix: nat) returns (ok: bool)
    requires gateway < UINT32 && address < UINT32 && 1 <= prefix <= 32
    ensures ok <==> Gateway(gateway, address, prefix)
  {
    var mask := Mask(prefix);
    MaskMeaning(address, prefix);
    MaskMeaning(gateway, prefix);
    SameNetwork(gateway, address, Pow2(32 - prefix));
    if gateway == address || And(gateway, mask) != And(address, mask) { return false; }
    ok := CheckHost(gateway, prefix);
  }

  method CheckInterface(c: NetworkConfig) returns (ok: bool)
    ensures ok <==> ValidInterface(c)
  {
    if !InterfaceName(c.name) || |c.dnsServers| > 4 { return false; }
    for i := 0 to |c.dnsServers|
      invariant forall k :: 0 <= k < i ==> Ipv4(c.dnsServers[k]).Some?
    {
      var dns := ReadIpv4(c.dnsServers[i]);
      if dns.None? { return false; }
    }
    if c.mode.Dhcp? {
      ok := c.address == "" && c.gateway == "";
    } else {
      ok := CheckStatic(c);
    }
  }

  method CheckPreferred(configs: Network) returns (ok: bool)
    ensures ok <==> OnePreferred(configs)
  {
    var preferred: int := -1;
    for i := 0 to |configs|
      invariant -1 <= preferred < i
      invariant forall k :: 0 <= k < i ==> (configs[k].preferredDefault <==> k == preferred)
    {
      if configs[i].preferredDefault {
        if preferred >= 0 {
          assert configs[preferred].preferredDefault;
          return false;
        }
        preferred := i;
      }
    }
    return true;
  }

  method CheckNetwork(configs: Network) returns (ok: bool)
    ensures ok <==> ValidNetwork(configs)
  {
    if |configs| > 8 { return false; }
    var single := CheckPreferred(configs);
    if !single { return false; }
    var distinct := CheckDistinct(Names(configs));
    if !distinct { return false; }
    for i := 0 to |configs|
      invariant forall k :: 0 <= k < i ==> ValidInterface(configs[k])
    {
      var good := CheckInterface(configs[i]);
      if !good { return false; }
    }
    return true;
  }

  /** Both validators fill a set and refuse an insertion that adds nothing. */
  method CheckDistinct(items: seq<string>) returns (ok: bool)
    ensures ok <==> Distinct(items)
  {
    var seen: set<string> := {};
    for i := 0 to |items|
      invariant forall x :: x in seen <==> x in items[..i]
      invariant Distinct(items[..i])
    {
      if items[i] in seen {
        var k :| 0 <= k < i && items[..i][k] == items[i];
        assert items[k] == items[i];
        return false;
      }
      seen := seen + {items[i]};
      assert items[..i + 1] == items[..i] + [items[i]];
    }
    assert items[..|items|] == items;
    return true;
  }

  method Check(c: Configuration) returns (ok: bool)
    ensures ok <==> ValidConfiguration(c)
  {
    if !ValidHostname(c.system.hostname) || !ClockMode(c.time.synchronization) || !ValidTimezone(c.time.timezone) {
      return false;
    }
    if !((c.time.ptpInterface == "" && c.time.synchronization != "ptp") || InterfaceName(c.time.ptpInterface)) {
      return false;
    }
    if |c.time.ntpServers| > 8 { return false; }
    for i := 0 to |c.time.ntpServers|
      invariant forall k :: 0 <= k < i ==> NtpServer(c.time.ntpServers[k])
    {
      var good := ReadNtpServer(c.time.ntpServers[i]);
      if !good { return false; }
    }
    var distinct := CheckDistinct(c.time.ntpServers);
    if !distinct { return false; }
    ok := CheckNetwork(c.system.network);
  }
}
