/**
  Addresses in /24 subnets, as text and as values.
 */
module Addresses {
  import opened Uplinks
  import opened Kernel

  /** The first position of `c`, if any. */
  function Find(s: string, c: char): (r: Option<nat>)
    ensures r.Some? ==> r.value < |s| && s[r.value] == c && c !in s[..r.value]
    ensures r.None? ==> c !in s
  {
    if s == "" then None
    else if s[0] == c then Some(0)
    else
      match Find(s[1..], c)
      case None => None
      case Some(i) =>
        assert s[..i + 1] == [s[0]] + s[1..][..i];
        Some(i + 1)
  }

  /** The last position of `c`, if any. */
  function FindLast(s: string, c: char): (r: Option<nat>)
    ensures r.Some? ==> r.value < |s| && s[r.value] == c && c !in s[r.value + 1..]
    ensures r.None? ==> c !in s
  {
    if s == "" then None
    else if s[|s| - 1] == c then Some(|s| - 1)
    else
      var init := s[..|s| - 1];
      assert s == init + [s[|s| - 1]];
      match FindLast(init, c)
      case None => None
      case Some(i) =>
        assert s[i + 1..] == init[i + 1..] + [s[|s| - 1]];
        Some(i)
  }

  function Digit(d: nat): (r: char)
    requires d < 10
    ensures '0' <= r <= '9' && r as int == '0' as int + d
  {
    ('0' as int + d) as char
  }

  function Decimal(n: nat): (r: string)
    ensures r != "" && forall i | 0 <= i < |r| :: '0' <= r[i] <= '9'
  {
    if n < 10 then [Digit(n)] else Decimal(n / 10) + [Digit(n % 10)]
  }

  /** The number a text of decimal digits stands for. */
  function DecimalValue(s: string): int
  {
    if s == "" then 0 else 10 * DecimalValue(s[..|s| - 1]) + (s[|s| - 1] as int - '0' as int)
  }

  /** The text stands for the number, and has no leading zero. */
  lemma {:induction false} DecimalIsValue(n: nat)
    ensures DecimalValue(Decimal(n)) == n
    ensures Decimal(n)[0] == '0' ==> n == 0
    decreases n
  {
    var d := Decimal(n);
    if n < 10 {
      assert d[..0] == "";
    } else {
      DecimalIsValue(n / 10);
      assert d[..|d| - 1] == Decimal(n / 10) && d[0] == Decimal(n / 10)[0];
    }
  }

  lemma {:induction false} DecimalInjective(m: nat, n: nat)
    requires Decimal(m) == Decimal(n)
    ensures m == n
    decreases m
  {
    var a, b := Decimal(m), Decimal(n);
    assert a[|a| - 1] == b[|b| - 1];
    assert m % 10 == n % 10;
    if m >= 10 {
      assert n >= 10 by { assert Decimal(m / 10) != ""; }
      assert Decimal(m / 10) == a[..|a| - 1] && Decimal(n / 10) == b[..|b| - 1];
      DecimalInjective(m / 10, n / 10);
    }
  }

  /** The part of a subnet before its last octet; None where the program asserts. */
  function Prefix(net: string): Option<string>
  {
    match Find(net, '/')
    case None => None
    case Some(sep) =>
      var network, mask := net[..sep], net[sep + 1..];
      if mask != "24" then None
      else
        match FindLast(network, '.')
        case None => Some(network)
        case Some(dot) => Some(network[..dot])
  }

  function AddressText(a: Addr): string
  {
    a.prefix + "." + Decimal(a.host)
  }

  /** `nth_address_in_subnet` */
  function NthAddress(net: string, n: nat, includeMask: bool): Option<string>
  {
    match Find(net, '/')
    case None => None
    case Some(sep) =>
      var network, mask := net[..sep], net[sep + 1..];
      if mask != "24" then None
      else
        var prefix := match FindLast(network, '.') case None => network case Some(dot) => network[..dot];
        Some(prefix + "." + Decimal(n) + if includeMask then "/" + mask else "")
  }

  /** The digits after the last dot determine where it is. */
  lemma {:induction false} SplitAtLastDot(p: string, x: string, q: string, y: string)
    requires '.' !in x && '.' !in y && p + "." + x == q + "." + y
    ensures p == q && x == y
  {
    var s := p + "." + x;
    assert s[|p|] == '.' && s[|q|] == '.';
    assert s[..|p|] == p && s[..|q|] == q;
    assert s[|p| + 1..] == x && s[|q| + 1..] == y;
  }

  lemma {:induction false} AddressTextInjective(a: Addr, b: Addr)
    ensures AddressText(a) == AddressText(b) <==> a == b
  {
    if AddressText(a) == AddressText(b) {
      SplitAtLastDot(a.prefix, Decimal(a.host), b.prefix, Decimal(b.host));
      DecimalInjective(a.host, b.host);
    }
  }

  /** An address text stands for a prefix and a host number, with or without its mask. */
  lemma {:induction false} NthAddressIsText(net: string, n: nat)
    ensures NthAddress(net, n, false) ==
            match Prefix(net) case None => None case Some(p) => Some(AddressText(Addr(p, n)))
    ensures NthAddress(net, n, true) ==
            match Prefix(net) case None => None case Some(p) => Some(AddressText(Addr(p, n)) + "/24")
  {
    match Find(net, '/') {
      case None =>
      case Some(sep) =>
        var mask := net[sep + 1..];
        if mask == "24" {
          var text := AddressText(Addr(Prefix(net).value, n));
          assert "/" + mask == "/24" && text + "" == text;
        }
    }
  }

  /** Two address texts are the same exactly when subnet prefix and host are. */
  lemma {:induction false} NthAddressDistinct(net: string, n: nat, net': string, n': nat, includeMask: bool)
    requires Prefix(net).Some? && Prefix(net').Some?
    ensures NthAddress(net, n, includeMask) == NthAddress(net', n', includeMask) <==>
            Prefix(net) == Prefix(net') && n == n'
  {
    NthAddressIsText(net, n);
    NthAddressIsText(net', n');
    var a, b := Addr(Prefix(net).value, n), Addr(Prefix(net').value, n');
    AddressTextInjective(a, b);
    if NthAddress(net, n, includeMask) == NthAddress(net', n', includeMask) && includeMask {
      var x, y := AddressText(a) + "/24", AddressText(b) + "/24";
      assert x[..|x| - 3] == AddressText(a) && y[..|y| - 3] == AddressText(b);
    }
  }

  /**
    A subnet has a prefix exactly if it is a /24: what stands before the last dot of the network, or
    the network if it has no dot.
   */
  lemma {:induction false} PrefixExact(net: string, p: string)
    ensures Prefix(net) == Some(p) <==>
      || (exists octet: string :: net == p + "." + octet + "/24" && '/' !in p && '/' !in octet && '.' !in octet)
      || (net == p + "/24" && '/' !in p && '.' !in p)
  {
    if Prefix(net) == Some(p) { PrefixSplits(net); }
    if octet: string :| net == p + "." + octet + "/24" && '/' !in p && '/' !in octet && '.' !in octet {
      var network := p + "." + octet;
      SlashAt(net, network);
      LastDotAt(network, p, octet);
    }
    if net == p + "/24" && '/' !in p && '.' !in p { SlashAt(net, p); }
  }

  lemma {:induction false} SlashAt(net: string, network: string)
    requires net == network + "/24" && '/' !in network
    ensures Find(net, '/') == Some(|network|) && net[..|network|] == network && net[|network| + 1..] == "24"
  {
    var r := Find(net, '/');
    assert net[|network|] == '/';
    assert r.Some?;
  }

  lemma {:induction false} LastDotAt(network: string, p: string, octet: string)
    requires network == p + "." + octet && '.' !in octet
    ensures FindLast(network, '.') == Some(|p|) && network[..|p|] == p
  {
    var r := FindLast(network, '.');
    assert network[|p|] == '.' && network[|p| + 1..] == octet;
    assert r.Some?;
  }

  lemma {:induction false} PrefixSplits(net: string)
    requires Prefix(net).Some?
    ensures var p := Prefix(net).value;
      || (exists octet: string :: net == p + "." + octet + "/24" && '/' !in p && '/' !in octet && '.' !in octet)
      || (net == p + "/24" && '/' !in p && '.' !in p)
  {
    var sep := Find(net, '/').value;
    var network, p := net[..sep], Prefix(net).value;
    assert net == network + "/" + net[sep + 1..] && "/" + "24" == "/24";
    assert network + ("/" + "24") == network + "/" + "24";
    if FindLast(network, '.').Some? {
      var dot := FindLast(network, '.').value;
      var octet := network[dot + 1..];
      assert network == p + "." + octet;
      assert net == p + "." + octet + "/24";
    }
  }
}
