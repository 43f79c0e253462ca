/** IP addresses, prefixes and the address classes the kill-switch asks about. */
module Addresses {
  function Pow2(n: nat): (r: nat)
    ensures r > 0
  {
    if n == 0 then 1 else 2 * Pow2(n - 1)
  }

  lemma {:induction false} Pow2Sum(a: nat, b: nat)
    ensures Pow2(a + b) == Pow2(a) * Pow2(b)
  {
    if a != 0 {
      Pow2Sum(a - 1, b);
    }
  }

  datatype Address = V4(n: nat) | V6(n: nat)

  function Width(a: Address): nat {
    if a.V4? then 32 else 128
  }

  type Addr = a: Address | a.n < Pow2(Width(a)) witness V4(0)

  datatype Cidr = Cidr(addr: Addr, bits: nat)

  /** A destination with its host bits cleared. */
  type Prefix = p: Cidr | p.bits <= Width(p.addr) && p.addr.n % Pow2(Width(p.addr) - p.bits) == 0 witness Cidr(V4(0), 0)

  predicate SameFamily(a: Address, b: Address) {
    a.V4? == b.V4?
  }

  predicate Matches(p: Prefix, a: Addr) {
    var block := Pow2(Width(p.addr) - p.bits);
    SameFamily(p.addr, a) && p.addr.n / block == a.n / block
  }

  function HostPrefix(a: Addr): (p: Prefix)
    ensures p.addr == a && p.bits == Width(a)
  {
    Cidr(a, Width(a))
  }

  /** 0.0.0.0/0 or ::/0. */
  function DefaultPrefix(a: Addr): (p: Prefix)
    ensures p.bits == 0
  {
    Cidr(if a.V4? then V4(0) else V6(0), 0)
  }

  lemma HostPrefixMatchesOnlyItself(p: Prefix, a: Addr)
    requires p.bits == Width(p.addr)
    ensures Matches(p, a) <==> p == HostPrefix(a)
  {
  }

  lemma DefaultMatchesItsFamily(p: Prefix, a: Addr)
    requires p.bits == 0
    ensures Matches(p, a) <==> p == DefaultPrefix(a)
  {
    assert Width(p.addr) - p.bits == Width(p.addr);
    ZeroWithin(p.addr.n, Pow2(Width(p.addr)));
    if SameFamily(p.addr, a) {
      ZeroWithin(a.n, Pow2(Width(a)));
    }
  }

  lemma ZeroWithin(n: nat, block: nat)
    requires n < block
    ensures n / block == 0 && n % block == n
  {
  }

  // ---------------------------------------------------------- address classes

  /** An IPv4-mapped IPv6 address is classified as the IPv4 address it carries. */
  function Unmapped(a: Address): Address {
    if a.V6? && a.n / 0x1_0000_0000 == 0xffff then V4(a.n % 0x1_0000_0000) else a
  }

  predicate Private(a: Address) {
    match Unmapped(a)
    case V4(n) => n / 0x100_0000 == 10 || n / 0x10_0000 == 0xac1 || n / 0x1_0000 == 0xc0a8
    case V6(n) => n / 0x0200_0000_0000_0000_0000_0000_0000_0000 == 0xfc / 2
  }

  predicate Loopback(a: Address) {
    match a
    case V4(n) => n / 0x100_0000 == 127
    case V6(n) => n == 1
  }

  predicate Multicast(a: Address) {
    match a
    case V4(n) => n / 0x1000_0000 == 0xe
    case V6(n) => n / 0x0100_0000_0000_0000_0000_0000_0000_0000 == 0xff
  }

  predicate LinkLocal(a: Address) {
    match a
    case V4(n) => n / 0x1_0000 == 0xa9fe
    case V6(n) => n / 0x0040_0000_0000_0000_0000_0000_0000_0000 == 0xfe80 / 0x40
  }

  predicate GlobalUnicast(a: Address) {
    var u := Unmapped(a);
    && u != V4(0) && u != V4(0xffff_ffff) && u != V6(0)
    && !Loopback(u) && !Multicast(u) && !LinkLocal(u)
  }

  /** The two addresses of the protected namespace: 198.18.0.2 and fd42:aa:1::2. */
  const NAMESPACE_V4: Addr := (Pow2Widths(); V4(0xc612_0002))
  const NAMESPACE_V6: Addr := (Pow2Widths(); V6(0xfd42_00aa_0001_0000_0000_0000_0000_0002))

  lemma Pow2Widths()
    ensures Pow2(32) == 0x1_0000_0000
    ensures Pow2(128) == 0x1_0000_0000_0000_0000_0000_0000_0000_0000
  {
    assert Pow2(0) == 1;
    Pow2Doubles(0, 1);
    assert Pow2(1) == 2;
    Pow2Squares(1, 2);
    Pow2Squares(2, 4);
    Pow2Squares(4, 16);
    Pow2Squares(8, 256);
    Pow2Squares(16, 0x1_0000);
    Pow2Squares(32, 0x1_0000_0000);
    Pow2Squares(64, 0x1_0000_0000_0000_0000);
  }

  lemma Pow2Doubles(n: nat, v: nat)
    requires Pow2(n) == v
    ensures Pow2(n + 1) == 2 * v
  {
  }

  lemma Pow2Squares(n: nat, v: nat)
    requires Pow2(n) == v
    ensures Pow2(2 * n) == v * v
  {
    Pow2Sum(n, n);
  }
}
