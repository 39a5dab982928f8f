/** IPv4 addresses and the test for globally routable ones. */
module Addresses {
  import opened Bits

  type Byte = b: nat | b < 256
  type Port = p: nat | p < 0x1_0000

  datatype Ipv4 = Ipv4(a: Byte, b: Byte, c: Byte, d: Byte)

  datatype Endpoint = Endpoint(ip: Ipv4, port: Port)

  const U32_SIZE := 0x1_0000_0000

  function Value(ip: Ipv4): (v: nat)
    ensures v < U32_SIZE
  {
    ip.a * 0x100_0000 + ip.b * 0x1_0000 + ip.c * 0x100 + ip.d
  }

  function Mask(prefix: nat): nat
    requires prefix <= 32
  {
    if prefix == 0 then 0 else ((U32_SIZE - 1) * Pow2(32 - prefix)) % U32_SIZE
  }

  datatype Cidr = Cidr(network: Ipv4, prefix: nat)

  /** The blocks the source lists by network and prefix length. */
  const BLOCKS: seq<Cidr> := [
    Cidr(Ipv4(0, 0, 0, 0), 8),
    Cidr(Ipv4(10, 0, 0, 0), 8),
    Cidr(Ipv4(100, 64, 0, 0), 10),
    Cidr(Ipv4(127, 0, 0, 0), 8),
    Cidr(Ipv4(169, 254, 0, 0), 16),
    Cidr(Ipv4(172, 16, 0, 0), 12),
    Cidr(Ipv4(192, 0, 0, 0), 24),
    Cidr(Ipv4(192, 0, 2, 0), 24),
    Cidr(Ipv4(192, 88, 99, 0), 24),
    Cidr(Ipv4(192, 168, 0, 0), 16),
    Cidr(Ipv4(198, 18, 0, 0), 15),
    Cidr(Ipv4(198, 51, 100, 0), 24),
    Cidr(Ipv4(203, 0, 113, 0), 24),
    Cidr(Ipv4(224, 0, 0, 0), 4),
    Cidr(Ipv4(240, 0, 0, 0), 4)]

  predicate InCidr(ip: Ipv4, block: Cidr) {
    block.prefix <= 32 && And(Value(ip), Mask(block.prefix)) == And(Value(block.network), Mask(block.prefix))
  }

  predicate OutsideAll(ip: Ipv4, blocks: seq<Cidr>) {
    forall i :: 0 <= i < |blocks| ==> !InCidr(ip, blocks[i])
  }

  predicate IsPublic(ip: Ipv4) { OutsideAll(ip, BLOCKS) }

  lemma Pow2Of32()
    ensures Pow2(32) == U32_SIZE
  {
    assert Pow2(8) == 256;
    assert Pow2(16) == 0x1_0000;
    assert Pow2(24) == 0x100_0000;
  }

  lemma {:induction false} MaskIsPrefix(prefix: nat)
    requires prefix <= 32
    ensures Pow2(32 - prefix) <= U32_SIZE
    ensures Mask(prefix) == U32_SIZE - Pow2(32 - prefix)
  {
    Pow2Of32();
    var m := Pow2(32 - prefix);
    Pow2Grows(32 - prefix, 32);
    if prefix > 0 {
      assert (U32_SIZE - 1) * m == U32_SIZE * (m - 1) + (U32_SIZE - m);
      QuotientIsUnique((U32_SIZE - 1) * m, U32_SIZE, m - 1, U32_SIZE - m);
    }
  }

  /** For every block, the mask test is membership in the numeric interval that starts at the
      network address and has 2^(32-prefix) members. */
  lemma MaskIsInterval(ip: Ipv4, block: Cidr)
    requires block.prefix <= 32 && Value(block.network) % Pow2(32 - block.prefix) == 0
    ensures InCidr(ip, block) <==>
            Value(block.network) <= Value(ip) < Value(block.network) + Pow2(32 - block.prefix)
  {
    Pow2Of32();
    MaskIsPrefix(block.prefix);
    AndPrefix(Value(ip), 32, 32 - block.prefix);
    AndPrefix(Value(block.network), 32, 32 - block.prefix);
    SameBlock(Value(ip), Value(block.network), Pow2(32 - block.prefix));
  }

  lemma SameBlock(v: nat, n: nat, m: nat)
    requires m > 0 && n % m == 0
    ensures v - v % m == n - n % m <==> n <= v < n + m
  {
    if n <= v < n + m {
      assert n == m * (n / m);
      QuotientIsUnique(v, m, n / m, v - n);
    }
  }

  datatype Range = Range(first: Ipv4, last: Ipv4)

  /** The address blocks that are not globally routable, by first and last address. */
  const RESERVED: seq<Range> := [
    Range(Ipv4(0, 0, 0, 0), Ipv4(0, 255, 255, 255)),
    Range(Ipv4(10, 0, 0, 0), Ipv4(10, 255, 255, 255)),
    Range(Ipv4(100, 64, 0, 0), Ipv4(100, 127, 255, 255)),
    Range(Ipv4(127, 0, 0, 0), Ipv4(127, 255, 255, 255)),
    Range(Ipv4(169, 254, 0, 0), Ipv4(169, 254, 255, 255)),
    Range(Ipv4(172, 16, 0, 0), Ipv4(172, 31, 255, 255)),
    Range(Ipv4(192, 0, 0, 0), Ipv4(192, 0, 0, 255)),
    Range(Ipv4(192, 0, 2, 0), Ipv4(192, 0, 2, 255)),
    Range(Ipv4(192, 88, 99, 0), Ipv4(192, 88, 99, 255)),
    Range(Ipv4(192, 168, 0, 0), Ipv4(192, 168, 255, 255)),
    Range(Ipv4(198, 18, 0, 0), Ipv4(198, 19, 255, 255)),
    Range(Ipv4(198, 51, 100, 0), Ipv4(198, 51, 100, 255)),
    Range(Ipv4(203, 0, 113, 0), Ipv4(203, 0, 113, 255)),
    Range(Ipv4(224, 0, 0, 0), Ipv4(239, 255, 255, 255)),
    Range(Ipv4(240, 0, 0, 0), Ipv4(255, 255, 255, 255))]

  predicate Within(ip: Ipv4, range: Range) { Value(range.first) <= Value(ip) <= Value(range.last) }

  predicate InSome(ip: Ipv4, ranges: seq<Range>) { exists i :: 0 <= i < |ranges| && Within(ip, ranges[i]) }

  predicate IsReserved(ip: Ipv4) { InSome(ip, RESERVED) }

  lemma Powers()
    ensures Pow2(8) == 0x100 && Pow2(16) == 0x1_0000 && Pow2(17) == 0x2_0000 && Pow2(20) == 0x10_0000
    ensures Pow2(22) == 0x40_0000 && Pow2(24) == 0x100_0000 && Pow2(28) == 0x1000_0000
  {
  }

  /** `range` is written as first and last address what `block` is by its prefix. */
  predicate SameAddresses(block: Cidr, range: Range) {
    && block.prefix <= 32 && Value(block.network) % Pow2(32 - block.prefix) == 0
    && range.first == block.network && Value(range.last) + 1 == Value(block.network) + Pow2(32 - block.prefix)
  }

  predicate SameAt(blocks: seq<Cidr>, ranges: seq<Range>, i: nat) {
    i < |blocks| && i < |ranges| && SameAddresses(blocks[i], ranges[i])
  }

  lemma TablesAgree(i: nat)
    requires i < |BLOCKS|
    ensures SameAt(BLOCKS, RESERVED, i)
  {
    Powers();
  }

  lemma BlockIsRange(ip: Ipv4, block: Cidr, range: Range)
    requires SameAddresses(block, range)
    ensures InCidr(ip, block) <==> Within(ip, range)
  {
    MaskIsInterval(ip, block);
  }

  predicate AllSame(blocks: seq<Cidr>, ranges: seq<Range>) {
    |blocks| == |ranges| && forall i: nat :: i < |blocks| ==> SameAt(blocks, ranges, i)
  }

  lemma AllTablesAgree()
    ensures AllSame(BLOCKS, RESERVED)
  {
    forall i: nat | i < |BLOCKS| ensures SameAt(BLOCKS, RESERVED, i) { TablesAgree(i); }
  }

  lemma MatchingBlock(ip: Ipv4, blocks: seq<Cidr>, ranges: seq<Range>, i: nat)
    requires SameAt(blocks, ranges, i)
    ensures InCidr(ip, blocks[i]) <==> Within(ip, ranges[i])
  {
    BlockIsRange(ip, blocks[i], ranges[i]);
  }

  lemma MatchingTables(ip: Ipv4, blocks: seq<Cidr>, ranges: seq<Range>)
    requires AllSame(blocks, ranges)
    ensures OutsideAll(ip, blocks) <==> !InSome(ip, ranges)
  {
    if i :| 0 <= i < |blocks| && InCidr(ip, blocks[i]) { MatchingBlock(ip, blocks, ranges, i); }
    if i :| 0 <= i < |ranges| && Within(ip, ranges[i]) { MatchingBlock(ip, blocks, ranges, i); }
  }

  /** The mask tests accept exactly the addresses outside the reserved ranges. */
  lemma PublicIsNotReserved(ip: Ipv4)
    ensures IsPublic(ip) <==> !IsReserved(ip)
  {
    AllTablesAgree();
    MatchingTables(ip, BLOCKS, RESERVED);
  }
}
