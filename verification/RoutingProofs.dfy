// What the routing table and the special-use tests mean on whole address spaces.
module RoutingProofs {
  import opened Wrappers
  import opened Routing

  datatype Interval = Interval(lo: nat, hi: nat) {
    predicate Has(v: nat) { lo <= v <= hi }
  }

  // The block of the given size that starts at a.b.c.0.
  function Block4(a: nat, b: nat, c: nat, size: nat): Interval {
    var lo := ((a * 0x100 + b) * 0x100 + c) * 0x100;
    Interval(lo, lo + size)
  }

  // Address blocks by last offset: section 3 of RFC 1918, loopback, link-local, section 3 of
  // RFC 5737, multicast and reserved up to the end of the space, unspecified, section 7 of
  // RFC 6598, and the RFC 2544 benchmarking block.
  predicate SpecialV4(v: nat) {
    || Block4(10, 0, 0, 0xffffff).Has(v) || Block4(172, 16, 0, 0xfffff).Has(v) || Block4(192, 168, 0, 0xffff).Has(v)
    || Block4(127, 0, 0, 0xffffff).Has(v) || Block4(169, 254, 0, 0xffff).Has(v)
    || Block4(192, 0, 2, 0xff).Has(v) || Block4(198, 51, 100, 0xff).Has(v) || Block4(203, 0, 113, 0xff).Has(v)
    || Block4(224, 0, 0, 0x1fffffff).Has(v) || v == 0
    || Block4(100, 64, 0, 0x3fffff).Has(v) || Block4(198, 18, 0, 0x1ffff).Has(v)
  }

  const LOW112: nat := 0x1_0000_0000_0000_0000_0000_0000_0000

  // Unspecified and loopback (sections 2.5.2 and 2.5.3 of RFC 4291), fc00::/7 (section 3.1 of
  // RFC 4193), fe80::/10 (section 2.5.6 of RFC 4291), ff00::/8 and 2001:db8::/32.
  predicate SpecialV6(v: nat) {
    || v <= 1
    || 0xfc00 * LOW112 <= v < 0xfe00 * LOW112 || 0xfe80 * LOW112 <= v < 0xfec0 * LOW112
    || 0xff00 * LOW112 <= v < 0x10000 * LOW112 || 0x20010db8 * LOW96 <= v < 0x20010db9 * LOW96
  }

  function Shr(x: nat, k: nat): nat {
    if k == 0 then x else Shr(x / 2, k - 1)
  }

  function Shl(x: nat, k: nat): nat {
    if k == 0 then x else 2 * Shl(x, k - 1)
  }

  lemma AndEven(x: nat, m: nat)
    ensures And(x, 2 * m) == 2 * And(x / 2, m)
  {
  }

  // Low zero bits of a mask shift out.
  lemma {:induction false} AndShift(x: nat, m: nat, k: nat)
    ensures And(x, Shl(m, k)) == Shl(And(Shr(x, k), m), k)
  {
    if k > 0 {
      AndShift(x / 2, m, k - 1);
      AndEven(x, Shl(m, k - 1));
    }
  }

  lemma {:induction false} AndAllOnes(x: nat, j: nat)
    requires x < Shl(1, j)
    ensures And(x, Shl(1, j) - 1) == x
  {
    if j > 0 && x > 0 {
      AndAllOnes(x / 2, j - 1);
      assert (Shl(1, j) - 1) / 2 == Shl(1, j - 1) - 1 && (Shl(1, j) - 1) % 2 == 1;
    }
  }

  // A mask of j ones over k zeros keeps the high bits of a (j + k)-bit number.
  lemma HighMask(x: nat, j: nat, k: nat)
    requires Shr(x, k) < Shl(1, j)
    ensures And(x, Shl(Shl(1, j) - 1, k)) == Shl(Shr(x, k), k)
  {
    AndShift(x, Shl(1, j) - 1, k);
    AndAllOnes(Shr(x, k), j);
  }

  lemma ShiftBy2(x: nat, k: nat)
    requires k >= 2
    ensures Shr(x, k) == Shr(x / 4, k - 2) && Shl(x, k) == 4 * Shl(x, k - 2)
  {
    assert Shr(x, k) == Shr(x / 2, k - 1) == Shr(x / 2 / 2, k - 2);
    assert Shl(x, k) == 2 * Shl(x, k - 1);
  }

  lemma Shift6(x: nat)
    ensures Shr(x, 6) == x / 64 && Shl(x, 6) == 64 * x
  {
    ShiftBy2(x, 6);
    ShiftBy2(x / 4, 4);
    ShiftBy2(x, 4);
    ShiftBy2(x / 16, 2);
    ShiftBy2(x, 2);
  }

  lemma Shift8(x: nat)
    ensures Shr(x, 8) == x / 256 && Shl(x, 8) == 256 * x
  {
    ShiftBy2(x, 8);
    Shift6(x / 4);
    Shift6(x);
  }

  lemma Shift9(x: nat)
    ensures Shr(x, 9) == x / 512 && Shl(x, 9) == 512 * x
  {
    Shift8(x / 2);
    Shift8(x);
  }

  lemma Ones()
    ensures Shl(1, 2) == 4 && Shl(1, 7) == 128 && Shl(1, 8) == 256 && Shl(1, 10) == 1024
  {
    Shift6(1);
    Shift8(1);
    ShiftBy2(1, 10);
  }

  lemma SharedSpaceMask(b: Octet)
    ensures And(b, 0xC0) == 64 <==> 64 <= b <= 127
  {
    Ones();
    Shift6(b);
    Shift6(3);
    Shift6(b / 64);
    HighMask(b, 2, 6);
  }

  lemma BenchmarkMask(b: Octet)
    ensures And(b, 0xFE) == 18 <==> 18 <= b <= 19
  {
    Ones();
    assert Shr(b, 1) == b / 2 && Shl(127, 1) == 0xFE && Shl(b / 2, 1) == 2 * (b / 2);
    HighMask(b, 7, 1);
  }

  lemma HighByte(s: Segment)
    ensures And(s, 0xff00) == 256 * (s / 256)
  {
    Ones();
    Shift8(s);
    Shift8(255);
    Shift8(s / 256);
    HighMask(s, 8, 8);
  }

  lemma HighSeven(s: Segment)
    ensures And(s, 0xfe00) == 512 * (s / 512)
  {
    Ones();
    Shift9(s);
    Shift9(127);
    Shift9(s / 512);
    HighMask(s, 7, 9);
  }

  lemma HighTen(s: Segment)
    ensures And(s, 0xffc0) == 64 * (s / 64)
  {
    Ones();
    Shift6(s);
    Shift6(1023);
    Shift6(s / 64);
    HighMask(s, 10, 6);
  }

  lemma MaskedEquals(s: nat, masked: nat, unit: nat, n: nat)
    requires unit in {64, 256, 512} && masked == unit * (s / unit)
    ensures masked == unit * n <==> unit * n <= s < unit * n + unit
  {
  }

  lemma ScopeMasks(s: Segment)
    ensures And(s, 0xff00) == 0xff00 <==> 0xff00 <= s
    ensures And(s, 0xfe00) == 0xfc00 <==> 0xfc00 <= s < 0xfe00
    ensures And(s, 0xffc0) == 0xfe80 <==> 0xfe80 <= s < 0xfec0
  {
    HighByte(s);
    MaskedEquals(s, And(s, 0xff00), 256, 255);
    HighSeven(s);
    MaskedEquals(s, And(s, 0xfe00), 512, 126);
    HighTen(s);
    MaskedEquals(s, And(s, 0xffc0), 64, 1018);
  }

  lemma WholeBlock(a: Octet, b: Octet, c: Octet, d: Octet, n: Octet, m: Octet, l: Octet)
    ensures Block4(n, 0, 0, 0xffffff).Has(Value(V4(a, b, c, d))) <==> a == n
    ensures Block4(n, m, 0, 0xffff).Has(Value(V4(a, b, c, d))) <==> a == n && b == m
    ensures Block4(n, m, l, 0xff).Has(Value(V4(a, b, c, d))) <==> a == n && b == m && c == l
  {
  }

  lemma PartBlocks(a: Octet, b: Octet, c: Octet, d: Octet)
    ensures var v := Value(V4(a, b, c, d));
            && (Block4(172, 16, 0, 0xfffff).Has(v) <==> a == 172 && 16 <= b <= 31)
            && (Block4(224, 0, 0, 0x1fffffff).Has(v) <==> a >= 224)
            && (Block4(100, 64, 0, 0x3fffff).Has(v) <==> a == 100 && 64 <= b <= 127)
            && (Block4(198, 18, 0, 0x1ffff).Has(v) <==> a == 198 && 18 <= b <= 19)
            && (v == 0 <==> a == 0 && b == 0 && c == 0 && d == 0)
  {
  }

  // The octet and mask tests are a union of address blocks, for every address.
  lemma SpecialV4IsBlocks(a: Octet, b: Octet, c: Octet, d: Octet)
    ensures IsSpecial(V4(a, b, c, d)) <==> SpecialV4(Value(V4(a, b, c, d)))
  {
    SharedSpaceMask(b);
    BenchmarkMask(b);
    PartBlocks(a, b, c, d);
    WholeBlock(a, b, c, d, 10, 0, 0);
    WholeBlock(a, b, c, d, 127, 0, 0);
    WholeBlock(a, b, c, d, 192, 168, 0);
    WholeBlock(a, b, c, d, 169, 254, 0);
    WholeBlock(a, b, c, d, 192, 0, 2);
    WholeBlock(a, b, c, d, 198, 51, 100);
    WholeBlock(a, b, c, d, 203, 0, 113);
  }

  lemma SpecialV6IsBlocks(ip: Ip)
    requires ip.V6?
    ensures IsSpecial(ip) <==> SpecialV6(Value(ip))
  {
    ScopeMasks(ip.s0);
  }

  // Ranges that share an address name the same registry.
  ghost predicate Coherent(table: seq<Range>) {
    forall x, y, v: nat :: x in table && y in table && x.Has(v) && y.Has(v) ==> x.rir == y.rir
  }

  ghost predicate Follows(table: seq<Range>, owner: nat -> Rir) {
    forall x, v: nat :: x in table && x.Has(v) ==> x.rir == owner(v)
  }

  // First match finds a covering range exactly when there is one.
  lemma {:induction false} FirstMatchFinds(table: seq<Range>, v: nat)
    ensures FirstMatch(table, v).Some? ==> exists x :: x in table && x.Has(v) && x.rir == FirstMatch(table, v).value
    ensures FirstMatch(table, v).None? ==> forall x :: x in table ==> !x.Has(v)
  {
    if table != [] && !table[0].Has(v) {
      assert table == [table[0]] + table[1..];
      FirstMatchFinds(table[1..], v);
    }
  }

  // In a coherent table the order of the entries is irrelevant.
  lemma FirstMatchIgnoresOrder(table: seq<Range>, shuffled: seq<Range>, v: nat)
    requires Coherent(table) && multiset(table) == multiset(shuffled)
    ensures FirstMatch(shuffled, v) == FirstMatch(table, v)
  {
    assert forall x :: x in table <==> x in multiset(table);
    assert forall x :: x in shuffled <==> x in multiset(shuffled);
    FirstMatchFinds(table, v);
    FirstMatchFinds(shuffled, v);
  }

  // The allocation by first octet, as interval conditions.
  function OctetOwner(o: nat): Rir {
    if o == 2 || o == 5 || o == 25 || o == 31 || o == 37 || o == 46 || o == 51 || o == 53 || o == 62
      || 77 <= o <= 95 || o == 109 || o == 176 || o == 178 || o == 185 || o == 188 || 193 <= o <= 195
      || 212 <= o <= 213 || o == 217 then RIPE
    else if o == 1 || o == 14 || o == 27 || o == 36 || o == 39 || 42 <= o <= 43 || o == 49 || 58 <= o <= 61
      || o == 101 || o == 103 || o == 106 || 110 <= o <= 126 || o == 133 || o == 150 || o == 153 || o == 163
      || 202 <= o <= 203 || 210 <= o <= 211 || 218 <= o <= 223 then APNIC
    else if o == 177 || o == 179 || o == 181 || 186 <= o <= 187 || 189 <= o <= 191 || 200 <= o <= 201 then LACNIC
    else if o == 41 || o == 102 || o == 105 || o == 154 || 196 <= o <= 197 then AFRINIC
    else ARIN
  }

  function V4Owner(v: nat): Rir {
    OctetOwner(v / 0x1000000)
  }

  lemma BlocksFollow(octets: seq<nat>, rir: Rir)
    requires forall i :: 0 <= i < |octets| ==> OctetOwner(octets[i]) == rir
    ensures Follows(Blocks(octets, rir), V4Owner)
  {
    forall x, v: nat | x in Blocks(octets, rir) && x.Has(v)
      ensures x.rir == V4Owner(v)
    {
      var i :| 0 <= i < |octets| && x == Block(octets[i], rir);
      assert v / 0x1000000 == octets[i];
    }
  }

  lemma ArinLowOctets()
    ensures forall i :: 0 <= i < |ARIN_LOW| ==> OctetOwner(ARIN_LOW[i]) == ARIN
  {
  }

  lemma ArinOctets()
    ensures forall i :: 0 <= i < |ARIN_MID| ==> OctetOwner(ARIN_MID[i]) == ARIN
    ensures forall i :: 0 <= i < |ARIN_HIGH| ==> OctetOwner(ARIN_HIGH[i]) == ARIN
  {
  }

  lemma RipeOctets()
    ensures forall i :: 0 <= i < |RIPE_V4| ==> OctetOwner(RIPE_V4[i]) == RIPE
  {
  }

  lemma ApnicOctets()
    ensures forall i :: 0 <= i < |APNIC_LOW| ==> OctetOwner(APNIC_LOW[i]) == APNIC
    ensures forall i :: 0 <= i < |APNIC_HIGH| ==> OctetOwner(APNIC_HIGH[i]) == APNIC
  {
  }

  lemma SouthernOctets()
    ensures forall i :: 0 <= i < |LACNIC_V4| ==> OctetOwner(LACNIC_V4[i]) == LACNIC
    ensures forall i :: 0 <= i < |AFRINIC_V4| ==> OctetOwner(AFRINIC_V4[i]) == AFRINIC
  {
  }

  lemma FollowsConcat(a: seq<Range>, b: seq<Range>, owner: nat -> Rir)
    requires Follows(a, owner) && Follows(b, owner)
    ensures Follows(a + b, owner)
  {
  }

  lemma V4Follows()
    ensures Follows(V4_TABLE, V4Owner)
  {
    ArinLowOctets();
    ArinOctets();
    RipeOctets();
    ApnicOctets();
    SouthernOctets();
    BlocksFollow(ARIN_LOW, ARIN);
    BlocksFollow(ARIN_MID, ARIN);
    BlocksFollow(ARIN_HIGH, ARIN);
    BlocksFollow(RIPE_V4, RIPE);
    BlocksFollow(APNIC_LOW, APNIC);
    BlocksFollow(APNIC_HIGH, APNIC);
    BlocksFollow(LACNIC_V4, LACNIC);
    BlocksFollow(AFRINIC_V4, AFRINIC);
    assert Follows([ARIN_100], V4Owner);
    var arin := (Blocks(ARIN_LOW, ARIN) + Blocks(ARIN_MID, ARIN)) + ([ARIN_100] + Blocks(ARIN_HIGH, ARIN));
    var north := Blocks(RIPE_V4, RIPE) + (Blocks(APNIC_LOW, APNIC) + Blocks(APNIC_HIGH, APNIC));
    FollowsConcat(Blocks(ARIN_LOW, ARIN), Blocks(ARIN_MID, ARIN), V4Owner);
    FollowsConcat([ARIN_100], Blocks(ARIN_HIGH, ARIN), V4Owner);
    FollowsConcat(Blocks(ARIN_LOW, ARIN) + Blocks(ARIN_MID, ARIN), [ARIN_100] + Blocks(ARIN_HIGH, ARIN), V4Owner);
    FollowsConcat(Blocks(APNIC_LOW, APNIC), Blocks(APNIC_HIGH, APNIC), V4Owner);
    FollowsConcat(Blocks(RIPE_V4, RIPE), Blocks(APNIC_LOW, APNIC) + Blocks(APNIC_HIGH, APNIC), V4Owner);
    FollowsConcat(Blocks(LACNIC_V4, LACNIC), Blocks(AFRINIC_V4, AFRINIC), V4Owner);
    FollowsConcat(arin, north, V4Owner);
    FollowsConcat(arin + north, Blocks(LACNIC_V4, LACNIC) + Blocks(AFRINIC_V4, AFRINIC), V4Owner);
  }

  // The allocation by the top 32 bits of an IPv6 address.
  function PrefixOwner(p: nat): Rir {
    if 0x20010600 <= p < 0x20010800 || 0x2a000000 <= p < 0x2b000000 then RIPE
    else if 0x20010200 <= p < 0x20010400 || 0x24000000 <= p < 0x25000000 || 0x20010c00 <= p < 0x20010e00 then APNIC
    else if 0x28000000 <= p < 0x29000000 then LACNIC
    else if 0x20014200 <= p < 0x20014400 || 0x2c000000 <= p < 0x2d000000 then AFRINIC
    else ARIN
  }

  function V6Owner(v: nat): Rir {
    PrefixOwner(v / LOW96)
  }

  lemma V6Follows()
    ensures Follows(V6_TABLE, V6Owner)
  {
    forall x, v: nat | x in V6_TABLE && x.Has(v)
      ensures x.rir == V6Owner(v)
    {
      var i :| 0 <= i < |V6_TABLE| && V6_TABLE[i] == x;
      var p := v / LOW96;
      assert p * LOW96 <= v < p * LOW96 + LOW96;
    }
  }

  // Any two table ranges that overlap carry the same registry, in both families.
  lemma TablesCoherent()
    ensures Coherent(V4_TABLE) && Coherent(V6_TABLE)
  {
    V4Follows();
    V6Follows();
  }

  function TableFor(ip: Ip): seq<Range> {
    if ip.V4? then V4_TABLE else V6_TABLE
  }

  ghost predicate Special(ip: Ip) {
    if ip.V4? then SpecialV4(Value(ip)) else SpecialV6(Value(ip))
  }

  // The whole routing decision: special blocks are refused, every other address goes to the
  // registry of any range that covers it, and to ARIN when none does.
  lemma DetectRirMeaning(ip: Ip)
    ensures DetectRir(ip).Failure? <==> Special(ip)
    ensures DetectRir(ip).Success? ==>
            forall x :: x in TableFor(ip) && x.Has(Value(ip)) ==> x.rir == DetectRir(ip).value
    ensures DetectRir(ip).Success? && (forall x :: x in TableFor(ip) ==> !x.Has(Value(ip))) ==> DetectRir(ip).value == ARIN
  {
    match ip {
      case V4(a, b, c, d) => SpecialV4IsBlocks(a, b, c, d);
      case V6(_, _, _, _, _, _, _, _) => SpecialV6IsBlocks(ip);
    }
    TablesCoherent();
    FirstMatchFinds(TableFor(ip), Value(ip));
  }

  lemma RipeIsListed(o: nat)
    requires OctetOwner(o) == RIPE
    ensures o in RIPE_V4
  {
  }

  lemma ApnicIsListed(o: nat)
    requires OctetOwner(o) == APNIC
    ensures o in APNIC_LOW || o in APNIC_HIGH
  {
  }

  lemma SouthIsListed(o: nat)
    ensures OctetOwner(o) == LACNIC ==> o in LACNIC_V4
    ensures OctetOwner(o) == AFRINIC ==> o in AFRINIC_V4
  {
  }

  lemma BlockListed(octets: seq<nat>, rir: Rir, o: nat)
    requires o in octets
    ensures Block(o, rir) in Blocks(octets, rir)
  {
    var i :| 0 <= i < |octets| && octets[i] == o;
    assert Blocks(octets, rir)[i] == Block(o, rir);
  }

  // Every octet of another registry than ARIN is in the table under that registry.
  lemma V4Complete(o: nat)
    requires OctetOwner(o) != ARIN
    ensures Block(o, OctetOwner(o)) in V4_TABLE
  {
    match OctetOwner(o) {
      case RIPE =>
        RipeIsListed(o);
        BlockListed(RIPE_V4, RIPE, o);
      case APNIC =>
        ApnicIsListed(o);
        if o in APNIC_LOW { BlockListed(APNIC_LOW, APNIC, o); } else { BlockListed(APNIC_HIGH, APNIC, o); }
      case LACNIC =>
        SouthIsListed(o);
        BlockListed(LACNIC_V4, LACNIC, o);
      case AFRINIC =>
        SouthIsListed(o);
        BlockListed(AFRINIC_V4, AFRINIC, o);
    }
  }

  // Closed form of IPv4 routing: the table walk and its ARIN default are one interval function.
  lemma V4RoutingIsOwner(a: Octet, b: Octet, c: Octet, d: Octet)
    requires !SpecialV4(Value(V4(a, b, c, d)))
    ensures DetectRir(V4(a, b, c, d)) == Success(V4Owner(Value(V4(a, b, c, d))))
  {
    var v := Value(V4(a, b, c, d));
    DetectRirMeaning(V4(a, b, c, d));
    V4Follows();
    FirstMatchFinds(V4_TABLE, v);
    if V4Owner(v) != ARIN {
      V4Complete(v / 0x1000000);
      assert Block(v / 0x1000000, V4Owner(v)).Has(v);
    }
  }

  lemma V6Complete(v: nat)
    requires V6Owner(v) != ARIN
    ensures exists x :: x in V6_TABLE && x.Has(v)
  {
    var p := v / LOW96;
    assert p * LOW96 <= v < p * LOW96 + LOW96;
    assert forall i :: 4 <= i < 13 ==> V6_TABLE[i] in V6_TABLE;
    assert V6_TABLE[4].Has(v) || V6_TABLE[5].Has(v) || V6_TABLE[6].Has(v) || V6_TABLE[7].Has(v) || V6_TABLE[8].Has(v)
      || V6_TABLE[9].Has(v) || V6_TABLE[11].Has(v) || V6_TABLE[12].Has(v);
  }

  lemma V6RoutingIsOwner(ip: Ip)
    requires ip.V6? && !SpecialV6(Value(ip))
    ensures DetectRir(ip) == Success(V6Owner(Value(ip)))
  {
    DetectRirMeaning(ip);
    V6Follows();
    FirstMatchFinds(V6_TABLE, Value(ip));
    if V6Owner(Value(ip)) != ARIN {
      V6Complete(Value(ip));
    }
  }

  // Screening before the table matters: the table alone would route this documentation address.
  lemma ScreeningComesFirst()
    ensures DetectRir(V4(203, 0, 113, 7)).Failure? && exists x :: x in V4_TABLE && x.Has(Value(V4(203, 0, 113, 7)))
  {
    assert APNIC_HIGH[12] == 203;
    assert Blocks(APNIC_HIGH, APNIC)[12] == Block(203, APNIC);
    assert Block(203, APNIC) in V4_TABLE;
  }
}
