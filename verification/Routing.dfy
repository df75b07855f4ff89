// src/ip.rs: special-use screening and the RIR table.
module Routing {
  import opened Wrappers

  datatype Rir = ARIN | RIPE | APNIC | LACNIC | AFRINIC

  type Octet = n: nat | n < 0x100

  type Segment = n: nat | n < 0x10000

  datatype Ip =
    | V4(a: Octet, b: Octet, c: Octet, d: Octet)
    | V6(s0: Segment, s1: Segment, s2: Segment, s3: Segment, s4: Segment, s5: Segment, s6: Segment, s7: Segment)

  function Value(ip: Ip): nat {
    match ip
    case V4(a, b, c, d) => ((a * 0x100 + b) * 0x100 + c) * 0x100 + d
    case V6(s0, s1, s2, s3, s4, s5, s6, s7) =>
      ((((((s0 * 0x10000 + s1) * 0x10000 + s2) * 0x10000 + s3) * 0x10000 + s4) * 0x10000 + s5) * 0x10000 + s6) * 0x10000 + s7
  }

  // Bitwise and.
  function And(x: nat, y: nat): nat {
    if x == 0 || y == 0 then 0
    else (if x % 2 == 1 && y % 2 == 1 then 1 else 0) + 2 * And(x / 2, y / 2)
  }

  datatype Range = Range(start: nat, end: nat, rir: Rir) {
    predicate Has(v: nat) { start <= v <= end }
  }

  // Whole /8 blocks by first octet, in table order.
  const ARIN_LOW: seq<nat> := [
    3, 4, 6, 7, 8, 9, 11, 12, 13, 15, 16, 17, 18, 19, 20, 23, 24, 32, 33, 34, 35, 40, 44, 47, 48, 50,
    52, 54, 55, 56]
  const ARIN_MID: seq<nat> := [
    63, 64, 65, 66, 67, 68, 69, 70, 71, 72, 73, 74, 75, 76, 96, 97, 98, 99]
  const ARIN_HIGH: seq<nat> := [
    104, 107, 108]
  const RIPE_V4: seq<nat> := [
    2, 5, 25, 31, 37, 46, 51, 53, 62, 77, 78, 79, 80, 81, 82, 83, 84, 85, 86, 87, 88, 89, 90, 91, 92,
    93, 94, 95, 109, 176, 178, 185, 188, 193, 194, 195, 212, 213, 217]
  const APNIC_LOW: seq<nat> := [
    1, 14, 27, 36, 39, 42, 43, 49, 58, 59, 60, 61, 101, 103, 106, 110, 111, 112, 113, 114, 115, 116,
    117, 118, 119]
  const APNIC_HIGH: seq<nat> := [
    120, 121, 122, 123, 124, 125, 126, 133, 150, 153, 163, 202, 203, 210, 211, 218, 219, 220, 221, 222,
    223]
  const LACNIC_V4: seq<nat> := [
    177, 179, 181, 186, 187, 189, 190, 191, 200, 201]
  const AFRINIC_V4: seq<nat> := [
    41, 102, 105, 154, 196, 197]

  function Block(octet: nat, rir: Rir): Range {
    Range(octet * 0x1000000, octet * 0x1000000 + 0xffffff, rir)
  }

  function Blocks(octets: seq<nat>, rir: Rir): seq<Range> {
    seq(|octets|, i requires 0 <= i < |octets| => Block(octets[i], rir))
  }

  // 100.0.0.0 to 100.63.255.255, the one entry that is not a whole /8
  const ARIN_100 := Range(100 * 0x1000000, 100 * 0x1000000 + 0x3fffff, ARIN)

  const V4_TABLE: seq<Range> :=
    ((Blocks(ARIN_LOW, ARIN) + Blocks(ARIN_MID, ARIN)) + ([ARIN_100] + Blocks(ARIN_HIGH, ARIN))) +
    (Blocks(RIPE_V4, RIPE) + (Blocks(APNIC_LOW, APNIC) + Blocks(APNIC_HIGH, APNIC))) +
    (Blocks(LACNIC_V4, LACNIC) + Blocks(AFRINIC_V4, AFRINIC))

  // Ranges given by their first two segments; all lower bits run from zero to one.
  function Segments(first0: nat, first1: nat, last0: nat, last1: nat, rir: Rir): Range
    requires first0 < 0x10000 && first1 < 0x10000 && last0 < 0x10000 && last1 < 0x10000
  {
    Range((first0 * 0x10000 + first1) * LOW96, (last0 * 0x10000 + last1) * LOW96 + (LOW96 - 1), rir)
  }

  const LOW96: nat := 0x1_0000_0000_0000_0000_0000_0000

  const V6_TABLE: seq<Range> := [
    Segments(0x2001, 0x400, 0x2001, 0x5ff, ARIN),
    Segments(0x2600, 0x0, 0x26ff, 0xffff, ARIN),
    Segments(0x2610, 0x0, 0x261f, 0xffff, ARIN),
    Segments(0x2620, 0x0, 0x262f, 0xffff, ARIN),
    Segments(0x2001, 0x600, 0x2001, 0x7ff, RIPE),
    Segments(0x2a00, 0x0, 0x2aff, 0xffff, RIPE),
    Segments(0x2001, 0x200, 0x2001, 0x3ff, APNIC),
    Segments(0x2400, 0x0, 0x24ff, 0xffff, APNIC),
    Segments(0x2001, 0xc00, 0x2001, 0xdff, APNIC),
    Segments(0x2800, 0x0, 0x28ff, 0xffff, LACNIC),
    Segments(0x2801, 0x0, 0x2801, 0x1ff, LACNIC),
    Segments(0x2001, 0x4200, 0x2001, 0x43ff, AFRINIC),
    Segments(0x2c00, 0x0, 0x2cff, 0xffff, AFRINIC)]

  function FirstMatch(table: seq<Range>, v: nat): Option<Rir> {
    if table == [] then None
    else if table[0].Has(v) then Some(table[0].rir)
    else FirstMatch(table[1..], v)
  }

  // RirDatabase::detect_rir
  function TableRir(ip: Ip): Option<Rir> {
    FirstMatch(if ip.V4? then V4_TABLE else V6_TABLE, Value(ip))
  }

  predicate IsSpecial(ip: Ip) {
    match ip
    case V4(a, b, c, d) =>
      || (a == 10 || (a == 172 && 16 <= b <= 31) || (a == 192 && b == 168))
      || a == 127
      || (a == 169 && b == 254)
      || ((a == 192 && b == 0 && c == 2) || (a == 198 && b == 51 && c == 100) || (a == 203 && b == 0 && c == 113))
      || (a == 255 && b == 255 && c == 255 && d == 255)
      || 224 <= a <= 239
      || (a == 0 && b == 0 && c == 0 && d == 0)
      || (a == 100 && And(b, 0xC0) == 64)
      || a >= 240
      || (a == 198 && And(b, 0xFE) == 18)
    case V6(s0, s1, s2, s3, s4, s5, s6, s7) =>
      || (s0 == 0 && s1 == 0 && s2 == 0 && s3 == 0 && s4 == 0 && s5 == 0 && s6 == 0 && s7 == 1)
      || And(s0, 0xff00) == 0xff00
      || (s0 == 0 && s1 == 0 && s2 == 0 && s3 == 0 && s4 == 0 && s5 == 0 && s6 == 0 && s7 == 0)
      || And(s0, 0xfe00) == 0xfc00
      || And(s0, 0xffc0) == 0xfe80
      || (s0 == 0x2001 && s1 == 0x0db8)
  }

  datatype RouteError = UnsupportedIpAddress

  // detect_rir: special addresses are refused first, unknown public ones go to ARIN.
  function DetectRir(ip: Ip): Result<Rir, RouteError> {
    if IsSpecial(ip) then Failure(UnsupportedIpAddress)
    else
      match TableRir(ip)
      case Some(rir) => Success(rir)
      case None => Success(ARIN)
  }

  function WhoisServer(rir: Rir): string {
    match rir
    case ARIN => "whois.arin.net"
    case RIPE => "whois.ripe.net"
    case APNIC => "whois.apnic.net"
    case LACNIC => "whois.lacnic.net"
    case AFRINIC => "whois.afrinic.net"
  }
}
