/** IPv4 addresses and CIDR blocks over JavaScript numbers. */
module Ipv4 {
  import opened AsciiText
  import opened Common
  import opened Powers

  const TWO_32: int := 0x1_0000_0000
  const TWO_31: int := 0x8000_0000

  // ---- JavaScript's 32-bit operators ----

  /** What a bitwise operator sees of an integer: its low 32 bits as a signed number. */
  function ToInt32(x: int): (r: int)
    ensures -TWO_31 <= r < TWO_31 && (r - x) % TWO_32 == 0
  {
    var low := x % TWO_32;
    if low >= TWO_31 then low - TWO_32 else low
  }

  /** `x << 8` */
  function ShiftLeft8(x: int): int {
    ToInt32(ToInt32(x) * 256)
  }

  /** `x >>> 0` */
  function ToUint32(x: int): (r: nat)
    ensures r < TWO_32 && (r - x) % TWO_32 == 0
  {
    x % TWO_32
  }

  // ---- Addresses as text ----

  function Fields(s: string): seq<string> {
    Split(s, '.')
  }

  /** One to three digits. */
  predicate IsField(s: string) {
    1 <= |s| <= 3 && forall i :: 0 <= i < |s| ==> IsDigitChar(s[i])
  }

  predicate IsDotted(s: string) {
    |Fields(s)| == 4 && forall i :: 0 <= i < 4 ==> IsField(Fields(s)[i])
  }

  /** The address four octets stand for. */
  function Base256(octets: seq<nat>): nat {
    if octets == [] then 0 else 256 * Base256(octets[..|octets| - 1]) + octets[|octets| - 1]
  }

  function OctetsOf(s: string): seq<nat>
    requires IsDotted(s)
  {
    var fields := Fields(s);
    [Number(fields[0]), Number(fields[1]), Number(fields[2]), Number(fields[3])]
  }

  predicate AreOctets(octets: seq<nat>) {
    |octets| == 4 && forall i :: 0 <= i < 4 ==> octets[i] <= 255
  }

  function IpToNum(s: string): Option<nat> {
    if IsDotted(s) && AreOctets(OctetsOf(s)) then Some(Base256(OctetsOf(s))) else None
  }

  /** The same low 32 bits. */
  predicate Congruent(v: int, w: int) {
    (v - w) % TWO_32 == 0
  }

  lemma Apart(v: int, w: int) returns (k: int)
    requires Congruent(v, w)
    ensures v == w + TWO_32 * k
  {
    k := (v - w) / TWO_32;
  }

  lemma Together(v: int, w: int, k: int)
    requires v == w + TWO_32 * k
    ensures Congruent(v, w)
  {
  }

  lemma Wrapped(x: int)
    ensures Congruent(ToInt32(x), x)
  {
  }

  lemma Shifted(v: int, w: nat, octet: nat)
    requires Congruent(v, w)
    ensures Congruent(ShiftLeft8(v) + octet, 256 * w + octet)
  {
    hide Congruent, ToInt32;
    Wrapped(v);
    Wrapped(ToInt32(v) * 256);
    var k := Apart(v, w);
    var m := Apart(ToInt32(v), v);
    var n := Apart(ShiftLeft8(v), ToInt32(v) * 256);
    Together(ShiftLeft8(v) + octet, 256 * w + octet, n + 256 * m + 256 * k);
  }

  lemma Unsigned(v: int, w: nat)
    requires Congruent(v, w) && w < TWO_32
    ensures ToUint32(v) == w
  {
  }

  lemma Base256Bound(octets: seq<nat>)
    requires AreOctets(octets)
    ensures Base256(octets) < TWO_32
    ensures Base256(octets) == octets[0] * 0x100_0000 + octets[1] * 0x1_0000 + octets[2] * 0x100 + octets[3]
  {
    var one, two, three := octets[..1], octets[..2], octets[..3];
    assert one[..0] == [] && two[..1] == one && three[..2] == two;
    assert Base256(one) == octets[0];
    assert Base256(two) == 256 * Base256(one) + octets[1];
    assert Base256(three) == 256 * Base256(two) + octets[2];
  }

  /** The loop shifts within 32 signed bits and only its last line makes the result unsigned; it is exact all the same. */
  method ParseIp(s: string) returns (r: Option<nat>)
    ensures r == IpToNum(s)
    ensures r.Some? ==> r.value < TWO_32
  {
    if !IsDotted(s) {
      return None;
    }
    hide Number, IndexOfChar, Fields, IsField, ShiftLeft8, ToInt32, ToUint32, Congruent;
    var fields, value, index := Fields(s), 0, 0;
    ghost var octets := OctetsOf(s);
    assert Base256([]) == 0 && octets[..0] == [];
    CongruentSelf();
    while index < 4
      invariant 0 <= index <= 4
      invariant forall i :: 0 <= i < index ==> octets[i] <= 255
      invariant Congruent(value, Base256(octets[..index]))
    {
      var octet := Number(fields[index]);
      assert octets[index] == octet;
      if octet > 255 {
        return None;
      }
      assert octets[..index + 1][..index] == octets[..index];
      Shifted(value, Base256(octets[..index]), octet);
      value := ShiftLeft8(value) + octet;
      index := index + 1;
    }
    assert octets[..4] == octets;
    Base256Bound(octets);
    Unsigned(value, Base256(octets));
    r := Some(ToUint32(value));
  }

  lemma CongruentSelf()
    ensures Congruent(0, 0)
  {
  }

  // ---- Addresses as numbers ----

  function DigitChar(n: nat): char
    requires n < 10
  {
    '0' + n as char
  }

  function Decimal(n: nat): (s: string)
    ensures s != [] && forall i :: 0 <= i < |s| ==> IsDigitChar(s[i])
  {
    if n < 10 then [DigitChar(n)] else Decimal(n / 10) + [DigitChar(n % 10)]
  }

  function Joined(octets: seq<nat>): string {
    if octets == [] then ""
    else if |octets| == 1 then Decimal(octets[0])
    else Decimal(octets[0]) + "." + Joined(octets[1..])
  }

  /** `(value >>> 8 * k) & 0xff` for the four bytes, highest first. */
  function Bytes(value: nat): (octets: seq<nat>)
    ensures AreOctets(octets)
  {
    [value / 0x100_0000 % 256, value / 0x1_0000 % 256, value / 0x100 % 256, value % 256]
  }

  /** Anything but a 32-bit number is refused. */
  function NumToIp(value: int): Option<string> {
    if value < 0 || value >= TWO_32 then None else Some(Joined(Bytes(value)))
  }

  lemma {:induction false} DecimalValue(n: nat)
    ensures Number(Decimal(n)) == n
  {
    if n >= 10 {
      DecimalValue(n / 10);
      var s := Decimal(n);
      assert s[..|s| - 1] == Decimal(n / 10);
    }
  }

  lemma OctetIsField(n: nat)
    requires n <= 255
    ensures IsField(Decimal(n))
  {
    assert n >= 10 ==> |Decimal(n)| == |Decimal(n / 10)| + 1;
    assert n / 10 >= 10 ==> |Decimal(n / 10)| == |Decimal(n / 10 / 10)| + 1;
  }

  lemma JoinedIs(octets: seq<nat>)
    requires |octets| == 4
    ensures Joined(octets) ==
      Decimal(octets[0]) + "." + (Decimal(octets[1]) + "." + (Decimal(octets[2]) + "." + Decimal(octets[3])))
  {
    assert octets[1..][1..] == octets[2..] && octets[2..][1..] == octets[3..];
    hide Decimal;
    assert Joined(octets[3..]) == Decimal(octets[3]);
    assert Joined(octets[2..]) == Decimal(octets[2]) + "." + Joined(octets[3..]);
    assert Joined(octets[1..]) == Decimal(octets[1]) + "." + Joined(octets[2..]);
  }

  lemma FourFields(a: string, b: string, c: string, d: string)
    requires Free(a, '.') && Free(b, '.') && Free(c, '.') && Free(d, '.')
    ensures Fields(a + "." + (b + "." + (c + "." + d))) == [a, b, c, d]
  {
    hide Split;
    SplitJoin(d, '.', "");
    SplitJoin(c, '.', d);
    SplitJoin(b, '.', c + "." + d);
    SplitJoin(a, '.', b + "." + (c + "." + d));
  }

  lemma JoinedFields(octets: seq<nat>)
    requires |octets| == 4
    ensures Fields(Joined(octets)) == [Decimal(octets[0]), Decimal(octets[1]), Decimal(octets[2]), Decimal(octets[3])]
  {
    JoinedIs(octets);
    hide Decimal, Joined, Fields;
    FourFields(Decimal(octets[0]), Decimal(octets[1]), Decimal(octets[2]), Decimal(octets[3]));
  }

  lemma SplitInBytes(value: nat)
    requires value < TWO_32
    ensures
      var a, b, c := value / 0x100_0000 % 256, value / 0x1_0000 % 256, value / 0x100 % 256;
      value == a * 0x100_0000 + b * 0x1_0000 + c * 0x100 + value % 256
  {
    var low, middle, high := value / 0x100, value / 0x1_0000, value / 0x100_0000;
    assert value == 0x100 * low + value % 256;
    assert middle == low / 0x100 && low == 0x100 * middle + low % 256;
    assert high == middle / 0x100 && middle == 0x100 * high + middle % 256;
    assert high % 256 == high;
  }

  lemma BytesValue(value: nat)
    requires value < TWO_32
    ensures Base256(Bytes(value)) == value
  {
    hide Base256;
    Base256Bound(Bytes(value));
    SplitInBytes(value);
  }

  /** Printing and parsing are inverse on all addresses. */
  lemma ParsePrinted(value: nat)
    requires value < TWO_32
    ensures NumToIp(value).Some? && IpToNum(NumToIp(value).value) == Some(value)
  {
    var octets, s := Bytes(value), Joined(Bytes(value));
    JoinedFields(octets);
    forall i | 0 <= i < 4
      ensures IsField(Fields(s)[i]) && Number(Fields(s)[i]) == octets[i]
    {
      OctetIsField(octets[i]);
      DecimalValue(octets[i]);
      assert Fields(s)[i] == Decimal(octets[i]);
    }
    assert OctetsOf(s) == octets;
    BytesValue(value);
  }

  /** The canonical form of any accepted text stands for the same address and is its own canonical form. */
  lemma CanonicalAddress(s: string)
    requires IpToNum(s).Some?
    ensures
      var canonical := NumToIp(IpToNum(s).value);
      canonical.Some? && IpToNum(canonical.value) == IpToNum(s) && NumToIp(IpToNum(canonical.value).value) == canonical
  {
    Base256Bound(OctetsOf(s));
    ParsePrinted(IpToNum(s).value);
  }

  // ---- CIDR blocks ----

  datatype Cidr = Cidr(base: nat, prefix: nat)

  predicate IsCidr(c: Cidr) {
    c.base < TWO_32 && c.prefix <= 32
  }

  function Size(c: Cidr): (size: nat)
    requires IsCidr(c)
    ensures size > 0
  {
    Pow2(32 - c.prefix)
  }

  lemma Divided(x: nat, n: nat)
    requires n > 0
    ensures x == x / n * n + x % n
  {
  }

  function Floor(x: nat, n: nat): (r: nat)
    requires n > 0
    ensures r <= x < r + n
  {
    Divided(x, n);
    x / n * n
  }

  function Network(c: Cidr): nat
    requires IsCidr(c)
  {
    Floor(c.base, Size(c))
  }

  function Broadcast(c: Cidr): nat
    requires IsCidr(c)
  {
    Network(c) + Size(c) - 1
  }

  /** Two addresses share a block when their first `prefix` bits agree. */
  predicate InBlock(c: Cidr, address: nat)
    requires IsCidr(c)
  {
    address / Size(c) == c.base / Size(c)
  }

  predicate Overlap(l: Cidr, r: Cidr)
    requires IsCidr(l) && IsCidr(r)
  {
    Network(l) <= Broadcast(r) && Network(r) <= Broadcast(l)
  }

  predicate Contains(outer: Cidr, inner: Cidr)
    requires IsCidr(outer) && IsCidr(inner)
  {
    inner.prefix >= outer.prefix && Network(inner) >= Network(outer) && Broadcast(inner) <= Broadcast(outer)
  }

  lemma Scaled(i: int, j: int, n: nat)
    ensures i <= j ==> i * n <= j * n
    ensures (i + 1) * n == i * n + n
  {
    if i <= j {
      assert (j - i) * n >= 0;
    }
  }

  /** Two numbers have the same quotient exactly when they are in the same block of `n`. */
  lemma SameQuotient(x: nat, y: nat, n: nat)
    requires n > 0
    ensures x / n == y / n <==> Floor(y, n) <= x < Floor(y, n) + n
  {
    var i, j := x / n, y / n;
    Divided(x, n);
    Scaled(i + 1, j, n);
    Scaled(j + 1, i, n);
    Scaled(i, j, n);
    Scaled(j, i, n);
  }

  /** The bounds enclose exactly the addresses of the block. */
  lemma BoundsAreExact(c: Cidr, address: nat)
    requires IsCidr(c)
    ensures Network(c) <= address <= Broadcast(c) <==> InBlock(c, address)
  {
    SameQuotient(address, c.base, Size(c));
    hide Size, Floor;
  }

  ghost predicate Multiple(x: int, n: nat) {
    exists k: int :: x == k * n
  }

  lemma FloorIsMultiple(x: nat, n: nat, k: nat)
    requires n > 0 && k > 0
    ensures n * k > 0 && Multiple(Floor(x, n), n) && Multiple(Floor(x, n * k), n) && Multiple(n * k, n)
  {
    Scaled(1, k, n);
    assert n * k == k * n;
    assert Floor(x, n) == (x / n) * n;
    assert Floor(x, n * k) == (x / (n * k) * k) * n;
  }

  lemma MultiplesApart(a: int, b: int, n: nat)
    requires n > 0 && Multiple(a, n) && Multiple(b, n) && a < b + n
    ensures a <= b
  {
    var i: int, j: int :| a == i * n && b == j * n;
    Scaled(j + 1, i, n);
    Scaled(j, j, n);
    Scaled(i, j, n);
  }

  lemma MultiplesAdd(a: int, b: int, n: nat)
    requires Multiple(a, n) && Multiple(b, n)
    ensures Multiple(a + b, n) && Multiple(a - n, n)
  {
    var i: int, j: int :| a == i * n && b == j * n;
    assert a + b == (i + j) * n;
    Scaled(i - 1, i, n);
    assert a - n == (i - 1) * n;
  }

  /** Of two overlapping blocks the one with the longer prefix lies inside the other. */
  lemma OverlapIsNested(small: Cidr, large: Cidr)
    requires IsCidr(small) && IsCidr(large) && small.prefix >= large.prefix && Overlap(small, large)
    ensures Contains(large, small)
  {
    var n, m := Size(small), Size(large);
    Pow2Split(32 - small.prefix, 32 - large.prefix);
    var k := Pow2(small.prefix - large.prefix);
    FloorIsMultiple(small.base, n, k);
    FloorIsMultiple(large.base, n, k);
    hide Size, Floor, Multiple;
    MultiplesAdd(Network(large), m, n);
    MultiplesAdd(Network(large) + m, m, n);
    MultiplesApart(Network(large), Network(small), n);
    MultiplesApart(Network(small), Network(large) + m - n, n);
  }

  lemma OverlapNests(l: Cidr, r: Cidr)
    requires IsCidr(l) && IsCidr(r)
    ensures Overlap(l, r) ==> Contains(l, r) || Contains(r, l)
  {
    if Overlap(l, r) {
      if l.prefix >= r.prefix {
        OverlapIsNested(l, r);
      } else {
        OverlapIsNested(r, l);
      }
    }
  }

  /** Overlap means a common address. */
  lemma OverlapExactly(l: Cidr, r: Cidr)
    requires IsCidr(l) && IsCidr(r)
    ensures Overlap(l, r) <==> exists address: nat :: InBlock(l, address) && InBlock(r, address)
  {
    hide Size, Floor, InBlock;
    if Overlap(l, r) {
      var address := if Network(l) >= Network(r) then Network(l) else Network(r);
      BoundsAreExact(l, address);
      BoundsAreExact(r, address);
    }
    if address: nat :| InBlock(l, address) && InBlock(r, address) {
      BoundsAreExact(l, address);
      BoundsAreExact(r, address);
    }
  }

  /** Containment means inclusion of the address sets. */
  lemma ContainsExactly(outer: Cidr, inner: Cidr)
    requires IsCidr(outer) && IsCidr(inner)
    ensures Contains(outer, inner) <==> forall address: nat :: InBlock(inner, address) ==> InBlock(outer, address)
  {
    hide Size, Floor, InBlock;
    if Contains(outer, inner) {
      forall address: nat | InBlock(inner, address)
        ensures InBlock(outer, address)
      {
        BoundsAreExact(inner, address);
        BoundsAreExact(outer, address);
      }
    }
    if forall address: nat :: InBlock(inner, address) ==> InBlock(outer, address) {
      BoundsAreExact(inner, Network(inner));
      BoundsAreExact(inner, Broadcast(inner));
      BoundsAreExact(outer, Network(inner));
      BoundsAreExact(outer, Broadcast(inner));
      SizeByPrefix(outer, inner);
    }
  }

  lemma SizeByPrefix(outer: Cidr, inner: Cidr)
    requires IsCidr(outer) && IsCidr(inner)
    ensures inner.prefix < outer.prefix ==> Size(inner) > Size(outer)
  {
    if inner.prefix < outer.prefix {
      Pow2Grows(32 - outer.prefix, 32 - inner.prefix);
    }
  }
}
