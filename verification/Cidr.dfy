/** IP addresses and CIDR blocks as bit strings: an address of a family is a number below 2^width, and a
    block keeps the first `bits` of them (section 3.1 of RFC 4632, section 2.3 of RFC 4291). */
module Cidr {
  datatype Family = V4 | V6

  function Width(f: Family): nat {
    match f
    case V4 => 32
    case V6 => 128
  }

  datatype Addr = Addr(family: Family, value: nat, zone: string)

  datatype RawPrefix = RawPrefix(addr: Addr, bits: nat)

  /** A parsed prefix. Host bits may be set; a parsed prefix carries no zone. */
  type Prefix = p: RawPrefix | p.bits <= Width(p.addr.family) && p.addr.zone == ""
    witness RawPrefix(Addr(V4, 0, ""), 0)

  function Shift(x: nat, k: nat): nat {
    if k == 0 then x else Shift(x / 2, k - 1)
  }

  function HostBits(p: Prefix): nat {
    Width(p.addr.family) - p.bits
  }

  /** `netip.Prefix.Contains`: never for a zoned address or another family, else compare the leading bits. */
  predicate Contains(p: Prefix, a: Addr) {
    && a.zone == ""
    && a.family == p.addr.family
    && Shift(a.value, HostBits(p)) == Shift(p.addr.value, HostBits(p))
  }

  ghost predicate Disjoint(p: Prefix, q: Prefix) {
    forall a: Addr :: !(Contains(p, a) && Contains(q, a))
  }

  /** Every address of `q` is an address of `p`. */
  ghost predicate Covers(p: Prefix, q: Prefix) {
    forall a: Addr :: Contains(q, a) ==> Contains(p, a)
  }

  lemma {:induction false} ShiftTwice(x: nat, j: nat, k: nat)
    ensures Shift(x, j + k) == Shift(Shift(x, j), k)
  {
    if j > 0 {
      ShiftTwice(x / 2, j - 1, k);
    }
  }

  /** A shorter block that shares one address with a longer one contains all of it. */
  lemma ShorterCovers(p: Prefix, q: Prefix, a: Addr)
    requires p.bits <= q.bits
    requires Contains(p, a) && Contains(q, a)
    ensures Covers(p, q)
  {
    var extra := q.bits - p.bits;
    forall b: Addr | Contains(q, b)
      ensures Contains(p, b)
    {
      ShiftTwice(a.value, HostBits(q), extra);
      ShiftTwice(b.value, HostBits(q), extra);
    }
  }

  /** CIDR blocks are nested or disjoint: they never overlap in part. */
  lemma NestedOrDisjoint(p: Prefix, q: Prefix)
    ensures Disjoint(p, q) || Covers(p, q) || Covers(q, p)
  {
    if !Disjoint(p, q) {
      var a: Addr :| Contains(p, a) && Contains(q, a);
      if p.bits <= q.bits {
        ShorterCovers(p, q, a);
      } else {
        ShorterCovers(q, p, a);
      }
    }
  }

  /** Disjointness needs two membership tests only: neither written address lies in the other block. */
  predicate Separate(p: Prefix, q: Prefix) {
    !Contains(p, q.addr) && !Contains(q, p.addr)
  }

  lemma SeparateIffDisjoint(p: Prefix, q: Prefix)
    ensures Separate(p, q) <==> Disjoint(p, q)
  {
    assert Contains(p, p.addr) && Contains(q, q.addr);
    NestedOrDisjoint(p, q);
  }

  // ---- The same blocks as intervals of numbers ----

  /** `x` followed by `k` zero bits: x * 2^k. */
  function Append(x: nat, k: nat): nat {
    if k == 0 then x else 2 * Append(x, k - 1)
  }

  lemma {:induction false} ShiftBounds(x: nat, k: nat)
    ensures Append(Shift(x, k), k) <= x < Append(Shift(x, k) + 1, k)
  {
    if k > 0 {
      ShiftBounds(x / 2, k - 1);
    }
  }

  lemma {:induction false} AppendMonotone(x: nat, y: nat, k: nat)
    requires x <= y
    ensures Append(x, k) <= Append(y, k)
    ensures Append(x + y, k) == Append(x, k) + Append(y, k)
  {
    if k > 0 {
      AppendMonotone(x, y, k - 1);
    }
  }

  /** First address of the block. */
  function First(p: Prefix): nat {
    Append(Shift(p.addr.value, HostBits(p)), HostBits(p))
  }

  /** Containment by leading bits is membership in the interval of 2^(width - bits) addresses that starts
      at the block's first address. */
  lemma ContainsIsInterval(p: Prefix, a: Addr)
    requires a.zone == "" && a.family == p.addr.family
    ensures Contains(p, a) <==> First(p) <= a.value < First(p) + Append(1, HostBits(p))
  {
    var k := HostBits(p);
    var s, t := Shift(p.addr.value, k), Shift(a.value, k);
    ShiftBounds(a.value, k);
    if s == 0 {
      AppendMonotone(0, 1, k);
    } else {
      AppendMonotone(1, s, k);
    }
    if s < t {
      AppendMonotone(s + 1, t, k);
    } else if t < s {
      AppendMonotone(t + 1, s, k);
    }
  }
}
