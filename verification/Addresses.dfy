// IP addresses as Go's net package and network.go handle them: byte slices of length 4 or 16,
// incremented in place, compared byte by byte, masked byte by byte.
module Addresses {

  type byte = bv8
  type IP = seq<byte>

  // The IPv4-mapped prefix of section 2.5.5.2 of RFC 4291.
  const V4_IN_V6_PREFIX: IP := [0, 0, 0, 0, 0, 0, 0, 0, 0, 0, 0xFF, 0xFF]

  predicate IsV4Mapped(ip: IP) {
    |ip| == 16 && ip[..12] == V4_IN_V6_PREFIX
  }

  function To16(ip: IP): IP {
    if |ip| == 4 then V4_IN_V6_PREFIX + ip else ip
  }

  /** The 4-byte form, or the empty slice for nil. */
  function To4(ip: IP): IP {
    if |ip| == 4 then ip else if IsV4Mapped(ip) then ip[12..] else []
  }

  /** net.IP.Equal. */
  predicate Equal(a: IP, b: IP) {
    if |a| == |b| then a == b
    else if |a| == 4 && |b| == 16 then b[..12] == V4_IN_V6_PREFIX && a == b[12..]
    else if |a| == 16 && |b| == 4 then a[..12] == V4_IN_V6_PREFIX && a[12..] == b
    else false
  }

  /** Two addresses of legal length are equal exactly when their 16-byte forms are the same. */
  lemma EqualIsSame16(a: IP, b: IP)
    requires (|a| == 4 || |a| == 16) && (|b| == 4 || |b| == 16)
    ensures Equal(a, b) <==> To16(a) == To16(b)
  {
    if |a| == 4 && |b| == 16 {
      assert b == b[..12] + b[12..];
      assert (V4_IN_V6_PREFIX + a)[..12] == V4_IN_V6_PREFIX && (V4_IN_V6_PREFIX + a)[12..] == a;
    } else if |a| == 16 && |b| == 4 {
      assert a == a[..12] + a[12..];
      assert (V4_IN_V6_PREFIX + b)[..12] == V4_IN_V6_PREFIX && (V4_IN_V6_PREFIX + b)[12..] == b;
    } else if |a| == 4 && |b| == 4 {
      assert (V4_IN_V6_PREFIX + a)[12..] == a && (V4_IN_V6_PREFIX + b)[12..] == b;
    }
  }

  // ---------------------------------------------------------------- numbers

  function Pow256(n: nat): (r: nat)
    ensures r >= 1
  {
    if n == 0 then 1 else 256 * Pow256(n - 1)
  }

  /** The number an address stands for, most significant byte first. */
  function Value(ip: IP): nat {
    if ip == [] then 0 else Value(ip[..|ip| - 1]) * 256 + Digit(ip[|ip| - 1])
  }

  function Digit(b: byte): (d: nat)
    ensures d < 256
  {
    b as nat
  }

  lemma DigitInjective(a: byte, b: byte)
    ensures Digit(a) == Digit(b) ==> a == b
    ensures Digit(a) < Digit(b) <==> a < b
  {
  }

  lemma DigitUp(b: byte)
    ensures Digit(b + 1) == if b == 255 then 0 else Digit(b) + 1
    ensures Digit(b) == 255 <==> b == 255
  {
  }

  lemma PlaceValue(x: nat, d: nat, y: nat, e: nat)
    requires d < 256 && e < 256 && x * 256 + d == y * 256 + e
    ensures x == y && d == e
  {
  }

  lemma {:induction false} ValueBound(ip: IP)
    ensures Value(ip) < Pow256(|ip|)
  {
    if ip != [] {
      ValueBound(ip[..|ip| - 1]);
    }
  }

  lemma {:induction false} ValueInjective(a: IP, b: IP)
    requires |a| == |b| && Value(a) == Value(b)
    ensures a == b
  {
    if a != [] {
      var a', b' := a[..|a| - 1], b[..|b| - 1];
      var x, y := a[|a| - 1], b[|b| - 1];
      PlaceValue(Value(a'), Digit(x), Value(b'), Digit(y));
      DigitInjective(x, y);
      ValueInjective(a', b');
      assert a == a' + [x] && b == b' + [y];
    }
  }

  /** Every number is the number of some address of a length that has room for it. */
  lemma {:induction false} ValueSurjective(v: nat, n: nat) returns (ip: IP)
    requires v < Pow256(n)
    ensures |ip| == n && Value(ip) == v
  {
    if n == 0 {
      return [];
    }
    var front := ValueSurjective(v / 256, n - 1);
    var last := SomeDigit(v % 256);
    ip := front + [last];
    assert ip[..n - 1] == front;
  }

  lemma {:induction false} SomeDigit(d: nat) returns (b: byte)
    requires d < 256
    ensures Digit(b) == d
  {
    if d == 0 {
      b := 0;
    } else {
      b := SomeDigit(d - 1);
      DigitUp(b);
      b := b + 1;
    }
  }

  // ---------------------------------------------------------------- increment

  /** The address after one increment, with carry, wrapping around at the top. */
  function Incremented(ip: IP): (r: IP)
    ensures |r| == |ip|
  {
    if ip == [] then []
    else
      var last := ip[|ip| - 1];
      if last == 255 then Incremented(ip[..|ip| - 1]) + [0] else ip[..|ip| - 1] + [last + 1]
  }

  /** inc adds one, modulo the number of addresses of that length. */
  lemma {:induction false} IncrementAddsOne(ip: IP)
    ensures Value(Incremented(ip)) == if Value(ip) + 1 == Pow256(|ip|) then 0 else Value(ip) + 1
  {
    if ip != [] {
      var front := ip[..|ip| - 1];
      var last := ip[|ip| - 1];
      IncrementAddsOne(front);
      ValueBound(front);
      DigitUp(last);
      if last == 255 {
        assert (Incremented(front) + [0])[..|ip| - 1] == Incremented(front);
      } else {
        assert (front + [last + 1])[..|ip| - 1] == front;
      }
    }
  }

  /** One carry: the last byte of the front overflows. */
  lemma CarryStep(was: IP, j: nat)
    requires j < |was|
    ensures was[..j + 1][..j] == was[..j]
    ensures Incremented(was[..j + 1]) ==
            if was[j] == 255 then Incremented(was[..j]) + [0] else was[..j] + [was[j] + 1]
  {
    assert was[..j + 1][..j] == was[..j];
  }

  lemma ByteOverflows(b: byte)
    ensures b + 1 == 0 <==> b == 255
    ensures b + 1 > 0 <==> b != 255
  {
  }

  lemma ByteSet(was: IP, before: IP, j: nat, b: byte)
    requires j < |was| == |before| && before[..j + 1] == was[..j + 1]
    ensures before[j] == was[j]
    ensures before[j := b][..j] == was[..j]
    ensures before[j := b][j..] == [b] + before[j + 1..]
    ensures before[j := b] == was[..j] + [b] + before[j + 1..]
  {
    assert before[j] == before[..j + 1][j] && was[j] == was[..j + 1][j];
    assert before[..j] == before[..j + 1][..j] && was[..j] == was[..j + 1][..j];
  }

  /** The bytes behind j are done, and byte j is incremented: either that was all, or it carries. */
  lemma ByteStep(was: IP, before: IP, after: IP, j: nat)
    requires j < |was| == |before| && before[..j + 1] == was[..j + 1]
    requires Incremented(was) == Incremented(was[..j + 1]) + before[j + 1..]
    requires after == before[j := before[j] + 1]
    ensures after[j] > 0 ==> after == Incremented(was)
    ensures after[j] == 0 ==> after[..j] == was[..j] && Incremented(was) == Incremented(was[..j]) + after[j..]
  {
    CarryStep(was, j);
    ByteSet(was, before, j, before[j] + 1);
    ByteOverflows(was[j]);
    hide Incremented;
    if was[j] == 255 {
      assert Incremented(was[..j]) + [0] + before[j + 1..] == Incremented(was[..j]) + ([0] + before[j + 1..]);
    }
  }

  /** Increments one byte; done unless it overflowed. */
  method IncByte(ip: array<byte>, j: nat) returns (done: bool)
    requires j < ip.Length
    modifies ip
    ensures ip[..] == old(ip[..])[j := old(ip[j]) + 1]
    ensures done <==> ip[..][j] > 0
    ensures !done <==> ip[..][j] == 0
  {
    ip[j] := ip[j] + 1;
    done := ip[j] > 0;
  }

  /** The increment of network.go, in place on the slice. */
  method Inc(ip: array<byte>)
    modifies ip
    ensures ip[..] == Incremented(old(ip[..]))
  {
    hide Incremented;
    ghost var was := ip[..];
    var j := ip.Length - 1;
    assert was[..j + 1] == was;
    while j >= 0
      invariant -1 <= j < ip.Length
      invariant ip[..][..j + 1] == was[..j + 1]
      invariant Incremented(was) == Incremented(was[..j + 1]) + ip[..][j + 1..]
    {
      ghost var before := ip[..];
      var done := IncByte(ip, j);
      ByteStep(was, before, ip[..], j);
      if done {
        return;
      }
      j := j - 1;
    }
    IncrementedEmpty();
    assert was[..0] == [] && ip[..][0..] == ip[..];
  }

  lemma IncrementedEmpty()
    ensures Incremented([]) == []
  {
  }

  // ---------------------------------------------------------------- order

  /** bytes.Compare(a, b) <= 0. */
  predicate LexLe(a: IP, b: IP) {
    a == [] || (b != [] && (a[0] < b[0] || (a[0] == b[0] && LexLe(a[1..], b[1..]))))
  }

  /** bytes.Compare. */
  method Compare(a: IP, b: IP) returns (c: int)
    ensures c <= 0 <==> LexLe(a, b)
    ensures c >= 0 <==> LexLe(b, a)
  {
    var i := 0;
    while i < |a| && i < |b|
      invariant i <= |a| && i <= |b|
      invariant LexLe(a, b) <==> LexLe(a[i..], b[i..])
      invariant LexLe(b, a) <==> LexLe(b[i..], a[i..])
    {
      if a[i] < b[i] {
        return -1;
      }
      if a[i] > b[i] {
        return 1;
      }
      i := i + 1;
    }
    return if |a| < |b| then -1 else if |a| > |b| then 1 else 0;
  }

  lemma {:induction false} ValueFront(ip: IP)
    requires ip != []
    ensures Value(ip) == Digit(ip[0]) * Pow256(|ip| - 1) + Value(ip[1..])
  {
    if |ip| > 1 {
      var front := ip[..|ip| - 1];
      ValueFront(front);
      assert ip[1..][..|ip| - 2] == front[1..];
      ShiftPlace(Digit(ip[0]), Pow256(|ip| - 2), Value(front[1..]));
    } else {
      assert ip[..0] == [] && ip[1..] == [];
    }
  }

  lemma ShiftPlace(d: nat, p: nat, v: nat)
    ensures (d * p + v) * 256 == d * (256 * p) + v * 256
  {
  }

  lemma LeadingDigit(d: nat, e: nat, p: nat, v: nat, w: nat)
    requires v < p && w < p
    ensures d * p + v <= e * p + w <==> d < e || (d == e && v <= w)
  {
    if d < e {
      assert (d + 1) * p <= e * p;
    } else if e < d {
      assert (e + 1) * p <= d * p;
    }
  }

  /** Comparing bytes from the front compares the numbers. */
  lemma {:induction false} LexIsNumeric(a: IP, b: IP)
    requires |a| == |b|
    ensures LexLe(a, b) <==> Value(a) <= Value(b)
  {
    if a != [] {
      ValueFront(a);
      ValueFront(b);
      LexIsNumeric(a[1..], b[1..]);
      ValueBound(a[1..]);
      ValueBound(b[1..]);
      DigitInjective(a[0], b[0]);
      LeadingDigit(Digit(a[0]), Digit(b[0]), Pow256(|a| - 1), Value(a[1..]), Value(b[1..]));
    }
  }

  // ---------------------------------------------------------------- prefixes

  /** The mask byte with its first k bits set. */
  function MaskByte(k: nat): byte {
    if k >= 8 then 255
    else if k == 0 then 0
    else if k == 1 then 0x80
    else if k == 2 then 0xC0
    else if k == 3 then 0xE0
    else if k == 4 then 0xF0
    else if k == 5 then 0xF8
    else if k == 6 then 0xFC
    else 0xFE
  }

  /** net.CIDRMask: the first ones bits of n bytes (section 3.1 of RFC 4632). */
  function PrefixMask(ones: nat, n: nat): (m: IP)
    ensures |m| == n
  {
    seq(n, i requires 0 <= i < n => MaskByte(if ones >= 8 * i then ones - 8 * i else 0))
  }

  /** The network address of ip's block. */
  function And(ip: IP, mask: IP): (r: IP)
    requires |ip| == |mask|
    ensures |r| == |ip|
  {
    seq(|ip|, i requires 0 <= i < |ip| => ip[i] & mask[i])
  }

  /** The last address of the block: the network address with the host bits set. */
  function OrNot(ip: IP, mask: IP): (r: IP)
    requires |ip| == |mask|
    ensures |r| == |ip|
  {
    seq(|ip|, i requires 0 <= i < |ip| => ip[i] | !mask[i])
  }

  predicate IsPrefixByte(m: byte) {
    m == 0 || m == 0x80 || m == 0xC0 || m == 0xE0 || m == 0xF0 || m == 0xF8 || m == 0xFC || m == 0xFE || m == 255
  }

  lemma ByteFull(a: byte)
    ensures a & 255 == a && a | !255 == a
  {
  }

  lemma ByteZero(a: byte)
    ensures a & 0 == 0 && a | !0 == 255
  {
  }

  lemma {:induction false} ZerosAreLeast(lo: IP, b: IP)
    requires |lo| == |b| && forall i :: 0 <= i < |lo| ==> lo[i] == 0
    ensures LexLe(lo, b)
  {
    if lo != [] {
      ZerosAreLeast(lo[1..], b[1..]);
    }
  }

  lemma {:induction false} OnesAreGreatest(b: IP, hi: IP)
    requires |b| == |hi| && forall i :: 0 <= i < |hi| ==> hi[i] == 255
    ensures LexLe(b, hi)
  {
    if b != [] {
      OnesAreGreatest(b[1..], hi[1..]);
    }
  }

  /** An interval over everything after its first byte, in terms of a masked copy of b. */
  lemma IntervalOfFirstByte(lo: IP, hi: IP, b: IP, masked: IP)
    requires |lo| == |hi| == |b| == |masked| > 0
    requires masked[0] == lo[0] <==> lo[0] <= b[0] && b[0] <= hi[0]
    requires forall i :: 0 < i < |lo| ==> lo[i] == 0 && masked[i] == 0 && hi[i] == 255
    ensures masked == lo <==> LexLe(lo, b) && LexLe(b, hi)
  {
    ZerosAreLeast(lo[1..], b[1..]);
    OnesAreGreatest(b[1..], hi[1..]);
    assert masked[1..] == lo[1..];
    EqualFromFirst(masked, lo);
  }

  lemma EqualFromFirst(a: IP, b: IP)
    requires a != [] && b != []
    ensures a == b <==> a[0] == b[0] && a[1..] == b[1..]
  {
    if a[0] == b[0] && a[1..] == b[1..] {
      assert a == [a[0]] + a[1..] && b == [b[0]] + b[1..];
    }
  }

  lemma IntervalAfterFirstByte(lo: IP, hi: IP, b: IP, masked: IP)
    requires |lo| == |hi| == |b| == |masked| > 0
    requires lo[0] == hi[0] && masked[0] == b[0]
    requires masked[1..] == lo[1..] <==> LexLe(lo[1..], b[1..]) && LexLe(b[1..], hi[1..])
    ensures masked == lo <==> LexLe(lo, b) && LexLe(b, hi)
  {
    EqualFromFirst(masked, lo);
  }

  /** An interval whose ends agree on k bytes, and cover everything after byte k, in terms of
      a masked copy of b. */
  lemma {:induction false} IntervalOfBytes(lo: IP, hi: IP, b: IP, masked: IP, k: nat)
    requires |lo| == |hi| == |b| == |masked|
    requires forall i :: 0 <= i < k && i < |lo| ==> lo[i] == hi[i] && masked[i] == b[i]
    requires k < |lo| ==> (masked[k] == lo[k] <==> lo[k] <= b[k] && b[k] <= hi[k])
    requires forall i :: k < i < |lo| ==> lo[i] == 0 && masked[i] == 0 && hi[i] == 255
    ensures masked == lo <==> LexLe(lo, b) && LexLe(b, hi)
  {
    if lo != [] {
      hide LexLe;
      if k == 0 {
        IntervalOfFirstByte(lo, hi, b, masked);
      } else {
        IntervalOfBytes(lo[1..], hi[1..], b[1..], masked[1..], k - 1);
        IntervalAfterFirstByte(lo, hi, b, masked);
      }
    }
  }

  /** A prefix mask keeps the bytes before byte ones / 8. */
  lemma KeptByte(a: IP, b: IP, ones: nat, i: nat)
    requires |a| == |b| && i < |a| && i < ones / 8
    ensures var m := PrefixMask(ones, |a|);
            And(a, m)[i] == OrNot(And(a, m), m)[i] && And(b, m)[i] == b[i]
  {
    assert PrefixMask(ones, |a|)[i] == 255;
    ByteFull(a[i]);
    ByteFull(b[i]);
  }

  lemma MaskAt(ones: nat, n: nat, i: nat)
    requires i < n
    ensures IsPrefixByte(PrefixMask(ones, n)[i])
  {
  }

  lemma BytesAt(a: IP, b: IP, m: IP, i: nat)
    requires |a| == |b| == |m| && i < |a|
    ensures And(a, m)[i] == a[i] & m[i] && OrNot(b, m)[i] == b[i] | !m[i]
  {
  }

  lemma SplitByteOf(a: IP, b: IP, m: IP, i: nat, lo: IP, hi: IP, masked: IP)
    requires |a| == |b| == |m| == |lo| == |hi| == |masked| && i < |a| && IsPrefixByte(m[i])
    requires lo[i] == a[i] & m[i] && hi[i] == lo[i] | !m[i] && masked[i] == b[i] & m[i]
    ensures masked[i] == lo[i] <==> lo[i] <= b[i] && b[i] <= hi[i]
  {
  }

  /** It splits the values of that byte into intervals. */
  lemma SplitByte(a: IP, b: IP, ones: nat, i: nat)
    requires |a| == |b| && i < |a|
    ensures var m := PrefixMask(ones, |a|);
            And(b, m)[i] == And(a, m)[i] <==> And(a, m)[i] <= b[i] && b[i] <= OrNot(And(a, m), m)[i]
  {
    var m := PrefixMask(ones, |a|);
    MaskAt(ones, |a|, i);
    BytesAt(a, And(a, m), m, i);
    BytesAt(b, a, m, i);
    SplitByteOf(a, b, m, i, And(a, m), OrNot(And(a, m), m), And(b, m));
  }

  /** And it clears the bytes after it. */
  lemma ClearedByte(a: IP, b: IP, ones: nat, i: nat)
    requires |a| == |b| && i < |a| && i > ones / 8
    ensures var m := PrefixMask(ones, |a|);
            And(a, m)[i] == 0 && And(b, m)[i] == 0 && OrNot(And(a, m), m)[i] == 255
  {
    assert PrefixMask(ones, |a|)[i] == 0;
    ByteZero(a[i]);
    ByteZero(b[i]);
    ByteZero(0);
  }

  /** An address shares the prefix of a block exactly when it lies between the network address
      and the network address with all host bits set. */
  lemma BlockIsInterval(a: IP, b: IP, ones: nat)
    requires |a| == |b|
    ensures var m := PrefixMask(ones, |a|);
            And(b, m) == And(a, m) <==> LexLe(And(a, m), b) && LexLe(b, OrNot(And(a, m), m))
  {
    var m := PrefixMask(ones, |a|);
    var lo, hi, masked := And(a, m), OrNot(And(a, m), m), And(b, m);
    forall i | 0 <= i < ones / 8 && i < |a|
      ensures lo[i] == hi[i] && masked[i] == b[i]
    {
      KeptByte(a, b, ones, i);
    }
    if ones / 8 < |a| {
      SplitByte(a, b, ones, ones / 8);
    }
    forall i | ones / 8 < i < |a|
      ensures lo[i] == 0 && masked[i] == 0 && hi[i] == 255
    {
      ClearedByte(a, b, ones, i);
    }
    IntervalOfBytes(lo, hi, b, masked, ones / 8);
  }
}
