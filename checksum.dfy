/** The modulo-103 weighted checksum of Code 128, shared by the generic
    `Format::checksum` (src/internals/code128/mod.rs) and the legacy
    `calc_checksum` (src/code128.rs): the start value plus each data value
    times its 1-based position, modulo 103. Sums are unbounded; the source's
    `u64` accumulator is not modelled. */
module Mod103 {
  import opened Encodings

  /** The numeric values of a slice of symbols (`as_u8() as u64`). */
  function Values(s: seq<Byte>): (r: seq<nat>)
    ensures |r| == |s|
    ensures forall i :: 0 <= i < |s| ==> r[i] == s[i] as nat
    decreases |s|
  {
    if s == [] then [] else [s[0] as nat] + Values(s[1..])
  }

  /** The sum of (k+i) * s[i]: the values weighted by their position,
      counting from k. */
  function WeightedFrom(s: seq<nat>, k: nat): nat
    decreases |s|
  {
    if s == [] then 0 else k * s[0] + WeightedFrom(s[1..], k + 1)
  }

  /** The sum of (i+1) * s[i] over the data values s. */
  function WeightedSum(s: seq<nat>): nat {
    WeightedFrom(s, 1)
  }

  /** The check value for a start value and the data values. */
  function CheckValue(start: nat, s: seq<nat>): (r: nat)
    ensures r < 103
  {
    (start + WeightedSum(s)) % 103
  }

  /** Appending a value adds it with the next position's weight: the step
      of a fold with a running position counter. */
  lemma {:induction false} WeightedFromSnoc(s: seq<nat>, x: nat, k: nat)
    ensures WeightedFrom(s + [x], k) == WeightedFrom(s, k) + (k + |s|) * x
    decreases |s|
  {
    if s == [] {
      assert [] + [x] == [x];
      assert [x][1..] == [];
    } else {
      assert (s + [x])[1..] == s[1..] + [x];
      WeightedFromSnoc(s[1..], x, k + 1);
    }
  }

  /** The running sum of a left-to-right fold: adding the next value times
      its 1-based position extends the sum to one more prefix. */
  lemma WeightedSumPrefixStep(s: seq<nat>, pos: nat, sum: nat)
    requires pos < |s| && sum == WeightedSum(s[..pos])
    ensures sum + s[pos] * (pos + 1) == WeightedSum(s[..pos + 1])
  {
    assert s[..pos + 1] == s[..pos] + [s[pos]];
    WeightedFromSnoc(s[..pos], s[pos], 1);
  }

  /** Replacing the value at position i by y changes the weighted sum by
      (k+i) * (y - s[i]). */
  lemma {:induction false} WeightedFromUpdate(s: seq<nat>, i: nat, y: nat, k: nat)
    requires i < |s|
    ensures WeightedFrom(s[i := y], k) + (k + i) * s[i] == WeightedFrom(s, k) + (k + i) * y
    decreases |s|
  {
    if i > 0 {
      assert s[i := y][1..] == s[1..][i - 1 := y];
      WeightedFromUpdate(s[1..], i - 1, y, k + 1);
    } else {
      assert s[i := y][1..] == s[1..];
    }
  }

  /** A single substitution leaves the check value unchanged exactly when
      (i+1) * (y - s[i]) is a multiple of 103. */
  lemma SubstitutionUndetectedIff(start: nat, s: seq<nat>, i: nat, y: nat)
    requires i < |s|
    ensures CheckValue(start, s[i := y]) == CheckValue(start, s) <==> ((i + 1) * (y - s[i])) % 103 == 0
  {
    WeightedFromUpdate(s, i, y, 1);
    var d := (i + 1) * (y - s[i]);
    var before := start + WeightedSum(s);
    assert start + WeightedSum(s[i := y]) == before + d;
    ModShift(before, d);
  }

  /** (a + d) mod 103 equals a mod 103 exactly when d is a multiple of 103. */
  lemma ModShift(a: int, d: int)
    ensures (a + d) % 103 == a % 103 <==> d % 103 == 0
  {
    var q, r := a / 103, a % 103;
    var qd, rd := d / 103, d % 103;
    assert a + d == (q + qd) * 103 + (r + rd);
    if r + rd < 103 {
      assert (a + d) % 103 == r + rd;
    } else {
      assert a + d == (q + qd + 1) * 103 + (r + rd - 103);
      assert (a + d) % 103 == r + rd - 103;
    }
  }

  /** 103 is prime: no value from 2 to 102 divides it. */
  lemma NoDivisor(k: int)
    requires 2 <= k <= 102
    ensures 103 % k != 0
  {
    assert 103 == (103 / k) * k + 103 % k;
  }

  /** Adding a multiple of 103 leaves the remainder unchanged. */
  lemma MultipleDropped(t: int, u: int)
    ensures (103 * t + u) % 103 == u % 103
  {
  }

  /** The algebra behind one step of Euclid's argument: from
      103 == q*b + r and a*b == 103*m + rem it follows that a*r is
      -q*rem plus a multiple of 103. */
  lemma EuclidStep(a: int, b: int, q: int, r: int, m: int, rem: int)
    requires 103 == q * b + r && a * b == 103 * m + rem
    ensures a * r == 103 * (a - q * m) + (- q * rem)
  {
    calc {
      a * r;
      a * (103 - q * b);
      103 * a - q * (a * b);
      103 * a - q * (103 * m + rem);
      103 * (a - q * m) + (- q * rem);
    }
  }

  /** The integers modulo 103 have no zero divisors: a product of two
      values from 1 to 102 is never a multiple of 103. By induction on b:
      if a*b were a multiple, so would be a*(103 mod b), with a smaller
      nonzero second factor. */
  lemma {:induction false} NoZeroDivisor(a: int, b: int)
    requires 0 < a < 103 && 0 < b < 103
    ensures (a * b) % 103 != 0
    decreases b
  {
    if b > 1 {
      NoDivisor(b);
      var q, r := 103 / b, 103 % b;
      NoZeroDivisor(a, r);
      var m, rem := (a * b) / 103, (a * b) % 103;
      EuclidStep(a, b, q, r, m, rem);
      MultipleDropped(a - q * m, - q * rem);
    }
  }

  /** Negation keeps a value off the multiples of 103. */
  lemma NegatedNotMultiple(p: int)
    requires p % 103 != 0
    ensures (-p) % 103 != 0
  {
    var q, r := p / 103, p % 103;
    assert -p == 103 * (-q - 1) + (103 - r);
    MultipleDropped(-q - 1, 103 - r);
  }

  /** A value that is not a multiple of 103, times a nonzero difference of
      two values below 103, is not a multiple of 103. */
  lemma ProductNotMultiple(x: int, d: int)
    requires x % 103 != 0 && d != 0 && -103 < d < 103
    ensures (x * d) % 103 != 0
  {
    var a, k := x % 103, x / 103;
    var b := if d > 0 then d else -d;
    NoZeroDivisor(a, b);
    var p := a * b;
    assert x * d == 103 * (k * d) + a * d by {
      assert x == 103 * k + a;
    }
    MultipleDropped(k * d, a * d);
    if d < 0 {
      assert a * d == -p;
      NegatedNotMultiple(p);
    } else {
      assert a * d == p;
    }
  }

  /** Changing any one data value to another value below 103 changes the
      check value, unless the position's weight i+1 is a multiple of 103. */
  lemma SubstitutionDetected(start: nat, s: seq<nat>, i: nat, y: nat)
    requires i < |s| && (i + 1) % 103 != 0
    requires s[i] < 103 && y < 103 && y != s[i]
    ensures CheckValue(start, s[i := y]) != CheckValue(start, s)
  {
    SubstitutionUndetectedIff(start, s, i, y);
    ProductNotMultiple(i + 1, y - s[i]);
  }

  /** A substitution at a position whose weight is a multiple of 103 is
      never detected. */
  lemma SubstitutionAtWeight103Undetected(start: nat, s: seq<nat>, i: nat, y: nat)
    requires i < |s| && (i + 1) % 103 == 0
    ensures CheckValue(start, s[i := y]) == CheckValue(start, s)
  {
    SubstitutionUndetectedIff(start, s, i, y);
    var k := (i + 1) / 103;
    assert (i + 1) * (y - s[i]) == 103 * (k * (y - s[i])) + 0;
    MultipleDropped(k * (y - s[i]), 0);
  }
}
