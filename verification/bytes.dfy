/** Byte strings, their lexicographic order, and the prefix scans an ordered key-value store offers. */
module ByteStrings {

  type byte = x: int | 0 <= x < 256
  type Bytes = seq<byte>

  /** A text of ASCII characters, as bytes. */
  function Spell(s: string): (r: Bytes)
    ensures |r| == |s|
  {
    seq(|s|, i requires 0 <= i < |s| => s[i] as int % 256)
  }

  // ---- Lexicographic order ----

  /** `a` sorts strictly before `b`, bytewise. A proper prefix sorts first. */
  predicate Less(a: Bytes, b: Bytes) {
    b != [] && (a == [] || a[0] < b[0] || (a[0] == b[0] && Less(a[1..], b[1..])))
  }

  /** The half-open range a scan walks. */
  predicate InRange(k: Bytes, lo: Bytes, hi: Bytes) {
    !Less(k, lo) && Less(k, hi)
  }

  lemma {:induction false} LessTrichotomy(a: Bytes, b: Bytes)
    ensures Less(a, b) || a == b || Less(b, a)
    ensures !(Less(a, b) && Less(b, a))
    ensures a == b ==> !Less(a, b)
  {
    if a != [] && b != [] {
      LessTrichotomy(a[1..], b[1..]);
      assert a[0] == b[0] && a[1..] == b[1..] ==> a == [a[0]] + a[1..] == b;
    }
  }

  lemma {:induction false} LessTransitive(a: Bytes, b: Bytes, c: Bytes)
    requires Less(a, b) && Less(b, c)
    ensures Less(a, c)
  {
    if a != [] && a[0] == b[0] == c[0] {
      LessTransitive(a[1..], b[1..], c[1..]);
    }
  }

  /** A common prefix does not affect the order. */
  lemma {:induction false} LessCommonPrefix(p: Bytes, a: Bytes, b: Bytes)
    ensures Less(p + a, p + b) == Less(a, b)
  {
    if p == [] {
      assert p + a == a && p + b == b;
    } else {
      LessCommonPrefix(p[1..], a, b);
      assert (p + a)[1..] == p[1..] + a && (p + b)[1..] == p[1..] + b;
    }
  }

  /** `a + [0]` is the immediate successor of `a`: the scan start that skips `a` and nothing else. */
  lemma {:induction false} SuccessorIsNext(a: Bytes, k: Bytes)
    ensures !Less(k, a + [0]) <==> Less(a, k)
  {
    if a == [] {
      if k != [] && k[0] == 0 {
        assert (a + [0])[1..] == [];
      }
    } else if k != [] && k[0] == a[0] {
      SuccessorIsNext(a[1..], k[1..]);
      assert (a + [0])[1..] == a[1..] + [0];
    }
  }

  lemma {:induction false} LeastOf(ids: set<Bytes>) returns (least: Bytes)
    requires ids != {}
    ensures least in ids && forall x | x in ids && x != least :: Less(least, x)
  {
    var x :| x in ids;
    if ids - {x} == {} {
      assert ids == {x};
      least := x;
    } else {
      var m := LeastOf(ids - {x});
      LessTrichotomy(m, x);
      if Less(m, x) {
        least := m;
      } else {
        least := x;
        forall y | y in ids && y != x ensures Less(x, y) {
          if y != m { LessTransitive(x, m, y); }
        }
      }
    }
  }

  // ---- Separators ----

  predicate Free(a: Bytes, sep: byte) {
    forall i | 0 <= i < |a| :: a[i] != sep
  }

  /** Two separator-free heads followed by the separator: one string is a prefix of the other exactly
      when the heads are equal and the rests are in the prefix relation. */
  lemma {:induction false} SplitPrefix(a: Bytes, b: Bytes, r: Bytes, s: Bytes, sep: byte)
    requires Free(a, sep) && Free(b, sep)
    ensures a + [sep] + r <= b + [sep] + s <==> a == b && r <= s
  {
    var x, y := a + [sep] + r, b + [sep] + s;
    if a == [] || b == [] {
      if a == b {
        assert x[1..] == r && y[1..] == s;
        assert x == [sep] + r && y == [sep] + s;
      } else {
        assert x[0] != y[0];
      }
    } else {
      SplitPrefix(a[1..], b[1..], r, s, sep);
      assert x == [a[0]] + (a[1..] + [sep] + r) && y == [b[0]] + (b[1..] + [sep] + s);
      ConsPrefix(a[0], a[1..] + [sep] + r, b[0], b[1..] + [sep] + s);
      assert a == [a[0]] + a[1..] && b == [b[0]] + b[1..];
    }
  }

  lemma ConsPrefix(x: byte, a: Bytes, y: byte, b: Bytes)
    ensures [x] + a <= [y] + b <==> x == y && a <= b
  {
    var l, r := [x] + a, [y] + b;
    if l <= r {
      assert l[0] == r[0];
      assert forall i | 0 <= i < |a| :: a[i] == l[i + 1] == r[i + 1] == b[i];
    }
  }

  lemma SplitEqual(a: Bytes, b: Bytes, r: Bytes, s: Bytes, sep: byte)
    requires Free(a, sep) && Free(b, sep)
    ensures a + [sep] + r == b + [sep] + s <==> a == b && r == s
  {
    SplitPrefix(a, b, r, s, sep);
    SplitPrefix(b, a, s, r, sep);
  }

  // ---- Prefix scans ----

  predicate AllMax(p: Bytes) {
    forall i | 0 <= i < |p| :: p[i] == 255
  }

  /** Exclusive upper bound of a prefix: drop trailing 0xFF bytes, then increment the last one. */
  function PrefixEnd(p: Bytes): Bytes {
    if p == [] then []
    else if p[|p| - 1] == 255 then PrefixEnd(p[..|p| - 1])
    else p[..|p| - 1] + [p[|p| - 1] + 1]
  }

  method ComputePrefixEnd(prefix: Bytes) returns (end: Bytes)
    ensures end == PrefixEnd(prefix)
  {
    end := prefix;
    while end != []
      invariant PrefixEnd(end) == PrefixEnd(prefix)
      decreases |end|
    {
      var last := end[|end| - 1];
      if last == 255 {
        end := end[..|end| - 1];
      } else {
        return end[..|end| - 1] + [last + 1];
      }
    }
  }

  /** The range up to `q + [b + 1]` holds the keys below `q + [b]` and those that start with it. */
  lemma {:induction false} IncrementedBound(q: Bytes, b: byte, k: Bytes)
    requires b < 255
    ensures Less(k, q + [b + 1]) <==> Less(k, q + [b]) || q + [b] <= k
  {
    if q == [] {
      assert (q + [b])[1..] == [] && (q + [b + 1])[1..] == [];
      if k != [] && k[0] == b {
        assert q + [b] <= k;
      }
    } else if k != [] {
      assert k == [k[0]] + k[1..] && q + [b] == [q[0]] + (q[1..] + [b]);
      ConsPrefix(q[0], q[1..] + [b], k[0], k[1..]);
      IncrementedBound(q[1..], b, k[1..]);
      assert (q + [b])[1..] == q[1..] + [b] && (q + [b + 1])[1..] == q[1..] + [b + 1];
    }
  }

  lemma {:induction false} PrefixNotLess(p: Bytes, k: Bytes)
    requires p <= k
    ensures !Less(k, p)
  {
    if p != [] {
      assert p[1..] <= k[1..];
      PrefixNotLess(p[1..], k[1..]);
    }
  }

  /** Below the end of a prefix that carries are exactly the keys below it or under it. */
  lemma {:induction false} BelowPrefixEnd(p: Bytes, k: Bytes)
    requires !AllMax(p)
    ensures Less(k, PrefixEnd(p)) <==> Less(k, p) || p <= k
  {
    var q, b := p[..|p| - 1], p[|p| - 1];
    assert p == q + [b];
    if b < 255 {
      IncrementedBound(q, b, k);
    } else {
      BelowPrefixEnd(q, k);
      PrefixOfMax(q, k);
    }
  }

  /** Below or under `q` is the same as below or under `q + [255]`. */
  lemma {:induction false} PrefixOfMax(q: Bytes, k: Bytes)
    ensures Less(k, q) || q <= k <==> Less(k, q + [255]) || q + [255] <= k
  {
    if q <= k {
      var r := k[|q|..];
      assert k == q + r;
      LessCommonPrefix(q, r, [255]);
      if r != [] && r[0] == 255 {
        assert q + [255] <= k;
      }
    } else if Less(k, q) {
      LessExtends(k, q, [255]);
    } else {
      assert q <= q + [255];
      NotBelowExtension(k, q, [255]);
    }
  }

  lemma {:induction false} LessExtends(k: Bytes, q: Bytes, r: Bytes)
    requires Less(k, q)
    ensures Less(k, q + r)
  {
    if k != [] && k[0] == q[0] {
      LessExtends(k[1..], q[1..], r);
      assert (q + r)[1..] == q[1..] + r;
    }
  }

  lemma {:induction false} NotBelowExtension(k: Bytes, q: Bytes, r: Bytes)
    requires !Less(k, q) && !(q <= k)
    ensures !Less(k, q + r)
  {
    if k != [] && k[0] == q[0] {
      assert k == [k[0]] + k[1..] && q == [q[0]] + q[1..];
      ConsPrefix(q[0], q[1..], k[0], k[1..]);
      NotBelowExtension(k[1..], q[1..], r);
      assert (q + r)[1..] == q[1..] + r;
    }
  }

  lemma {:induction false} AllMaxHasNoEnd(p: Bytes)
    ensures PrefixEnd(p) == [] <==> AllMax(p)
  {
    if p != [] {
      AllMaxHasNoEnd(p[..|p| - 1]);
      assert p == p[..|p| - 1] + [p[|p| - 1]];
    }
  }

  /** A scan of [p, PrefixEnd(p)) sees exactly the keys that start with `p`, and this is so exactly when
      `p` holds a byte that can be incremented; otherwise the range is empty and misses `p` itself. */
  lemma PrefixScanExact(p: Bytes)
    ensures (forall k: Bytes :: InRange(k, p, PrefixEnd(p)) <==> p <= k) <==> !AllMax(p)
  {
    if AllMax(p) {
      AllMaxHasNoEnd(p);
      assert !InRange(p, p, PrefixEnd(p));
      assert p <= p;
    } else {
      forall k: Bytes ensures InRange(k, p, PrefixEnd(p)) <==> p <= k {
        PrefixScan(p, k);
      }
    }
  }

  lemma PrefixScan(p: Bytes, k: Bytes)
    requires !AllMax(p)
    ensures InRange(k, p, PrefixEnd(p)) <==> p <= k
  {
    BelowPrefixEnd(p, k);
    if p <= k { PrefixNotLess(p, k); }
  }
}
