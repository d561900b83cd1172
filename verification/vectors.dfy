/** Vector search: stored vectors, similarity and bounded-heap top-k (server/src/vector.rs). */
module Vectors {
  import opened ByteStrings
  import opened Values
  import Fts

  // ---- The vector a document contributes ----

  function Components(e: Env, items: seq<Value>): Option<seq<bits32>> {
    if items == [] then Some([])
    else if !items[0].Number? then None
    else match e.narrow(items[0].bits)
      case None => None
      case Some(v) =>
        match Components(e, items[1..])
        case None => None
        case Some(rest) => Some([v] + rest)
  }

  /** `None` unless the field holds exactly `dims` numbers that stay finite in 32 bits. */
  function DocVector(e: Env, data: Data, field: Bytes, dims: nat): Option<seq<bits32>> {
    match Get(data, field)
    case Some(Array(items)) => if |items| == dims then Components(e, items) else None
    case _ => None
  }

  lemma {:induction false} ComponentsSnoc(e: Env, items: seq<Value>, item: Value)
    ensures Components(e, items + [item]) ==
            if Components(e, items).None? || !item.Number? || e.narrow(item.bits).None? then None
            else Some(Components(e, items).value + [e.narrow(item.bits).value])
  {
    if items == [] {
      var one := items + [item];
      assert one[0] == item && one[1..] == [];
      var none: seq<bits32> := [];
      assert Components(e, items) == Some(none);
      if item.Number? && e.narrow(item.bits).Some? {
        var v := e.narrow(item.bits).value;
        assert Components(e, one) == Some([v] + none);
        assert [v] + none == none + [v];
      }
    } else {
      ComponentsSnoc(e, items[1..], item);
      var longer := items + [item];
      assert longer[0] == items[0] && longer[1..] == items[1..] + [item];
      var r, s := Components(e, items[1..]), Components(e, longer[1..]);
      if r.Some? && s.Some? && items[0].Number? && e.narrow(items[0].bits).Some? {
        var v := e.narrow(items[0].bits).value;
        assert [v] + (r.value + [e.narrow(item.bits).value]) == [v] + r.value + [e.narrow(item.bits).value];
      }
    }
  }

  lemma {:induction false} ComponentsPrefix(e: Env, items: seq<Value>, n: nat)
    requires n <= |items| && Components(e, items[..n]).None?
    ensures Components(e, items).None?
  {
    if n > 0 && items[0].Number? && e.narrow(items[0].bits).Some? {
      assert items[..n][1..] == items[1..][..n - 1];
      ComponentsPrefix(e, items[1..], n - 1);
    }
  }

  lemma {:induction false} ComponentsMean(e: Env, items: seq<Value>, v: seq<bits32>)
    ensures Components(e, items) == Some(v) <==>
              && |v| == |items|
              && forall i | 0 <= i < |items| :: items[i].Number? && e.narrow(items[i].bits) == Some(v[i])
  {
    if items != [] {
      if v != [] {
        ComponentsMean(e, items[1..], v[1..]);
        assert items == [items[0]] + items[1..] && v == [v[0]] + v[1..];
      }
    }
  }

  /** A document has a vector under an index exactly when its field is an array of the declared width whose items are
      all numbers that stay finite in 32 bits, and then it is those, in order. */
  lemma DocVectorMeans(e: Env, data: Data, field: Bytes, dims: nat, v: seq<bits32>)
    ensures DocVector(e, data, field, dims) == Some(v) <==>
              && field in data && data[field].Array? && |data[field].items| == dims == |v|
              && forall i | 0 <= i < dims ::
                   data[field].items[i].Number? && e.narrow(data[field].items[i].bits) == Some(v[i])
  {
    if field in data && data[field].Array? { ComponentsMean(e, data[field].items, v); }
  }

  method ComputeDocVector(e: Env, data: Data, field: Bytes, dims: nat) returns (v: Option<seq<bits32>>)
    ensures v == DocVector(e, data, field, dims)
  {
    if field !in data || !data[field].Array? || |data[field].items| != dims {
      return None;
    }
    var items := data[field].items;
    var out: seq<bits32> := [];
    for i := 0 to |items|
      invariant Components(e, items[..i]) == Some(out)
    {
      ComponentsSnoc(e, items[..i], items[i]);
      assert items[..i + 1] == items[..i] + [items[i]];
      if !items[i].Number? || e.narrow(items[i].bits).None? {
        ComponentsPrefix(e, items, i + 1);
        return None;
      }
      out := out + [e.narrow(items[i].bits).value];
    }
    assert items[..|items|] == items;
    return Some(out);
  }

  // ---- Codec ----

  function Encode(v: seq<bits32>): Bytes {
    if v == [] then [] else Fts.LittleEndian(v[0]) + Encode(v[1..])
  }

  function Decode(bytes: Bytes): Option<seq<bits32>> {
    if bytes == [] then Some([])
    else if |bytes| < 4 then None
    else match Decode(bytes[4..])
      case None => None
      case Some(rest) => Some([Fts.FromLittleEndian(bytes[..4])] + rest)
  }

  /** Stored vectors survive the round trip, and exactly the strings of a multiple of four bytes decode. */
  lemma {:induction false} CodecRoundTrip(v: seq<bits32>)
    ensures Decode(Encode(v)) == Some(v)
  {
    if v != [] {
      CodecRoundTrip(v[1..]);
      Fts.LittleEndianRoundTrip(v[0]);
      assert Encode(v)[..4] == Fts.LittleEndian(v[0]);
      assert Encode(v)[4..] == Encode(v[1..]);
      assert v == [v[0]] + v[1..];
    }
  }

  lemma {:induction false} DecodeExact(bytes: Bytes)
    ensures Decode(bytes).Some? <==> |bytes| % 4 == 0
    ensures Decode(bytes).Some? ==> Encode(Decode(bytes).value) == bytes
  {
    if |bytes| >= 4 {
      DecodeExact(bytes[4..]);
      DecodeStep(bytes);
      assert |bytes[4..]| % 4 == |bytes| % 4;
    }
  }

  lemma DecodeStep(bytes: Bytes)
    requires |bytes| >= 4 && (Decode(bytes[4..]).Some? ==> Encode(Decode(bytes[4..]).value) == bytes[4..])
    ensures Decode(bytes).Some? <==> Decode(bytes[4..]).Some?
    ensures Decode(bytes).Some? ==> Encode(Decode(bytes).value) == bytes
  {
    hide Fts.LittleEndian, Fts.FromLittleEndian, Encode;
    if Decode(bytes[4..]).Some? {
      var head, rest := bytes[..4], Decode(bytes[4..]).value;
      assert Decode(bytes) == Some([Fts.FromLittleEndian(head)] + rest);
      Fts.FromLittleEndianInverse(head);
      EncodeCons(Fts.FromLittleEndian(head), rest);
      assert bytes == head + bytes[4..];
    }
  }

  lemma EncodeCons(n: bits32, rest: seq<bits32>)
    ensures Encode([n] + rest) == Fts.LittleEndian(n) + Encode(rest)
  {
    hide Fts.LittleEndian;
    assert ([n] + rest)[1..] == rest;
  }

  // ---- Similarity over the reals ----

  function Times(x: real, y: real): real { x * y }

  function SumProducts(a: seq<real>, b: seq<real>): real {
    if a == [] || b == [] then 0.0 else Times(a[0], b[0]) + SumProducts(a[1..], b[1..])
  }

  function Truncate(a: seq<real>, n: nat): seq<real> {
    if n <= |a| then a[..n] else a
  }

  /** The accumulators of `cosine`: the product and both squared norms, over the common length. */
  method CosineTerms(a: seq<real>, b: seq<real>) returns (prod: real, normA: real, normB: real)
    ensures prod == SumProducts(a, b)
    ensures normA == SumProducts(Truncate(a, |b|), Truncate(a, |b|))
    ensures normB == SumProducts(Truncate(b, |a|), Truncate(b, |a|))
    ensures prod * prod <= normA * normB
  {
    prod, normA, normB := Accumulate(a, b);
    CosineBound(a, b);
  }

  method Accumulate(a: seq<real>, b: seq<real>) returns (prod: real, normA: real, normB: real)
    ensures prod == SumProducts(a, b)
    ensures normA == SumProducts(Truncate(a, |b|), Truncate(a, |b|))
    ensures normB == SumProducts(Truncate(b, |a|), Truncate(b, |a|))
  {
    hide Times;
    prod, normA, normB := 0.0, 0.0, 0.0;
    var n := if |a| < |b| then |a| else |b|;
    for i := 0 to n
      invariant prod == SumProducts(a[..i], b[..i])
      invariant normA == SumProducts(a[..i], a[..i]) && normB == SumProducts(b[..i], b[..i])
    {
      SumSnoc(a[..i], b[..i], a[i], b[i]);
      SumSnoc(a[..i], a[..i], a[i], a[i]);
      SumSnoc(b[..i], b[..i], b[i], b[i]);
      assert a[..i + 1] == a[..i] + [a[i]] && b[..i + 1] == b[..i] + [b[i]];
      prod := prod + Times(a[i], b[i]);
      normA := normA + Times(a[i], a[i]);
      normB := normB + Times(b[i], b[i]);
    }
    SumCommonLength(a, b, n);
    assert Truncate(a, |b|) == a[..n] && Truncate(b, |a|) == b[..n];
  }

  /** Cauchy-Schwarz over the common length: a cosine never leaves [-1, 1]. */
  lemma CosineBound(a: seq<real>, b: seq<real>)
    ensures Times(SumProducts(a, b), SumProducts(a, b))
         <= Times(SumProducts(Truncate(a, |b|), Truncate(a, |b|)), SumProducts(Truncate(b, |a|), Truncate(b, |a|)))
  {
    hide SumProducts, Times;
    var n := if |a| < |b| then |a| else |b|;
    SumCommonLength(a, b, n);
    assert Truncate(a, |b|) == a[..n] && Truncate(b, |a|) == b[..n];
    CauchySchwarz(a[..n], b[..n]);
  }

  lemma {:induction false} SumSnoc(a: seq<real>, b: seq<real>, x: real, y: real)
    requires |a| == |b|
    ensures SumProducts(a + [x], b + [y]) == SumProducts(a, b) + Times(x, y)
  {
    hide Times;
    if a == [] {
      assert (a + [x])[1..] == [] && (b + [y])[1..] == [];
    } else {
      SumSnoc(a[1..], b[1..], x, y);
      assert (a + [x])[1..] == a[1..] + [x] && (b + [y])[1..] == b[1..] + [y];
    }
  }

  /** The sum of products, one component at a time from the end; what one vector has beyond the other does not count. */
  lemma SumProductsIs(a: seq<real>, b: seq<real>)
    ensures |a| == |b| > 0 ==>
              SumProducts(a, b) == SumProducts(a[..|a| - 1], b[..|b| - 1]) + a[|a| - 1] * b[|b| - 1]
    ensures |a| > |b| ==> SumProducts(a, b) == SumProducts(a[..|b|], b)
    ensures |a| < |b| ==> SumProducts(a, b) == SumProducts(a, b[..|a|])
    ensures SumProducts(a, []) == SumProducts([], b) == 0.0
  {
    NoProducts(a, b);
    hide SumProducts;
    if |a| == |b| > 0 {
      SumOneMore(a, b, |a| - 1);
    } else {
      SumCommonLength(a, b, if |a| < |b| then |a| else |b|);
      assert a[..|a|] == a && b[..|b|] == b;
    }
  }

  lemma NoProducts(a: seq<real>, b: seq<real>)
    ensures SumProducts(a, []) == SumProducts([], b) == 0.0
  {}

  lemma SumOneMore(a: seq<real>, b: seq<real>, n: nat)
    requires |a| == |b| == n + 1
    ensures SumProducts(a, b) == SumProducts(a[..n], b[..n]) + a[n] * b[n]
  {
    hide SumProducts;
    SumSnoc(a[..n], b[..n], a[n], b[n]);
    assert a == a[..n] + [a[n]] && b == b[..n] + [b[n]];
  }

  lemma {:induction false} SumCommonLength(a: seq<real>, b: seq<real>, n: nat)
    requires n == if |a| < |b| then |a| else |b|
    ensures SumProducts(a, b) == SumProducts(a[..n], b[..n])
  {
    hide Times;
    if n > 0 {
      SumCommonLength(a[1..], b[1..], n - 1);
      assert a[..n][1..] == a[1..][..n - 1] && b[..n][1..] == b[1..][..n - 1];
    }
  }

  lemma {:induction false} NormNonNegative(a: seq<real>)
    ensures SumProducts(a, a) >= 0.0
  {
    if a != [] { NormNonNegative(a[1..]); }
  }

  lemma {:induction false} CauchySchwarz(a: seq<real>, b: seq<real>)
    requires |a| == |b|
    ensures Times(SumProducts(a, b), SumProducts(a, b)) <= Times(SumProducts(a, a), SumProducts(b, b))
  {
    if a != [] {
      hide Times;
      CauchySchwarz(a[1..], b[1..]);
      NormNonNegative(a[1..]);
      NormNonNegative(b[1..]);
      CauchyStep(a[0], b[0], SumProducts(a[1..], b[1..]), SumProducts(a[1..], a[1..]), SumProducts(b[1..], b[1..]));
    }
  }

  lemma CauchyStep(x: real, y: real, p: real, n: real, m: real)
    requires n >= 0.0 && m >= 0.0 && Times(p, p) <= Times(n, m)
    ensures Times(Times(x, y) + p, Times(x, y) + p) <= Times(Times(x, x) + n, Times(y, y) + m)
  {
    CauchyInequality(x, y, p, n, m);
  }

  lemma CauchyInequality(x: real, y: real, p: real, n: real, m: real)
    requires n >= 0.0 && m >= 0.0 && p * p <= n * m
    ensures (x * y + p) * (x * y + p) <= (x * x + n) * (y * y + m)
  {
    var xy2 := (x * y) * (x * y);
    var u, t := x * x * m + y * y * n, 2.0 * (x * y * p);
    TwiceBelow(x, y, p, n, m);
    assert (x * y + p) * (x * y + p) == xy2 + t + p * p;
    assert (x * x + n) * (y * y + m) == xy2 + u + n * m;
  }

  /** Both sides squared compare, and the right one is not negative. */
  lemma TwiceBelow(x: real, y: real, p: real, n: real, m: real)
    requires n >= 0.0 && m >= 0.0 && p * p <= n * m
    ensures 2.0 * (x * y * p) <= x * x * m + y * y * n
  {
    var u, t := x * x * m + y * y * n, 2.0 * (x * y * p);
    var xy2 := (x * y) * (x * y);
    assert t * t == 4.0 * xy2 * (p * p);
    MulMono(4.0 * xy2, p * p, n * m);
    var d := x * x * m - y * y * n;
    assert u * u - 4.0 * xy2 * (n * m) == d * d;
    assert d * d >= 0.0;
    assert u >= 0.0;
    SquareMono(t, u);
  }

  lemma MulMono(k: real, a: real, b: real)
    requires k >= 0.0 && a <= b
    ensures k * a <= k * b
  {}

  lemma SquareMono(t: real, u: real)
    requires t * t <= u * u && u >= 0.0
    ensures t <= u
  {
    if t > u { SquareStrict(t, u); }
  }

  lemma SquareStrict(t: real, u: real)
    requires t > u >= 0.0
    ensures t * t > u * u
  {
    assert t * t - t * u == t * (t - u);
    assert t * (t - u) > 0.0;
    assert t * u - u * u == (t - u) * u;
    assert (t - u) * u >= 0.0;
  }

  /** A square root. */
  ghost predicate IsRoot(root: real -> real) {
    forall x: real | x >= 0.0 :: root(x) >= 0.0 && Times(root(x), root(x)) == x
  }

  /** The cosine itself: a zero vector has no direction and scores zero; any other score is the product over both norms
      and never leaves [-1, 1]. */
  method Cosine(a: seq<real>, b: seq<real>, root: real -> real) returns (score: real)
    requires IsRoot(root)
    ensures -1.0 <= score <= 1.0
    ensures var normA, normB := SumProducts(Truncate(a, |b|), Truncate(a, |b|)),
                                SumProducts(Truncate(b, |a|), Truncate(b, |a|));
            if normA == 0.0 || normB == 0.0 then score == 0.0
            else score * (root(normA) * root(normB)) == SumProducts(a, b) && root(normA) * root(normB) > 0.0
  {
    hide SumProducts, IsRoot;
    var prod, normA, normB := CosineTerms(a, b);
    NormNonNegative(Truncate(a, |b|));
    NormNonNegative(Truncate(b, |a|));
    if normA == 0.0 || normB == 0.0 { return 0.0; }
    RootPositive(root, normA);
    RootPositive(root, normB);
    score := prod / (root(normA) * root(normB));
    Normalised(prod, root(normA), root(normB), normA, normB);
  }

  lemma RootPositive(root: real -> real, x: real)
    requires IsRoot(root) && x > 0.0
    ensures root(x) > 0.0 && root(x) * root(x) == x
  {}

  lemma Normalised(prod: real, ra: real, rb: real, na: real, nb: real)
    requires ra > 0.0 && rb > 0.0 && ra * ra == na && rb * rb == nb && prod * prod <= na * nb
    ensures ra * rb > 0.0 && -1.0 <= prod / (ra * rb) <= 1.0 && prod / (ra * rb) * (ra * rb) == prod
  {
    var q := ra * rb;
    assert q * q == na * nb by { assert q * q == (ra * ra) * (rb * rb); }
    SquareMono(prod, q);
    SquareMono(-prod, q);
    Ratio(prod, q);
  }

  lemma Ratio(p: real, q: real)
    requires q > 0.0 && -q <= p <= q
    ensures -1.0 <= p / q <= 1.0 && p / q * q == p
  {
    var r := p / q;
    assert r * q == p;
    assert r > 1.0 ==> r * q > q;
    assert r < -1.0 ==> r * q < -q;
  }

  // ---- Top-k ----

  datatype Candidate = Candidate(score: real, position: nat)

  /** Higher score first; equal scores prefer the earlier entry. */
  predicate Better(a: Candidate, b: Candidate) {
    a.score > b.score || (a.score == b.score && a.position < b.position)
  }

  predicate Ranked(s: seq<Candidate>) {
    forall i, j | 0 <= i < j < |s| :: Better(s[i], s[j])
  }

  function InsertRanked(c: Candidate, s: seq<Candidate>): seq<Candidate> {
    if s == [] || Better(c, s[0]) then [c] + s else [s[0]] + InsertRanked(c, s[1..])
  }

  /** Every vector's candidate, best first. */
  function Ranking(scores: seq<real>): seq<Candidate> {
    if scores == [] then []
    else InsertRanked(Candidate(scores[|scores| - 1], |scores| - 1), Ranking(scores[..|scores| - 1]))
  }

  function Take(s: seq<Candidate>, k: nat): seq<Candidate> {
    if k <= |s| then s[..k] else s
  }

  lemma {:induction false} InsertContents(c: Candidate, s: seq<Candidate>)
    ensures |InsertRanked(c, s)| == |s| + 1
    ensures multiset(InsertRanked(c, s)) == multiset(s) + multiset{c}
    ensures forall x :: x in InsertRanked(c, s) <==> x == c || x in s
  {
    if s != [] && !Better(c, s[0]) {
      InsertContents(c, s[1..]);
      assert s == [s[0]] + s[1..];
    }
  }

  lemma {:induction false} InsertKeepsRanked(c: Candidate, s: seq<Candidate>)
    requires Ranked(s) && forall x | x in s :: x.position != c.position
    ensures Ranked(InsertRanked(c, s))
  {
    if s != [] {
      assert s[0] in s;
      if Better(c, s[0]) {
        assert forall i | 0 <= i < |s| :: Better(c, s[i]);
      } else {
        InsertKeepsRanked(c, s[1..]);
        InsertContents(c, s[1..]);
        assert forall x | x in s[1..] :: Better(s[0], x);
        var t := InsertRanked(c, s[1..]);
        assert forall i | 0 <= i < |t| :: t[i] in t;
      }
    }
  }

  lemma {:induction false} InsertLength(c: Candidate, s: seq<Candidate>)
    ensures |InsertRanked(c, s)| == |s| + 1
  {
    if s != [] { InsertLength(c, s[1..]); }
  }

  /** Keeping only the best k before inserting loses nothing among the best k afterwards. */
  lemma {:induction false} InsertThenTake(c: Candidate, s: seq<Candidate>, k: nat)
    ensures Take(InsertRanked(c, s), k) == Take(InsertRanked(c, Take(s, k)), k)
  {
    if s != [] && k > 0 {
      assert Take(s, k)[0] == s[0];
      if Better(c, s[0]) {
        TakeCons(c, s, k);
        TakeCons(c, Take(s, k), k);
        assert Take(Take(s, k), k - 1) == Take(s, k - 1);
      } else {
        InsertThenTake(c, s[1..], k - 1);
        assert s == [s[0]] + s[1..];
        TakeCons(s[0], s[1..], k);
        assert Take(s, k)[1..] == Take(s[1..], k - 1);
        TakeCons(s[0], InsertRanked(c, s[1..]), k);
        TakeCons(s[0], InsertRanked(c, Take(s[1..], k - 1)), k);
      }
    } else if k > 0 {
      assert Take(s, k) == s;
    } else {
      InsertLength(c, s);
    }
  }

  lemma TakeCons(x: Candidate, s: seq<Candidate>, k: nat)
    requires k > 0
    ensures Take([x] + s, k) == [x] + Take(s, k - 1)
  {
  }

  predicate IsCandidate(scores: seq<real>, c: Candidate) { c.position < |scores| && c.score == scores[c.position] }

  /** The ranking holds each vector's candidate once, in strictly descending order. */
  lemma {:induction false} RankingOrdersAll(scores: seq<real>)
    ensures Ranked(Ranking(scores)) && |Ranking(scores)| == |scores|
    ensures forall c :: c in Ranking(scores) <==> IsCandidate(scores, c)
  {
    if scores != [] {
      var n := |scores| - 1;
      var last := Candidate(scores[n], n);
      RankingOrdersAll(scores[..n]);
      InsertContents(last, Ranking(scores[..n]));
      InsertKeepsRanked(last, Ranking(scores[..n]));
      forall c ensures IsCandidate(scores, c) <==> c == last || IsCandidate(scores[..n], c) {}
    }
  }

  function Elements(s: seq<Candidate>): set<Candidate> {
    set x | x in s
  }

  lemma {:induction false} RankedDistinct(s: seq<Candidate>)
    requires Ranked(s)
    ensures |Elements(s)| == |s|
  {
    if s != [] {
      RankedDistinct(s[1..]);
      assert Elements(s) == {s[0]} + Elements(s[1..]);
      assert s[0] !in s[1..];
    }
  }

  /** Bounded min-heap scan: push each candidate, pop the worst when more than k are held, then drain the
      heap best first. The result is the first k of the full ranking. */
  method TopK(scores: seq<real>, k: nat) returns (out: seq<Candidate>)
    ensures out == Take(Ranking(scores), k)
  {
    if k == 0 { return []; }
    var heap: set<Candidate> := {};
    ghost var kept: seq<Candidate> := [];
    for position := 0 to |scores|
      invariant kept == Take(Ranking(scores[..position]), k)
      invariant Holds(heap, kept, k, position)
    {
      var c := Candidate(scores[position], position);
      assert scores[..position + 1][..position] == scores[..position];
      InsertThenTake(c, Ranking(scores[..position]), k);
      heap := PushBounded(heap, kept, k, position, c);
      kept := Take(InsertRanked(c, kept), k);
    }
    assert scores[..|scores|] == scores;
    out := Drain(heap, kept);
  }

  method PushBounded(heap: set<Candidate>, ghost kept: seq<Candidate>, k: nat, position: nat, c: Candidate)
    returns (next: set<Candidate>)
    requires Holds(heap, kept, k, position) && c.position == position && k > 0
    ensures Holds(next, Take(InsertRanked(c, kept), k), k, position + 1)
  {
    PushHolds(heap, kept, k, position, c);
    next := heap + {c};
    if |next| > k {
      var worst := PickWorst(next, InsertRanked(c, kept));
      next := next - {worst};
    }
  }

  method PickWorst(heap: set<Candidate>, ghost kept: seq<Candidate>) returns (worst: Candidate)
    requires Ranked(kept) && heap == Elements(kept) && kept != []
    ensures worst in heap && Ranked(kept[..|kept| - 1]) && heap - {worst} == Elements(kept[..|kept| - 1])
    ensures |heap - {worst}| == |kept| - 1
  {
    WorstExists(heap, kept);
    worst :| worst in heap && IsWorst(heap, worst);
    PopHolds(heap, kept, worst);
  }

  predicate IsWorst(heap: set<Candidate>, w: Candidate) {
    forall x | x in heap :: x == w || Better(x, w)
  }

  predicate IsBest(heap: set<Candidate>, w: Candidate) {
    forall x | x in heap :: x == w || Better(w, x)
  }

  /** The heap holds exactly the kept candidates, all from positions already scanned. */
  ghost predicate Holds(heap: set<Candidate>, kept: seq<Candidate>, k: nat, position: nat) {
    Ranked(kept) && heap == Elements(kept) && |heap| == |kept| <= k && forall c | c in kept :: c.position < position
  }

  lemma PushHolds(heap: set<Candidate>, kept: seq<Candidate>, k: nat, position: nat, c: Candidate)
    requires Holds(heap, kept, k, position) && c.position == position && k > 0
    ensures Holds(heap + {c}, InsertRanked(c, kept), k + 1, position + 1)
    ensures |Take(InsertRanked(c, kept), k)| <= k
  {
    InsertContents(c, kept);
    InsertKeepsRanked(c, kept);
    RankedDistinct(InsertRanked(c, kept));
  }

  lemma WorstExists(heap: set<Candidate>, kept: seq<Candidate>)
    requires Ranked(kept) && heap == Elements(kept) && kept != []
    ensures exists w :: w in heap && IsWorst(heap, w)
  {
    var n := |kept| - 1;
    forall x | x in heap ensures x == kept[n] || Better(x, kept[n]) {
      var i :| 0 <= i < |kept| && kept[i] == x;
    }
    assert kept[n] in heap && IsWorst(heap, kept[n]);
  }

  lemma PopHolds(heap: set<Candidate>, kept: seq<Candidate>, worst: Candidate)
    requires Ranked(kept) && heap == Elements(kept) && kept != []
    requires worst in heap && IsWorst(heap, worst)
    ensures Ranked(kept[..|kept| - 1]) && heap - {worst} == Elements(kept[..|kept| - 1])
    ensures |heap - {worst}| == |kept| - 1
  {
    LastIsWorst(kept, worst);
    RankedDistinct(kept);
  }

  lemma LastIsWorst(s: seq<Candidate>, worst: Candidate)
    requires Ranked(s) && s != []
    requires worst in Elements(s) && IsWorst(Elements(s), worst)
    ensures worst == s[|s| - 1]
    ensures Elements(s[..|s| - 1]) == Elements(s) - {worst}
  {
    var n := |s| - 1;
    var i :| 0 <= i <= n && s[i] == worst;
    assert s[n] in Elements(s);
    assert i == n;
    assert s == s[..n] + [s[n]];
  }

  method Drain(heap: set<Candidate>, ghost kept: seq<Candidate>) returns (out: seq<Candidate>)
    requires Ranked(kept) && heap == Elements(kept)
    ensures out == kept
  {
    out := [];
    var left := heap;
    ghost var rest := kept;
    while left != {}
      invariant kept == out + rest
      invariant Ranked(rest) && left == Elements(rest)
      decreases left
    {
      var best := PickBest(left, rest);
      out := out + [best];
      left := left - {best};
      rest := rest[1..];
    }
    NoElements(rest);
  }

  method PickBest(left: set<Candidate>, ghost rest: seq<Candidate>) returns (best: Candidate)
    requires Ranked(rest) && left == Elements(rest) && left != {}
    ensures rest != [] && best == rest[0] && best in left
    ensures Ranked(rest[1..]) && Elements(rest[1..]) == left - {best}
  {
    FirstIsBest(rest, left);
    best :| best in left && IsBest(left, best);
  }

  lemma NoElements(s: seq<Candidate>)
    ensures Elements(s) == {} <==> s == []
  {
    assert s != [] ==> s[0] in Elements(s);
  }

  lemma FirstIsBest(rest: seq<Candidate>, left: set<Candidate>)
    requires Ranked(rest) && left == Elements(rest) && left != {}
    ensures rest != [] && exists b :: b in left && IsBest(left, b)
    ensures forall b | b in left && IsBest(left, b) :: b == rest[0]
    ensures Ranked(rest[1..]) && Elements(rest[1..]) == left - {rest[0]}
  {
    NoElements(rest);
    forall x | x in left ensures x == rest[0] || Better(rest[0], x) {
      var i :| 0 <= i < |rest| && rest[i] == x;
    }
    assert rest[0] in left && IsBest(left, rest[0]);
    assert rest == [rest[0]] + rest[1..];
    assert rest[0] !in rest[1..];
  }
}
