/** Full-text search: document terms, corpus statistics, posting codec and BM25 (server/src/fts.rs). */
module Fts {
  import opened ByteStrings
  import opened Values

  const MAX32: nat := 0xFFFF_FFFF
  const MAX64: nat := 0xFFFF_FFFF_FFFF_FFFF

  function Min(a: int, b: int): int { if a < b then a else b }

  // ---- Document terms ----

  /** Strings and nested arrays of strings, each followed by a space; nothing else contributes. */
  function CollectText(value: Value): Bytes
    decreases value
  {
    match value
    case Str(s) => s + [32]
    case Array(items) => CollectAll(items)
    case _ => []
  }

  function CollectAll(items: seq<Value>): Bytes
    decreases items
  {
    if items == [] then [] else CollectText(items[0]) + CollectAll(items[1..])
  }

  function DocText(fields: seq<Bytes>, data: Data): Bytes {
    if fields == [] then []
    else (if fields[0] in data then CollectText(data[fields[0]]) else []) + DocText(fields[1..], data)
  }

  datatype DocTerms = DocTerms(tf: map<Bytes, nat>, len: nat)

  /** How often each token occurs, and how many there are (capped at 32 bits). */
  function TermsOf(tokens: seq<Bytes>): DocTerms {
    DocTerms(map t | t in tokens :: multiset(tokens)[t], Min(|tokens|, MAX32))
  }

  function TermsIn(e: Env, index: SearchIndexDef, data: Data): DocTerms {
    TermsOf(e.tokenize(DocText(index.fields, data)))
  }

  method ComputeTerms(e: Env, index: SearchIndexDef, data: Data) returns (terms: DocTerms)
    ensures terms == TermsIn(e, index, data)
  {
    var tokens := e.tokenize(DocText(index.fields, data));
    terms := DocTerms(map[], 0);
    for i := 0 to |tokens|
      invariant terms == TermsOf(tokens[..i])
    {
      var t := tokens[i];
      assert tokens[..i + 1] == tokens[..i] + [t];
      terms := DocTerms(terms.tf[t := (if t in terms.tf then terms.tf[t] else 0) + 1], Min(terms.len + 1, MAX32));
    }
    assert tokens[..|tokens|] == tokens;
  }

  /** A document's frequencies account for every token: each is positive and none exceeds the length. */
  lemma TermFrequencyBounds(tokens: seq<Bytes>, t: Bytes)
    ensures t in TermsOf(tokens).tf <==> t in tokens
    ensures t in tokens ==> 1 <= TermsOf(tokens).tf[t] <= |tokens|
  {
    if t in tokens {
      assert multiset(tokens)[t] >= 1;
      MultiplicityBound(tokens, t);
    }
  }

  lemma {:induction false} MultiplicityBound(tokens: seq<Bytes>, t: Bytes)
    ensures multiset(tokens)[t] <= |tokens|
  {
    if tokens != [] {
      MultiplicityBound(tokens[1..], t);
      assert tokens == [tokens[0]] + tokens[1..];
    }
  }

  // ---- Corpus statistics ----

  datatype Stats = Stats(nDocs: nat, totalLen: nat) {
    function AddDoc(len: nat): Stats {
      Stats(Min(nDocs + 1, MAX64), Min(totalLen + len, MAX64))
    }

    function RemoveDoc(len: nat): Stats {
      Stats(if nDocs >= 1 then nDocs - 1 else 0, if totalLen >= len then totalLen - len else 0)
    }

    function AvgLen(): real {
      if nDocs == 0 || totalLen == 0 then 1.0 else totalLen as real / nDocs as real
    }
  }

  // ---- BM25 ----

  const K1: real := 1.2
  const B: real := 0.75

  lemma AvgLenPositive(stats: Stats)
    ensures stats.AvgLen() > 0.0
  {
    if stats.nDocs > 0 && stats.totalLen > 0 { DivPositive(stats.totalLen as real, stats.nDocs as real); }
  }

  lemma DivPositive(a: real, b: real)
    requires a > 0.0 && b > 0.0
    ensures a / b > 0.0
  {
    var q := a / b;
    assert q * b == a;
    assert q <= 0.0 ==> q * b <= 0.0;
  }

  /** The argument of the logarithm in `idf`. */
  function IdfArgument(nDocs: nat, docFreq: nat): real {
    (nDocs as real - docFreq as real + 0.5) / (docFreq as real + 0.5) + 1.0
  }

  /** The logarithm is of something above one, so the weight is positive, exactly when no more postings
      are counted than documents. */
  lemma IdfPositive(nDocs: nat, docFreq: nat)
    ensures IdfArgument(nDocs, docFreq) > 1.0 <==> docFreq <= nDocs
  {
    var num, den := nDocs as real - docFreq as real + 0.5, docFreq as real + 0.5;
    assert num > 0.0 <==> docFreq <= nDocs;
    assert num > 0.0 ==> num / den > 0.0;
    if num <= 0.0 { assert num / den <= 0.0; }
  }

  function TermScore(idf: real, tf: nat, docLen: nat, avgLen: real): real
    requires avgLen > 0.0
  {
    var norm := 1.0 - B + B * (docLen as real / avgLen);
    assert docLen as real / avgLen >= 0.0;
    idf * (tf as real * (K1 + 1.0)) / (tf as real + K1 * norm)
  }

  /** A posting with a positive weight scores above zero, and below the saturation bound `idf * (K1+1)`. */
  lemma TermScoreBounds(idf: real, tf: nat, docLen: nat, avgLen: real)
    requires idf > 0.0 && tf > 0 && avgLen > 0.0
    ensures 0.0 < TermScore(idf, tf, docLen, avgLen) < idf * (K1 + 1.0)
  {
    var ratio := docLen as real / avgLen;
    assert ratio >= 0.0;
    var norm := 1.0 - B + B * ratio;
    var t, d := tf as real, tf as real + K1 * norm;
    assert d > t >= 1.0;
    var num := idf * (t * (K1 + 1.0));
    assert num > 0.0;
    assert TermScore(idf, tf, docLen, avgLen) == num / d;
    var bound := idf * (K1 + 1.0);
    assert num == bound * t;
    assert bound > 0.0;
    assert bound * t < bound * d;
    DivBelow(num, d, bound);
  }

  lemma DivBelow(num: real, d: real, bound: real)
    requires d > 0.0 && 0.0 < num < bound * d
    ensures 0.0 < num / d < bound
  {
    var q := num / d;
    assert q * d == num;
    assert q >= bound ==> q * d >= bound * d;
    assert q <= 0.0 ==> q * d <= 0.0;
  }

  /** The weight's argument in one fraction: it falls as more documents hold the term. */
  lemma IdfFalls(nDocs: nat, docFreq: nat, more: nat)
    ensures IdfArgument(nDocs, docFreq) == (nDocs + 1) as real / (docFreq as real + 0.5)
    ensures docFreq < more ==> IdfArgument(nDocs, more) < IdfArgument(nDocs, docFreq)
  {
    IdfFraction(nDocs, docFreq);
    IdfFraction(nDocs, more);
    if docFreq < more { SmallerDenominator((nDocs + 1) as real, docFreq as real + 0.5, more as real + 0.5); }
  }

  lemma IdfFraction(nDocs: nat, docFreq: nat)
    ensures IdfArgument(nDocs, docFreq) == (nDocs + 1) as real / (docFreq as real + 0.5)
  {
    var n, d := nDocs as real, docFreq as real + 0.5;
    var q := (n - docFreq as real + 0.5) / d;
    assert q * d == n - docFreq as real + 0.5;
    assert (q + 1.0) * d == q * d + d == n + 1.0;
    QuotientIs(q + 1.0, n + 1.0, d);
  }

  lemma QuotientIs(q: real, a: real, d: real)
    requires d > 0.0 && q * d == a
    ensures q == a / d
  {}

  lemma SmallerDenominator(a: real, d: real, e: real)
    requires a > 0.0 && 0.0 < d < e
    ensures a / e < a / d
  {
    var p, q := a / d, a / e;
    assert p * d == a && q * e == a;
    DivPositive(a, e);
    assert q * d < q * e;
    assert p <= q ==> p * d <= q * d;
  }

  /** The score written out: `2.2 tf / (tf + 0.3 + 0.9 len/avg)` times the weight. */
  lemma TermScoreIs(weight: real, tf: nat, docLen: nat, avgLen: real)
    requires avgLen > 0.0
    ensures var ratio := docLen as real / avgLen;
            && tf as real + 0.3 + 0.9 * ratio > 0.0
            && TermScore(weight, tf, docLen, avgLen) == weight * (2.2 * tf as real) / (tf as real + 0.3 + 0.9 * ratio)
  {
    var ratio := docLen as real / avgLen;
    assert ratio >= 0.0;
    var norm := 1.0 - B + B * ratio;
    assert K1 * norm == 0.3 + 0.9 * ratio;
    assert tf as real * (K1 + 1.0) == 2.2 * tf as real;
  }

  /** With a positive weight the score rises with the term's frequency and falls with the document's length. */
  lemma TermScoreMonotone(weight: real, tf: nat, more: nat, docLen: nat, longer: nat, avgLen: real)
    requires weight > 0.0 && avgLen > 0.0 && 0 < tf
    ensures tf < more ==> TermScore(weight, tf, docLen, avgLen) < TermScore(weight, more, docLen, avgLen)
    ensures docLen < longer ==> TermScore(weight, tf, longer, avgLen) < TermScore(weight, tf, docLen, avgLen)
  {
    TermScoreIs(weight, tf, docLen, avgLen);
    TermScoreIs(weight, more, docLen, avgLen);
    TermScoreIs(weight, tf, longer, avgLen);
    var r, s := docLen as real / avgLen, longer as real / avgLen;
    assert r >= 0.0;
    if tf < more { Saturates(weight, tf as real, more as real, 0.3 + 0.9 * r); }
    if docLen < longer {
      LargerNumerator(docLen as real, longer as real, avgLen);
      assert weight * (2.2 * tf as real) > 0.0;
      SmallerDenominator(weight * (2.2 * tf as real), tf as real + 0.3 + 0.9 * r, tf as real + 0.3 + 0.9 * s);
    }
  }

  lemma LargerNumerator(a: real, b: real, d: real)
    requires a < b && d > 0.0
    ensures a / d < b / d
  {
    var p, q := a / d, b / d;
    assert p * d == a && q * d == b;
    assert p >= q ==> p * d >= q * d;
  }

  lemma Saturates(w: real, t: real, u: real, c: real)
    requires w > 0.0 && 0.0 < t < u && c > 0.0
    ensures w * (2.2 * t) / (t + c) < w * (2.2 * u) / (u + c)
  {
    OneMinus(w, t, c);
    OneMinus(w, u, c);
    assert w * 2.2 * c > 0.0;
    SmallerDenominator(w * 2.2 * c, t + c, u + c);
  }

  lemma OneMinus(w: real, t: real, c: real)
    requires w > 0.0 && t > 0.0 && c > 0.0
    ensures w * (2.2 * t) / (t + c) == w * 2.2 - w * 2.2 * c / (t + c)
  {
    var k, d := w * 2.2, t + c;
    var q := k * c / d;
    assert q * d == k * c;
    assert (k - q) * d == k * d - q * d == k * t;
    assert k * t == w * (2.2 * t);
    QuotientIs(k - q, w * (2.2 * t), d);
  }

  /** The mean length of a document, or one where there is nothing to average. */
  lemma AvgLenMeans(stats: Stats)
    ensures stats.nDocs > 0 && stats.totalLen > 0 ==> stats.AvgLen() * stats.nDocs as real == stats.totalLen as real
    ensures stats.nDocs == 0 || stats.totalLen == 0 ==> stats.AvgLen() == 1.0
  {}

  // ---- Posting codec ----

  function LittleEndian(n: bits32): Bytes {
    [n % 256, n / 256 % 256, n / 65536 % 256, n / 16777216]
  }

  function FromLittleEndian(b: Bytes): bits32
    requires |b| == 4
  {
    var b0: int, b1: int, b2: int, b3: int := b[0], b[1], b[2], b[3];
    b0 + 256 * b1 + 65536 * b2 + 16777216 * b3
  }

  function EncodePosting(tf: bits32, docLen: bits32): Bytes {
    LittleEndian(tf) + LittleEndian(docLen)
  }

  function DecodePosting(bytes: Bytes): Option<(bits32, bits32)> {
    if |bytes| != 8 then None else Some((FromLittleEndian(bytes[..4]), FromLittleEndian(bytes[4..])))
  }

  lemma LittleEndianRoundTrip(n: bits32)
    ensures FromLittleEndian(LittleEndian(n)) == n
  {
    var a, b, c := n / 256, n / 65536, n / 16777216;
    assert b == a / 256 && c == b / 256;
    assert n == 256 * a + n % 256 && a == 256 * b + a % 256 && b == 256 * c + b % 256;
  }

  /** Postings decode to what was encoded, and every eight-byte string is the encoding of what it decodes to. The
      frequency comes first, each number with its least significant byte in front. */
  lemma PostingRoundTrip(tf: bits32, docLen: bits32, bytes: Bytes)
    ensures |EncodePosting(tf, docLen)| == 8
    ensures EncodePosting(tf, docLen)[0] == tf % 256 && EncodePosting(tf, docLen)[4] == docLen % 256
    ensures DecodePosting(EncodePosting(tf, docLen)) == Some((tf, docLen))
    ensures DecodePosting(bytes).Some? ==>
              EncodePosting(DecodePosting(bytes).value.0, DecodePosting(bytes).value.1) == bytes
  {
    LittleEndianRoundTrip(tf);
    LittleEndianRoundTrip(docLen);
    assert EncodePosting(tf, docLen)[..4] == LittleEndian(tf);
    assert EncodePosting(tf, docLen)[4..] == LittleEndian(docLen);
    if |bytes| == 8 {
      FromLittleEndianInverse(bytes[..4]);
      FromLittleEndianInverse(bytes[4..]);
      assert bytes == bytes[..4] + bytes[4..];
    }
  }

  lemma FromLittleEndianInverse(b: Bytes)
    requires |b| == 4
    ensures LittleEndian(FromLittleEndian(b)) == b
  {
    var b0: int, b1: int, b2: int, b3: int := b[0], b[1], b[2], b[3];
    var n: int := FromLittleEndian(b);
    var top := b2 + 256 * b3;
    var hi := b1 + 256 * top;
    assert n == b0 + 256 * hi;
    assert n / 256 == hi && n % 256 == b0;
    assert hi / 256 == top && hi % 256 == b1;
    assert n / 65536 == top;
    assert top / 256 == b3 && top % 256 == b2;
    assert n / 16777216 == b3;
  }
}
