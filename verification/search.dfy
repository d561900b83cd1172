/** Search orchestration (server/src/db/search.rs): rank fusion, text and vector ranking, and what a search
    returns on a store nobody is writing to. */
module Search {
  import opened ByteStrings
  import opened Values
  import opened Encoding
  import opened Keys
  import opened Fts
  import opened Stores
  import opened Consistency
  import opened Paging
  import Agreement
  import Coherence
  import Filling
  import Lives
  import Machine
  import Safety
  import Vectors

  // ---- Ranked lists ----

  datatype Hit = Hit(id: Bytes, score: real)

  /** Higher score first; ties break on the id. */
  predicate Ahead(a: Hit, b: Hit) {
    a.score > b.score || (a.score == b.score && Less(a.id, b.id))
  }

  predicate InOrder(s: seq<Hit>) {
    forall i, j | 0 <= i < j < |s| :: Ahead(s[i], s[j])
  }

  lemma AheadTransitive(a: Hit, b: Hit, c: Hit)
    requires Ahead(a, b) && Ahead(b, c)
    ensures Ahead(a, c) && !Ahead(b, a)
  {
    LessTrichotomy(a.id, b.id);
    if a.score == b.score == c.score { LessTransitive(a.id, b.id, c.id); }
  }

  lemma AheadTotal(a: Hit, b: Hit)
    ensures Ahead(a, b) || Ahead(b, a) || a == b
    ensures !Ahead(a, a)
  {
    LessTrichotomy(a.id, b.id);
    LessTrichotomy(a.id, a.id);
  }

  /** Two ranked lists of the same hits are the same list. */
  lemma {:induction false} OrderUnique(s: seq<Hit>, t: seq<Hit>)
    requires InOrder(s) && InOrder(t) && forall h :: h in s <==> h in t
    ensures s == t
  {
    SameEmpty(s, t);
    if s != [] {
      assert s[0] in s && t[0] in t;
      FirstIsFirst(s, t);
      forall h ensures h in s[1..] <==> h in t[1..] { TailMembers(s, h); TailMembers(t, h); }
      OrderUnique(s[1..], t[1..]);
    }
  }

  lemma SameEmpty(s: seq<Hit>, t: seq<Hit>)
    requires forall h :: h in s <==> h in t
    ensures s == [] <==> t == []
  {
    assert s != [] ==> s[0] in s;
    assert t != [] ==> t[0] in t;
  }

  lemma FirstIsFirst(s: seq<Hit>, t: seq<Hit>)
    requires InOrder(s) && InOrder(t) && s != [] && t != [] && s[0] in t && t[0] in s
    ensures s[0] == t[0]
  {
    var i :| 0 <= i < |t| && t[i] == s[0];
    var j :| 0 <= j < |s| && s[j] == t[0];
    AheadTotal(t[0], t[0]);
    if i > 0 && j > 0 { AheadTransitive(t[0], t[i], s[j]); }
  }

  lemma TailMembers(s: seq<Hit>, h: Hit)
    requires InOrder(s) && s != []
    ensures h in s[1..] <==> h in s && h != s[0]
  {
    if h in s[1..] {
      var i :| 0 <= i < |s| - 1 && s[1..][i] == h;
      assert Ahead(s[0], s[i + 1]);
      AheadTotal(h, h);
    }
    assert s == [s[0]] + s[1..];
  }

  function InsertHit(h: Hit, s: seq<Hit>): seq<Hit> {
    if s == [] || Ahead(h, s[0]) then [h] + s else [s[0]] + InsertHit(h, s[1..])
  }

  lemma {:induction false} InsertHitOrders(h: Hit, s: seq<Hit>)
    requires InOrder(s) && h !in s
    ensures InOrder(InsertHit(h, s)) && forall x :: x in InsertHit(h, s) <==> x == h || x in s
  {
    if s != [] {
      if Ahead(h, s[0]) {
        forall i | 0 <= i < |s| ensures Ahead(h, s[i]) { if i > 0 { AheadTransitive(h, s[0], s[i]); } }
      } else {
        InsertHitOrders(h, s[1..]);
        AheadTotal(h, s[0]);
        var t := InsertHit(h, s[1..]);
        assert s == [s[0]] + s[1..];
        forall i | 0 <= i < |t| ensures Ahead(s[0], t[i]) {
          assert t[i] in t;
          if t[i] != h { var j :| 0 <= j < |s| - 1 && s[1..][j] == t[i]; assert Ahead(s[0], s[j + 1]); }
        }
      }
    }
  }

  /** The ranking of a score map: its only ordered listing. */
  ghost function Ranking(scores: map<Bytes, real>): seq<Hit> {
    if scores == map[] then [] else var id :| id in scores; InsertHit(Hit(id, scores[id]), Ranking(scores - {id}))
  }

  predicate IsItem(scores: map<Bytes, real>, h: Hit) { h.id in scores && h.score == scores[h.id] }

  lemma {:induction false} RankingMeans(scores: map<Bytes, real>)
    ensures InOrder(Ranking(scores)) && forall h :: h in Ranking(scores) <==> IsItem(scores, h)
  {
    if scores != map[] {
      var id :| id in scores && Ranking(scores) == InsertHit(Hit(id, scores[id]), Ranking(scores - {id}));
      RankingMeans(scores - {id});
      InsertHitOrders(Hit(id, scores[id]), Ranking(scores - {id}));
    }
  }

  lemma RankingUnique(scores: map<Bytes, real>, s: seq<Hit>)
    requires InOrder(s) && forall h :: h in s <==> IsItem(scores, h)
    ensures s == Ranking(scores)
  {
    hide IsItem;
    RankingMeans(scores);
    OrderUnique(s, Ranking(scores));
  }

  /** Collect a score map in whatever order it yields its entries, and sort. */
  method RankScores(scores: map<Bytes, real>) returns (ranked: seq<Hit>)
    ensures ranked == Ranking(scores)
  {
    ranked := [];
    var left := scores.Keys;
    ghost var seen: set<Bytes> := {};
    while left != {}
      invariant seen + left == scores.Keys && seen !! left
      invariant InOrder(ranked) && forall h :: h in ranked <==> h.id in seen && IsItem(scores, h)
      decreases left
    {
      var id :| id in left;
      InsertHitOrders(Hit(id, scores[id]), ranked);
      ranked := InsertHit(Hit(id, scores[id]), ranked);
      left, seen := left - {id}, seen + {id};
    }
    assert seen == scores.Keys;
    RankingUnique(scores, ranked);
  }

  function TakeHits<T>(s: seq<T>, n: nat): seq<T> { if n <= |s| then s[..n] else s }

  /** The best `depth` of some scored ids: in order, each with its own score, and every other id behind all of them,
      which there is only if the list is full. */
  ghost predicate AreBest(ranked: seq<Hit>, depth: nat, ids: iset<Bytes>, score: Bytes -> real) {
    && InOrder(ranked) && |ranked| <= depth
    && (forall h | h in ranked :: h.id in ids && h.score == score(h.id))
    && forall id | id in ids && Hit(id, score(id)) !in ranked ::
         |ranked| == depth && forall h | h in ranked :: Ahead(h, Hit(id, score(id)))
  }

  lemma TakenAreBest(scores: map<Bytes, real>, depth: nat, ids: iset<Bytes>, score: Bytes -> real)
    requires forall id :: id in scores <==> id in ids
    requires forall id | id in scores :: scores[id] == score(id)
    ensures AreBest(TakeHits(Ranking(scores), depth), depth, ids, score)
  {
    hide Ranking, Ahead;
    RankingMeans(scores);
    var all, ranked := Ranking(scores), TakeHits(Ranking(scores), depth);
    assert forall h | h in ranked :: h in all;
    forall id | id in ids && Hit(id, score(id)) !in ranked
      ensures |ranked| == depth && forall h | h in ranked :: Ahead(h, Hit(id, score(id)))
    {
      assert IsItem(scores, Hit(id, score(id)));
      var j :| 0 <= j < |all| && all[j] == Hit(id, score(id));
    }
  }

  // ---- Reciprocal rank fusion ----

  const RRF_K: nat := 60

  predicate DistinctIds(arm: seq<Hit>) {
    forall i, j | 0 <= i < j < |arm| :: arm[i].id != arm[j].id
  }

  function IdsIn(arm: seq<Hit>): set<Bytes> { set i | 0 <= i < |arm| :: arm[i].id }

  /** Position of an id in an arm, from zero. */
  function Position(arm: seq<Hit>, id: Bytes): (r: Option<nat>)
    ensures r.None? <==> id !in IdsIn(arm)
    ensures r.Some? ==> r.value < |arm| && arm[r.value].id == id
  {
    if arm == [] then None
    else if arm[|arm| - 1].id == id then Some(|arm| - 1)
    else
      assert forall i | 0 <= i < |arm| - 1 :: arm[..|arm| - 1][i] == arm[i];
      Position(arm[..|arm| - 1], id)
  }

  /** What an arm contributes to an id: one over the constant plus its rank, from one. */
  function Worth(arm: seq<Hit>, id: Bytes): real {
    match Position(arm, id)
    case None => 0.0
    case Some(i) => 1.0 / (RRF_K + (i + 1)) as real
  }

  function Fused(text: seq<Hit>, vectors: seq<Hit>): map<Bytes, real> {
    map id | id in IdsIn(text) + IdsIn(vectors) :: Worth(text, id) + Worth(vectors, id)
  }

  lemma WorthSnoc(arm: seq<Hit>, i: nat, id: Bytes)
    requires DistinctIds(arm) && i < |arm|
    ensures Worth(arm[..i + 1], id)
              == Worth(arm[..i], id) + (if id == arm[i].id then 1.0 / (RRF_K + (i + 1)) as real else 0.0)
    ensures IdsIn(arm[..i + 1]) == IdsIn(arm[..i]) + {arm[i].id}
  {
    var longer := arm[..i + 1];
    assert longer[..i] == arm[..i] && longer[i] == arm[i];
    if id == arm[i].id { assert id !in IdsIn(arm[..i]); }
    forall x ensures x in IdsIn(longer) <==> x in IdsIn(arm[..i]) + {arm[i].id} {
      if x in IdsIn(longer) { var j :| 0 <= j < i + 1 && longer[j].id == x; if j < i { assert arm[..i][j].id == x; } }
      if x in IdsIn(arm[..i]) { var j :| 0 <= j < i && arm[..i][j].id == x; assert longer[j].id == x; }
      assert longer[i].id == arm[i].id;
    }
  }

  /** Fuse two rankings. The result depends on ranks alone, never on the order the score map is walked in. */
  method FuseRrf(text: seq<Hit>, vectors: seq<Hit>) returns (ranked: seq<Hit>)
    requires DistinctIds(text) && DistinctIds(vectors)
    ensures ranked == Ranking(Fused(text, vectors))
  {
    var fused: map<Bytes, real> := map[];
    for rank := 0 to |text|
      invariant fused == Fused(text[..rank], [])
    {
      fused := AddWorth(fused, text, rank, text[..rank], []);
    }
    assert text[..|text|] == text;
    for rank := 0 to |vectors|
      invariant fused == Fused(text, vectors[..rank])
    {
      fused := AddWorth(fused, vectors, rank, text, vectors[..rank]);
    }
    assert vectors[..|vectors|] == vectors;
    ranked := RankScores(fused);
  }

  /** Add one arm entry's share to its id. */
  method AddWorth(fused: map<Bytes, real>, arm: seq<Hit>, rank: nat, ghost text: seq<Hit>,
                  ghost vectors: seq<Hit>) returns (more: map<Bytes, real>)
    requires DistinctIds(arm) && rank < |arm| && fused == Fused(text, vectors)
    ensures text == arm[..rank] && vectors == [] ==> more == Fused(arm[..rank + 1], [])
    ensures vectors == arm[..rank] ==> more == Fused(text, arm[..rank + 1])
  {
    hide Worth, IdsIn;
    var id := arm[rank].id;
    more := fused[id := (if id in fused then fused[id] else 0.0) + 1.0 / (RRF_K + (rank + 1)) as real];
    forall x ensures Worth(arm[..rank + 1], x)
             == Worth(arm[..rank], x) + (if x == id then 1.0 / (RRF_K + (rank + 1)) as real else 0.0)
      && IdsIn(arm[..rank + 1]) == IdsIn(arm[..rank]) + {id}
    {
      WorthSnoc(arm, rank, x);
    }
    Absent(text, id);
    Absent(vectors, id);
  }

  lemma Absent(arm: seq<Hit>, id: Bytes)
    ensures id !in IdsIn(arm) ==> Worth(arm, id) == 0.0
  {}

  /** At least as well placed: no later, or the other is not there. */
  predicate NoWorse(arm: seq<Hit>, a: Bytes, b: Bytes) {
    Position(arm, b).Some? ==> Position(arm, a).Some? && Position(arm, a).value <= Position(arm, b).value
  }

  predicate Better(arm: seq<Hit>, a: Bytes, b: Bytes) {
    Position(arm, a).Some? && (Position(arm, b).Some? ==> Position(arm, a).value < Position(arm, b).value)
  }

  lemma Reciprocals(m: nat, n: nat)
    requires 0 < m < n
    ensures 1.0 / m as real > 1.0 / n as real > 0.0
  {
    ReciprocalOrder(m as real, n as real);
  }

  lemma ReciprocalOrder(m: real, n: real)
    requires 0.0 < m < n
    ensures 1.0 / m > 1.0 / n > 0.0
  {
    assert 1.0 / m - 1.0 / n == (n - m) / (m * n);
    DivPositive(n - m, m * n);
    DivPositive(1.0, n);
  }

  lemma WorthOrder(arm: seq<Hit>, a: Bytes, b: Bytes)
    ensures NoWorse(arm, a, b) ==> Worth(arm, a) >= Worth(arm, b)
    ensures Better(arm, a, b) ==> Worth(arm, a) > Worth(arm, b)
  {
    match Position(arm, a)
    case None =>
    case Some(i) =>
      Reciprocals(RRF_K + (i + 1), RRF_K + (i + 2));
      match Position(arm, b)
      case None =>
      case Some(j) => if i < j { Reciprocals(RRF_K + (i + 1), RRF_K + (j + 1)); }
  }

  /** In the fused list a document ranked no worse in both arms and better in one comes first. */
  lemma DominatesFused(text: seq<Hit>, vectors: seq<Hit>, a: Bytes, b: Bytes, i: nat, j: nat)
    requires NoWorse(text, a, b) && NoWorse(vectors, a, b) && (Better(text, a, b) || Better(vectors, a, b))
    requires var ranked := Ranking(Fused(text, vectors));
             i < |ranked| && j < |ranked| && ranked[i].id == a && ranked[j].id == b
    ensures i < j
  {
    var ranked := Ranking(Fused(text, vectors));
    WorthOrder(text, a, b);
    WorthOrder(vectors, a, b);
    RankingMeans(Fused(text, vectors));
    assert ranked[i] in ranked && ranked[j] in ranked;
    assert j < i ==> Ahead(ranked[j], ranked[i]);
  }

  /** Ranked 61st or better in both arms, a document beats everything found by one arm alone: 2/121 > 1/61. The
      bound is exact: 62nd in both arms is worth just what first place in one arm is. */
  lemma BothArmsBeatOne(text: seq<Hit>, vectors: seq<Hit>, a: Bytes, b: Bytes)
    requires Position(text, a).Some? && Position(text, a).value + 1 <= 61
    requires Position(vectors, a).Some? && Position(vectors, a).value + 1 <= 61
    requires b in IdsIn(text) + IdsIn(vectors) && (b !in IdsIn(text) || b !in IdsIn(vectors))
    ensures Fused(text, vectors)[a] > Fused(text, vectors)[b]
  {
    AtLeast121(text, a);
    AtLeast121(vectors, a);
    AtMost61(text, b);
    AtMost61(vectors, b);
    assert 2.0 / 121.0 > 1.0 / 61.0;
  }

  lemma AtLeast121(arm: seq<Hit>, id: Bytes)
    requires Position(arm, id).Some? && Position(arm, id).value + 1 <= 61
    ensures Worth(arm, id) >= 1.0 / 121.0
  {
    var n := RRF_K + (Position(arm, id).value + 1);
    if n < 121 { Reciprocals(n, 121); }
  }

  lemma AtMost61(arm: seq<Hit>, id: Bytes)
    ensures 0.0 <= Worth(arm, id) <= 1.0 / 61.0
  {
    match Position(arm, id)
    case None =>
    case Some(i) =>
      Reciprocals(RRF_K + (i + 1), RRF_K + (i + 2));
      if i > 0 { Reciprocals(61, RRF_K + (i + 1)); }
  }

  lemma SixtySecondTies(text: seq<Hit>, vectors: seq<Hit>, a: Bytes, b: Bytes)
    requires Position(text, a) == Some(61) && Position(vectors, a) == Some(61)
    requires Position(text, b) == Some(0) && Position(vectors, b) == None
    ensures Fused(text, vectors)[a] == Fused(text, vectors)[b]
  {
    hide Worth, Position, IdsIn;
    WorthAt(text, a, 61);
    WorthAt(vectors, a, 61);
    WorthAt(text, b, 0);
    Absent(vectors, b);
    assert 122 as real == 122.0 && 61 as real == 61.0;
    assert 1.0 / 122.0 + 1.0 / 122.0 == 1.0 / 61.0;
  }

  lemma WorthAt(arm: seq<Hit>, id: Bytes, i: nat)
    requires Position(arm, id) == Some(i)
    ensures Worth(arm, id) == 1.0 / (61 + i) as real
  {
    assert RRF_K + (i + 1) == 61 + i;
  }

  // ---- Text ranking ----

  datatype Posting = Posting(tf: nat, len: nat)

  /** A term's posting list as the scan of its prefix reads it. */
  function Postings(st: Store, p: Bytes, c: Bytes, name: Bytes, term: Bytes): map<Bytes, Posting> {
    map id | id in PostingIds(st, p, c, name, term) :: PostingIn(Look(st, PostKey(p, c, name, term, id)))
  }

  function PostingIn(value: Option<Val>): Posting {
    match value
    case Some(PostVal(tf, len)) => Posting(tf, len)
    case _ => Posting(0, 0)
  }

  function PostingIds(st: Store, p: Bytes, c: Bytes, name: Bytes, term: Bytes): set<Bytes> {
    set k | k in st && k.PostKey? && k.p == p && k.c == c && k.name == name && k.term == term && st[k].PostVal? :: k.id
  }

  lemma PostingIdsAre(st: Store, p: Bytes, c: Bytes, name: Bytes, term: Bytes, id: Bytes)
    ensures id in PostingIds(st, p, c, name, term) <==>
              PostKey(p, c, name, term, id) in st && st[PostKey(p, c, name, term, id)].PostVal?
  {
    var k := PostKey(p, c, name, term, id);
    if k in st && st[k].PostVal? { assert k.id == id; }
  }

  function Plus(scores: map<Bytes, real>, id: Bytes): real { if id in scores then scores[id] else 0.0 }

  /** Scores after adding the contribution of some postings of one term. */
  function AddTerm(scores: map<Bytes, real>, postings: map<Bytes, Posting>, weight: real,
                   avgLen: real): map<Bytes, real>
    requires avgLen > 0.0
  {
    map id | id in scores.Keys + postings.Keys ::
      Plus(scores, id) + if id in postings then TermScore(weight, postings[id].tf, postings[id].len, avgLen) else 0.0
  }

  /** The store as a request finds it at its n-th read of one kind. */
  type Moments = nat -> Store

  /** Nobody writes meanwhile. */
  function Still(st: Store): Moments { _ => st }

  /** BM25 scores of every document with a posting for some of the terms, the i-th term's postings scanned at the
      i-th moment. `ln` is the logarithm. */
  function TextScores(at: Moments, p: Bytes, c: Bytes, name: Bytes, stats: Stats, terms: seq<Bytes>,
                      ln: real -> real): map<Bytes, real> {
    if terms == [] then map[]
    else
      var n := |terms| - 1;
      var postings := Postings(at(n), p, c, name, terms[n]);
      AvgLenPositive(stats);
      AddTerm(TextScores(at, p, c, name, stats, terms[..n], ln), postings, ln(IdfArgument(stats.nDocs, |postings|)),
              stats.AvgLen())
  }

  /** The statistics are read first, then the terms one after another. */
  method TextRanked(first: Store, at: Moments, p: Bytes, c: Bytes, name: Bytes, terms: seq<Bytes>, depth: nat,
                    ln: real -> real) returns (ranked: seq<Hit>)
    ensures var stats := StatsAt(first, p, c, name);
            ranked == if terms == [] || stats.nDocs == 0 then []
              else TakeHits(Ranking(TextScores(at, p, c, name, stats, terms, ln)), depth)
    ensures var stats := StatsAt(first, p, c, name);
            if stats.nDocs == 0 then ranked == []
            else
              AreBest(ranked, depth, (iset id | PostedAny(at, p, c, name, terms, id)),
                      id => Total(at, p, c, name, stats, terms, ln, id))
  {
    hide Total, PostedAny, AreBest, Ranking;
    var stats := StatsAt(first, p, c, name);
    BestTexts(at, p, c, name, stats, terms, depth, ln);
    if terms == [] { return []; }
    if stats.nDocs == 0 { return []; }
    AvgLenPositive(stats);
    var scores: map<Bytes, real> := map[];
    for i := 0 to |terms|
      invariant scores == TextScores(at, p, c, name, stats, terms[..i], ln)
    {
      var postings := ReadPostings(at(i), p, c, name, terms[i]);
      assert terms[..i + 1][..i] == terms[..i];
      scores := ScorePostings(scores, postings, ln(IdfArgument(stats.nDocs, |postings|)), stats.AvgLen());
    }
    assert terms[..|terms|] == terms;
    ranked := RankScores(scores);
    ranked := TakeHits(ranked, depth);
  }

  lemma BestTexts(at: Moments, p: Bytes, c: Bytes, name: Bytes, stats: Stats, terms: seq<Bytes>, depth: nat,
                  ln: real -> real)
    ensures var ids := iset id | PostedAny(at, p, c, name, terms, id);
            var score := id => Total(at, p, c, name, stats, terms, ln, id);
            && AreBest(TakeHits(Ranking(TextScores(at, p, c, name, stats, terms, ln)), depth), depth, ids, score)
            && (terms == [] ==> AreBest([], depth, ids, score))
  {
    hide Total, PostedAny, TextScores, AreBest, Ranking;
    var scores := TextScores(at, p, c, name, stats, terms, ln);
    forall id
      ensures id in scores <==> PostedAny(at, p, c, name, terms, id)
      ensures id in scores ==> scores[id] == Total(at, p, c, name, stats, terms, ln, id)
    {
      ScoresAreTotals(at, p, c, name, stats, terms, ln, id);
    }
    TakenAreBest(scores, depth, (iset id | PostedAny(at, p, c, name, terms, id)),
                 id => Total(at, p, c, name, stats, terms, ln, id));
    if terms == [] { NothingRanked(at, p, c, name, stats, ln, depth); }
  }

  lemma NothingRanked(at: Moments, p: Bytes, c: Bytes, name: Bytes, stats: Stats, ln: real -> real, depth: nat)
    ensures TakeHits(Ranking(TextScores(at, p, c, name, stats, [], ln)), depth) == []
  {}

  /** Buffer a term's postings: its document frequency is known only once all have been read. */
  method ReadPostings(st: Store, p: Bytes, c: Bytes, name: Bytes, term: Bytes) returns (postings: map<Bytes, Posting>)
    ensures postings == Postings(st, p, c, name, term)
  {
    postings := map[];
    var left := set k | k in st && k.PostKey? && k.p == p && k.c == c && k.name == name && k.term == term;
    ghost var seen: set<Key> := {};
    while left != {}
      invariant seen !! left
      invariant forall k: Key :: k in seen + left <==>
                  k in st && k.PostKey? && k.p == p && k.c == c && k.name == name && k.term == term
      invariant forall id :: id in postings <==>
                  PostKey(p, c, name, term, id) in seen && st[PostKey(p, c, name, term, id)].PostVal?
      invariant forall id | id in postings ::
                  postings[id] == Posting(st[PostKey(p, c, name, term, id)].tf, st[PostKey(p, c, name, term, id)].len)
      decreases left
    {
      var k :| k in left;
      assert k == PostKey(p, c, name, term, k.id);
      if st[k].PostVal? { postings := postings[k.id := Posting(st[k].tf, st[k].len)]; }
      left, seen := left - {k}, seen + {k};
    }
    forall id ensures id in postings <==> id in PostingIds(st, p, c, name, term) {
      PostingIdsAre(st, p, c, name, term, id);
    }
    assert postings.Keys == Postings(st, p, c, name, term).Keys;
  }

  method ScorePostings(scores: map<Bytes, real>, postings: map<Bytes, Posting>, weight: real,
                       avgLen: real) returns (more: map<Bytes, real>)
    requires avgLen > 0.0
    ensures more == AddTerm(scores, postings, weight, avgLen)
  {
    hide TermScore;
    more := scores;
    var left := postings.Keys;
    ghost var seen: set<Bytes> := {};
    while left != {}
      invariant seen + left == postings.Keys && seen !! left
      invariant more == AddTerm(scores, map id | id in postings && id in seen :: postings[id], weight, avgLen)
      decreases left
    {
      var id :| id in left;
      more := more[id := Plus(more, id) + TermScore(weight, postings[id].tf, postings[id].len, avgLen)];
      left, seen := left - {id}, seen + {id};
    }
    assert (map id | id in postings && id in seen :: postings[id]) == postings;
  }

  // What a text score is, told from the stored postings.

  /** Holds a posting of the term. */
  predicate Posted(st: Store, p: Bytes, c: Bytes, name: Bytes, term: Bytes, id: Bytes) {
    PostKey(p, c, name, term, id) in st && st[PostKey(p, c, name, term, id)].PostVal?
  }

  /** The documents holding a posting of the term. */
  ghost predicate AreHolders(st: Store, p: Bytes, c: Bytes, name: Bytes, term: Bytes, holders: set<Bytes>) {
    forall id :: id in holders <==> Posted(st, p, c, name, term, id)
  }

  /** What one term adds to a document's score, from its stored frequency and length: `2.2 tf / (tf + 0.3 + 0.9
      len/avg)` times the logarithm of `(n + 1) / (df + 0.5)`. */
  ghost function Gain(st: Store, p: Bytes, c: Bytes, name: Bytes, stats: Stats, term: Bytes, ln: real -> real,
                      id: Bytes): real {
    if !Posted(st, p, c, name, term, id) then 0.0
    else
      var holders := HoldersOf(st, p, c, name, term);
      var posting := st[PostKey(p, c, name, term, id)];
      var mean := if stats.nDocs == 0 || stats.totalLen == 0 then 1.0 else stats.totalLen as real / stats.nDocs as real;
      AvgLenPositive(stats);
      TermScoreIs(1.0, posting.tf, posting.len, mean);
      ln((stats.nDocs + 1) as real / (|holders| as real + 0.5)) * (2.2 * posting.tf as real)
        / (posting.tf as real + 0.3 + 0.9 * (posting.len as real / mean))
  }

  ghost function HoldersOf(st: Store, p: Bytes, c: Bytes, name: Bytes, term: Bytes): (holders: set<Bytes>)
    ensures AreHolders(st, p, c, name, term, holders)
  {
    forall id ensures id in PostingIds(st, p, c, name, term) <==> Posted(st, p, c, name, term, id) {
      PostingIdsAre(st, p, c, name, term, id);
    }
    PostingIds(st, p, c, name, term)
  }

  /** The sum of what the terms add, the i-th from the postings of the i-th moment. */
  ghost function Total(at: Moments, p: Bytes, c: Bytes, name: Bytes, stats: Stats, terms: seq<Bytes>, ln: real -> real,
                       id: Bytes): real {
    if terms == [] then 0.0
    else
      var n := |terms| - 1;
      Total(at, p, c, name, stats, terms[..n], ln, id) + Gain(at(n), p, c, name, stats, terms[n], ln, id)
  }

  predicate PostedAny(at: Moments, p: Bytes, c: Bytes, name: Bytes, terms: seq<Bytes>, id: Bytes) {
    exists i :: 0 <= i < |terms| && Posted(at(i), p, c, name, terms[i], id)
  }

  lemma GainIsTermScore(st: Store, p: Bytes, c: Bytes, name: Bytes, stats: Stats, term: Bytes, ln: real -> real,
                        id: Bytes)
    ensures var postings := Postings(st, p, c, name, term);
            && stats.AvgLen() > 0.0
            && (id in postings <==> Posted(st, p, c, name, term, id))
            && Gain(st, p, c, name, stats, term, ln, id) ==
               if id in postings then
                 TermScore(ln(IdfArgument(stats.nDocs, |postings|)), postings[id].tf, postings[id].len, stats.AvgLen())
               else 0.0
  {
    hide TermScore, IdfArgument;
    var postings := Postings(st, p, c, name, term);
    PostingIdsAre(st, p, c, name, term, id);
    AvgLenPositive(stats);
    if id in postings {
      var holders := HoldersOf(st, p, c, name, term);
      SameIds(st, p, c, name, term);
      IdfFalls(stats.nDocs, |postings|, |postings|);
      TermScoreIs(ln(IdfArgument(stats.nDocs, |postings|)), postings[id].tf, postings[id].len, stats.AvgLen());
    }
  }

  lemma SameIds(st: Store, p: Bytes, c: Bytes, name: Bytes, term: Bytes)
    ensures |HoldersOf(st, p, c, name, term)| == |Postings(st, p, c, name, term)|
  {
    var postings, holders := Postings(st, p, c, name, term), HoldersOf(st, p, c, name, term);
    forall id ensures id in postings.Keys <==> id in holders { PostingIdsAre(st, p, c, name, term, id); }
    assert postings.Keys == holders;
    assert |postings| == |postings.Keys|;
  }

  /** A document's score is the sum, over the terms it has postings of, of what each adds, and the documents scored are
      those with such a posting. */
  lemma {:induction false} ScoresAreTotals(at: Moments, p: Bytes, c: Bytes, name: Bytes, stats: Stats,
                                           terms: seq<Bytes>, ln: real -> real, id: Bytes)
    ensures var scores := TextScores(at, p, c, name, stats, terms, ln);
            && (id in scores <==> PostedAny(at, p, c, name, terms, id))
            && Plus(scores, id) == Total(at, p, c, name, stats, terms, ln, id)
  {
    hide Gain, Posted, Postings, TermScore, IdfArgument;
    if terms != [] {
      var n := |terms| - 1;
      ScoresAreTotals(at, p, c, name, stats, terms[..n], ln, id);
      GainIsTermScore(at(n), p, c, name, stats, terms[n], ln, id);
      PostedSnoc(at, p, c, name, terms, id);
    }
  }

  lemma PostedSnoc(at: Moments, p: Bytes, c: Bytes, name: Bytes, terms: seq<Bytes>, id: Bytes)
    requires terms != []
    ensures var n := |terms| - 1;
            PostedAny(at, p, c, name, terms, id) <==>
            PostedAny(at, p, c, name, terms[..n], id) || Posted(at(n), p, c, name, terms[n], id)
  {
    hide Posted;
    var n := |terms| - 1;
    if PostedAny(at, p, c, name, terms[..n], id) {
      var i :| 0 <= i < n && Posted(at(i), p, c, name, terms[..n][i], id);
      assert Posted(at(i), p, c, name, terms[i], id);
    }
    if PostedAny(at, p, c, name, terms, id) {
      var i :| 0 <= i < |terms| && Posted(at(i), p, c, name, terms[i], id);
      if i < n { assert terms[..n][i] == terms[i]; }
    }
  }

  /** On a store nobody writes to a score is additive over terms. */
  lemma {:induction false} TotalConcat(st: Store, p: Bytes, c: Bytes, name: Bytes, stats: Stats, a: seq<Bytes>,
                                       b: seq<Bytes>, ln: real -> real, id: Bytes)
    ensures Total(Still(st), p, c, name, stats, a + b, ln, id)
         == Total(Still(st), p, c, name, stats, a, ln, id) + Total(Still(st), p, c, name, stats, b, ln, id)
    decreases |b|
  {
    hide Gain;
    if b == [] {
      assert a + b == a;
    } else {
      var n := |b| - 1;
      TotalConcat(st, p, c, name, stats, a, b[..n], ln, id);
      assert (a + b)[..|a + b| - 1] == a + b[..n];
    }
  }

  /** And does not depend on their order. */
  lemma {:induction false} TotalPermuted(st: Store, p: Bytes, c: Bytes, name: Bytes, stats: Stats, a: seq<Bytes>,
                                         b: seq<Bytes>, ln: real -> real, id: Bytes)
    requires multiset(a) == multiset(b)
    ensures Total(Still(st), p, c, name, stats, a, ln, id) == Total(Still(st), p, c, name, stats, b, ln, id)
  {
    hide Total;
    assert |a| == |multiset(a)| == |multiset(b)| == |b|;
    if a == [] {
      assert a == b;
    } else {
      var n := |a| - 1;
      var t := [a[n]];
      assert a == a[..n] + t;
      assert a[n] in multiset(b);
      var i :| 0 <= i < |b| && b[i] == a[n];
      var less := b[..i] + b[i + 1..];
      assert b == b[..i] + t + b[i + 1..];
      assert multiset(a[..n]) + multiset(t) == multiset(less) + multiset(t);
      Cancelled(multiset(a[..n]), multiset(less), multiset(t));
      TotalPermuted(st, p, c, name, stats, a[..n], less, ln, id);
      TotalConcat(st, p, c, name, stats, a[..n], t, ln, id);
      TotalConcat(st, p, c, name, stats, b[..i], b[i + 1..], ln, id);
      TotalConcat(st, p, c, name, stats, b[..i] + t, b[i + 1..], ln, id);
      TotalConcat(st, p, c, name, stats, b[..i], t, ln, id);
    }
  }

  lemma Cancelled(a: multiset<Bytes>, b: multiset<Bytes>, t: multiset<Bytes>)
    requires a + t == b + t
    ensures a == b
  {
    forall x ensures a[x] == b[x] {
      assert (a + t)[x] == (b + t)[x];
    }
  }

  /** One more term in the query raises the score of exactly the documents that hold it, and lowers none. */
  lemma MatchingTermRaises(e: Env, st: Store, p: Bytes, c: Bytes, name: Bytes, terms: seq<Bytes>, term: Bytes,
                           index: SearchIndexDef, ln: real -> real, id: Bytes)
    requires EntriesAgree(e, st) && StatsCurrent(e, st, p, c, name) && FewDocs(st, p, c)
    requires CollectionAt(st, p, c).Some? && FindSearch(CollectionAt(st, p, c).value.searchIndexes, name) == Some(index)
    requires forall x | x > 1.0 :: ln(x) > 0.0
    ensures var stats := StatsAt(st, p, c, name);
            var before := Total(Still(st), p, c, name, stats, terms, ln, id);
            var after := Total(Still(st), p, c, name, stats, terms + [term], ln, id);
            if DocAt(st, p, c, id).Some? && term in TermsIn(e, index, DocAt(st, p, c, id).value.data).tf
            then after > before else after == before
  {
    hide Gain, IdfArgument, TermScore, TermsIn, EntriesAgree, CollectionAt, DocAt, FewDocs, StatsCurrent, ExactStats;
    hide Postings, Posted;
    var stats := StatsAt(st, p, c, name);
    ExactCount(e, st, p, c, name, index);
    var longer := terms + [term];
    assert longer[..|longer| - 1] == terms;
    GainIsTermScore(st, p, c, name, stats, term, ln, id);
    PostingsAreDocs(e, st, p, c, name, term, index);
    var postings := Postings(st, p, c, name, term);
    IdfPositive(stats.nDocs, |postings|);
    if id in postings {
      TermScoreBounds(ln(IdfArgument(stats.nDocs, |postings|)), postings[id].tf, postings[id].len, stats.AvgLen());
    }
  }

  /** Under agreement a term's postings are those of the documents that contain it, so there are at most as many
      as documents. */
  lemma PostingsAreDocs(e: Env, st: Store, p: Bytes, c: Bytes, name: Bytes, term: Bytes, index: SearchIndexDef)
    requires EntriesAgree(e, st) && CollectionAt(st, p, c).Some?
    requires FindSearch(CollectionAt(st, p, c).value.searchIndexes, name) == Some(index)
    ensures forall id :: id in Postings(st, p, c, name, term) <==>
              DocAt(st, p, c, id).Some? && term in TermsIn(e, index, DocAt(st, p, c, id).value.data).tf
    ensures forall id | id in Postings(st, p, c, name, term) :: Postings(st, p, c, name, term)[id].tf >= 1
    ensures |Postings(st, p, c, name, term)| <= |Ids(st, p, c)|
  {
    var postings := Postings(st, p, c, name, term);
    forall id ensures id in postings <==>
             DocAt(st, p, c, id).Some? && term in TermsIn(e, index, DocAt(st, p, c, id).value.data).tf
      ensures id in postings ==> postings[id].tf >= 1 && id in Ids(st, p, c)
    {
      PostingIdsAre(st, p, c, name, term, id);
      var k := PostKey(p, c, name, term, id);
      assert Look(st, k) == Expected(e, st, k);
      IdsAreDocs(st, p, c, id);
      if DocAt(st, p, c, id).Some? {
        TermFrequencyBounds(e.tokenize(DocText(index.fields, DocAt(st, p, c, id).value.data)), term);
      }
    }
    SubsetSize(postings.Keys, Ids(st, p, c));
  }

  /** And each holds how often the document's text has the term, and how many tokens that text has. */
  lemma PostingsCount(e: Env, st: Store, p: Bytes, c: Bytes, name: Bytes, term: Bytes, index: SearchIndexDef, id: Bytes)
    requires EntriesAgree(e, st) && CollectionAt(st, p, c).Some?
    requires FindSearch(CollectionAt(st, p, c).value.searchIndexes, name) == Some(index)
    requires Posted(st, p, c, name, term, id)
    ensures DocAt(st, p, c, id).Some?
    ensures var text := Filling.Spaced(Filling.FieldLeaves(DocAt(st, p, c, id).value.data, index.fields));
            var tokens := e.tokenize(text);
            && term in tokens
            && st[PostKey(p, c, name, term, id)]
                 == PostVal(multiset(tokens)[term], if |tokens| <= 4294967295 then |tokens| else 4294967295)
  {
    var k := PostKey(p, c, name, term, id);
    assert Look(st, k) == Expected(e, st, k);
    Filling.IndexedText(index.fields, DocAt(st, p, c, id).value.data);
  }

  /** On a quiescent store with agreeing indexes the argument of every logarithm exceeds one, every text score is
      positive, and exactly the documents that contain a query term are scored. */
  lemma {:induction false} TextScoresPositive(e: Env, st: Store, p: Bytes, c: Bytes, name: Bytes, terms: seq<Bytes>,
                                              index: SearchIndexDef, ln: real -> real)
    requires EntriesAgree(e, st) && StatsCurrent(e, st, p, c, name) && FewDocs(st, p, c)
    requires CollectionAt(st, p, c).Some? && FindSearch(CollectionAt(st, p, c).value.searchIndexes, name) == Some(index)
    requires forall x | x > 1.0 :: ln(x) > 0.0
    ensures var stats := StatsAt(st, p, c, name);
            var scores := TextScores(Still(st), p, c, name, stats, terms, ln);
            && stats.nDocs == |Ids(st, p, c)|
            && (forall i | 0 <= i < |terms| :: IdfArgument(stats.nDocs, |Postings(st, p, c, name, terms[i])|) > 1.0)
            && (forall id | id in scores :: scores[id] > 0.0)
            && (forall id :: id in scores <==>
                  DocAt(st, p, c, id).Some? && HasTerm(e, index, DocAt(st, p, c, id).value.data, terms))
  {
    hide Postings, IdfArgument, TermScore, TermsIn, AddTerm, HasTerm, ExactStats, FewDocs, EntriesAgree;
    hide StatsCurrent, CollectionAt, DocAt;
    ExactCount(e, st, p, c, name, index);
    if terms == [] {
      NoTerms(e, index);
    } else {
      var n := |terms| - 1;
      TextScoresPositive(e, st, p, c, name, terms[..n], index, ln);
      OneMoreTerm(e, st, p, c, name, terms, index, ln);
      forall i | 0 <= i < |terms|
        ensures IdfArgument(StatsAt(st, p, c, name).nDocs, |Postings(st, p, c, name, terms[i])|) > 1.0
      {
        if i < n { assert terms[..n][i] == terms[i]; }
      }
    }
  }

  lemma NoTerms(e: Env, index: SearchIndexDef)
    ensures forall data :: !HasTerm(e, index, data, [])
  {}

  lemma OneMoreTerm(e: Env, st: Store, p: Bytes, c: Bytes, name: Bytes, terms: seq<Bytes>, index: SearchIndexDef,
                    ln: real -> real)
    requires EntriesAgree(e, st) && terms != [] && StatsAt(st, p, c, name).nDocs == |Ids(st, p, c)|
    requires CollectionAt(st, p, c).Some? && FindSearch(CollectionAt(st, p, c).value.searchIndexes, name) == Some(index)
    requires forall x | x > 1.0 :: ln(x) > 0.0
    requires var less := TextScores(Still(st), p, c, name, StatsAt(st, p, c, name), terms[..|terms| - 1], ln);
             && (forall id | id in less :: less[id] > 0.0)
             && (forall id :: id in less <==>
                   DocAt(st, p, c, id).Some? && HasTerm(e, index, DocAt(st, p, c, id).value.data, terms[..|terms| - 1]))
    ensures var stats := StatsAt(st, p, c, name);
            var scores := TextScores(Still(st), p, c, name, stats, terms, ln);
            && IdfArgument(stats.nDocs, |Postings(st, p, c, name, terms[|terms| - 1])|) > 1.0
            && (forall id | id in scores :: scores[id] > 0.0)
            && (forall id :: id in scores <==>
                  DocAt(st, p, c, id).Some? && HasTerm(e, index, DocAt(st, p, c, id).value.data, terms))
  {
    hide Postings, IdfArgument, TermScore, TermsIn, AddTerm, HasTerm, EntriesAgree, CollectionAt, DocAt;
    var n, stats := |terms| - 1, StatsAt(st, p, c, name);
    var postings := Postings(st, p, c, name, terms[n]);
    PostingsAreDocs(e, st, p, c, name, terms[n], index);
    IdfPositive(stats.nDocs, |postings|);
    AvgLenPositive(stats);
    var weight := ln(IdfArgument(stats.nDocs, |postings|));
    forall id | id in postings ensures TermScore(weight, postings[id].tf, postings[id].len, stats.AvgLen()) > 0.0 {
      TermScoreBounds(weight, postings[id].tf, postings[id].len, stats.AvgLen());
    }
    AddTermPositive(TextScores(Still(st), p, c, name, stats, terms[..n], ln), postings, weight, stats.AvgLen());
    forall id | DocAt(st, p, c, id).Some? ensures HasTerm(e, index, DocAt(st, p, c, id).value.data, terms) <==>
      HasTerm(e, index, DocAt(st, p, c, id).value.data, terms[..n])
      || terms[n] in TermsIn(e, index, DocAt(st, p, c, id).value.data).tf
    {
      HasTermSnoc(e, index, DocAt(st, p, c, id).value.data, terms);
    }
  }

  lemma AddTermPositive(scores: map<Bytes, real>, postings: map<Bytes, Posting>, weight: real, avgLen: real)
    requires avgLen > 0.0 && (forall id | id in scores :: scores[id] > 0.0)
    requires forall id | id in postings :: TermScore(weight, postings[id].tf, postings[id].len, avgLen) > 0.0
    ensures var more := AddTerm(scores, postings, weight, avgLen);
            && (forall id | id in more :: more[id] > 0.0) && more.Keys == scores.Keys + postings.Keys
  {
    hide TermScore;
  }

  predicate HasTerm(e: Env, index: SearchIndexDef, data: Data, terms: seq<Bytes>) {
    exists i | 0 <= i < |terms| :: terms[i] in TermsIn(e, index, data).tf
  }

  lemma HasTermSnoc(e: Env, index: SearchIndexDef, data: Data, terms: seq<Bytes>)
    requires terms != []
    ensures HasTerm(e, index, data, terms) <==>
              HasTerm(e, index, data, terms[..|terms| - 1]) || terms[|terms| - 1] in TermsIn(e, index, data).tf
  {
    hide TermsIn;
    var n := |terms| - 1;
    assert terms[n] in terms;
    if HasTerm(e, index, data, terms[..n]) {
      var i :| 0 <= i < n && terms[..n][i] in TermsIn(e, index, data).tf;
      assert terms[i] in TermsIn(e, index, data).tf;
    }
    if HasTerm(e, index, data, terms) {
      var i :| 0 <= i < |terms| && terms[i] in TermsIn(e, index, data).tf;
      if i < n { assert terms[..n][i] == terms[i]; }
    }
  }

  lemma ExactCount(e: Env, st: Store, p: Bytes, c: Bytes, name: Bytes, index: SearchIndexDef)
    requires EntriesAgree(e, st) && StatsCurrent(e, st, p, c, name) && FewDocs(st, p, c)
    requires CollectionAt(st, p, c).Some? && FindSearch(CollectionAt(st, p, c).value.searchIndexes, name) == Some(index)
    ensures StatsAt(st, p, c, name) == ExactStats(e, st, p, c, index)
    ensures StatsAt(st, p, c, name).nDocs == |Ids(st, p, c)|
  {
    hide FewDocs;
    FewDocsFit(e, st, p, c);
    assert FitsStats(ExactStats(e, st, p, c, index));
  }

  /** Where a token first occurs. */
  function FirstAt(tokens: seq<Bytes>, t: Bytes): (n: nat)
    requires t in tokens
    ensures n < |tokens| && tokens[n] == t && forall k | 0 <= k < n :: tokens[k] != t
  {
    if tokens[0] == t then 0
    else 1 + FirstAt(tokens[1..], t)
  }

  /** The distinct tokens, in the order of their first occurrence. */
  ghost predicate AreTerms(tokens: seq<Bytes>, terms: seq<Bytes>) {
    && (forall t :: t in terms <==> t in tokens)
    && forall i, j | 0 <= i < j < |terms| ::
         terms[i] in tokens && terms[j] in tokens && FirstAt(tokens, terms[i]) < FirstAt(tokens, terms[j])
  }

  lemma NewTokenFirst(tokens: seq<Bytes>, i: nat)
    requires i < |tokens| && tokens[i] !in tokens[..i]
    ensures FirstAt(tokens, tokens[i]) == i
  {
    forall k | 0 <= k < i ensures tokens[k] != tokens[i] { assert tokens[k] == tokens[..i][k]; }
  }

  /** The terms of the first `n` tokens. */
  ghost predicate TermsSoFar(tokens: seq<Bytes>, n: nat, terms: seq<Bytes>)
    requires n <= |tokens|
  {
    && (forall t :: t in terms <==> t in tokens[..n])
    && (forall t | t in terms :: t in tokens && FirstAt(tokens, t) < n)
    && forall i, j | 0 <= i < j < |terms| ::
         terms[i] in tokens && terms[j] in tokens && FirstAt(tokens, terms[i]) < FirstAt(tokens, terms[j])
  }

  lemma NextToken(tokens: seq<Bytes>, n: nat, terms: seq<Bytes>)
    requires n < |tokens| && TermsSoFar(tokens, n, terms)
    ensures TermsSoFar(tokens, n + 1, if tokens[n] in terms then terms else terms + [tokens[n]])
  {
    hide FirstAt;
    assert tokens[..n + 1] == tokens[..n] + [tokens[n]];
    if tokens[n] !in terms {
      NewTokenFirst(tokens, n);
      var more := terms + [tokens[n]];
      forall i, j | 0 <= i < j < |more|
        ensures more[i] in tokens && more[j] in tokens && FirstAt(tokens, more[i]) < FirstAt(tokens, more[j])
      {
        assert more[i] == terms[i] && terms[i] in terms;
      }
    }
  }

  /** The distinct tokens of a query, in first-seen order: the order their scores are accumulated in. */
  method QueryTerms(e: Env, query: Bytes) returns (terms: seq<Bytes>)
    ensures AreTerms(e.tokenize(query), terms)
  {
    hide FirstAt;
    var tokens := e.tokenize(query);
    terms := [];
    for i := 0 to |tokens|
      invariant TermsSoFar(tokens, i, terms)
    {
      hide TermsSoFar;
      NextToken(tokens, i, terms);
      if tokens[i] !in terms { terms := terms + [tokens[i]]; }
    }
    assert tokens[..|tokens|] == tokens;
  }

  // ---- Vector ranking ----

  type Similarity = (seq<bits32>, seq<bits32>) -> real

  function VectorScores(vectors: Machine.VectorSet, query: seq<bits32>, sim: Similarity): map<Bytes, real> {
    map id | id in vectors :: sim(query, vectors[id])
  }

  /** Ids in key order, as the ordered scan yields them. */
  method IdsInOrder(ids: set<Bytes>) returns (t: seq<Bytes>)
    ensures t == Ascending(ids)
  {
    t := [];
    var left := ids;
    while left != {}
      invariant Ascending(ids) == t + Ascending(left)
      decreases left
    {
      LeastIs(left);
      var m :| m in left && IsLeast(left, m);
      AscendingFirst(left, m);
      t := t + [m];
      left := left - {m};
    }
  }

  function HitsOf(ids: seq<Bytes>, found: seq<Vectors.Candidate>): seq<Hit>
    requires forall c | c in found :: c.position < |ids|
  {
    seq(|found|, i requires 0 <= i < |found| => assert found[i] in found; Hit(ids[found[i].position], found[i].score))
  }

  /** Brute-force nearest neighbours: the bounded heap over positions in key order gives the first `depth` of all
      vectors by score, then id. */
  method VectorRanked(vectors: Machine.VectorSet, query: seq<bits32>, depth: nat,
                      sim: Similarity) returns (ranked: seq<Hit>)
    ensures ranked == TakeHits(Ranking(VectorScores(vectors, query, sim)), depth)
  {
    hide Ascending, Ranking, Vectors.Ranking, VectorScores;
    var ids := IdsInOrder(vectors.Keys);
    AscendingMeans(vectors.Keys);
    var scores := seq(|ids|, i requires 0 <= i < |ids| => assert ids[i] in ids; sim(query, vectors[ids[i]]));
    var found := Vectors.TopK(scores, depth);
    Vectors.RankingOrdersAll(scores);
    PositionsRankAsIds(vectors, query, sim, ids, scores);
    ghost var all := Vectors.Ranking(scores);
    assert forall c | c in found :: c in all;
    ranked := HitsOf(ids, found);
    assert ranked == TakeHits(HitsOf(ids, all), depth);
  }

  ghost predicate Lined(vectors: Machine.VectorSet, query: seq<bits32>, sim: Similarity, ids: seq<Bytes>,
                        scores: seq<real>) {
    && Up(ids) && |scores| == |ids| && (forall x :: x in ids <==> x in vectors)
    && forall i | 0 <= i < |ids| :: ids[i] in vectors && scores[i] == sim(query, vectors[ids[i]])
  }

  /** Earlier positions are smaller ids, so ranking positions ranks ids. */
  lemma PositionsInOrder(vectors: Machine.VectorSet, query: seq<bits32>, sim: Similarity, ids: seq<Bytes>,
                         scores: seq<real>)
    requires Lined(vectors, query, sim, ids, scores)
    ensures forall c | c in Vectors.Ranking(scores) :: c.position < |ids|
    ensures InOrder(HitsOf(ids, Vectors.Ranking(scores)))
  {
    Vectors.RankingOrdersAll(scores);
    hide Vectors.Ranking;
    var all := Vectors.Ranking(scores);
    var hits := HitsOf(ids, all);
    forall i, j | 0 <= i < j < |hits| ensures Ahead(hits[i], hits[j]) {
      assert Vectors.Better(all[i], all[j]);
      assert all[i] in all && all[j] in all;
    }
  }

  lemma PositionsCover(vectors: Machine.VectorSet, query: seq<bits32>, sim: Similarity, ids: seq<Bytes>,
                       scores: seq<real>, h: Hit)
    requires Lined(vectors, query, sim, ids, scores)
    requires forall c | c in Vectors.Ranking(scores) :: c.position < |ids|
    ensures h in HitsOf(ids, Vectors.Ranking(scores)) <==> IsItem(VectorScores(vectors, query, sim), h)
  {
    Vectors.RankingOrdersAll(scores);
    hide Vectors.Ranking, Up;
    var all := Vectors.Ranking(scores);
    var hits := HitsOf(ids, all);
    if h in hits {
      var i :| 0 <= i < |hits| && hits[i] == h;
      assert all[i] in all;
    }
    if IsItem(VectorScores(vectors, query, sim), h) {
      assert h.id in ids;
      var k :| 0 <= k < |ids| && ids[k] == h.id;
      assert Vectors.Candidate(scores[k], k) in all;
      var i :| 0 <= i < |all| && all[i] == Vectors.Candidate(scores[k], k);
      assert hits[i] == h;
    }
  }

  lemma PositionsRankAsIds(vectors: Machine.VectorSet, query: seq<bits32>, sim: Similarity, ids: seq<Bytes>,
                           scores: seq<real>)
    requires ids == Ascending(vectors.Keys) && |scores| == |ids|
    requires forall i | 0 <= i < |ids| :: ids[i] in vectors && scores[i] == sim(query, vectors[ids[i]])
    ensures forall c | c in Vectors.Ranking(scores) :: c.position < |ids|
    ensures HitsOf(ids, Vectors.Ranking(scores)) == Ranking(VectorScores(vectors, query, sim))
  {
    hide Vectors.Ranking, Ascending, InOrder, IsItem, VectorScores, HitsOf;
    AscendingMeans(vectors.Keys);
    PositionsInOrder(vectors, query, sim, ids, scores);
    var hits := HitsOf(ids, Vectors.Ranking(scores));
    forall h ensures h in hits <==> IsItem(VectorScores(vectors, query, sim), h) {
      PositionsCover(vectors, query, sim, ids, scores, h);
    }
    RankingUnique(VectorScores(vectors, query, sim), hits);
  }

  // ---- From hits to documents ----

  /** A filter names the bound fields and their values. */
  datatype Filter = Filter(bound: seq<Bytes>, params: Data)
  /** Vector-only hits are scored again from the document that comes back. */
  datatype Rescore = Rescore(index: VectorIndexDef, query: seq<bits32>)
  datatype Match = Match(doc: Document, score: real)

  /** What a hit becomes: dropped when its document is gone, fails the filter or has lost its vector. */
  function Resolve(e: Env, st: Store, p: Bytes, c: Bytes, filter: Option<Filter>, rescore: Option<Rescore>,
                   sim: Similarity, hit: Hit): Option<Match> {
    match DocAt(st, p, c, hit.id)
    case None => None
    case Some(doc) =>
      if filter.Some? && !MatchesParams(e, filter.value.bound, filter.value.params, doc.data) then None
      else if rescore.None? then Some(Match(doc, hit.score))
      else match Vectors.DocVector(e, doc.data, rescore.value.index.field, rescore.value.index.dims)
        case None => None
        case Some(v) => Some(Match(doc, sim(rescore.value.query, v)))
  }

  /** The i-th candidate is fetched at the i-th moment. */
  function ResolveAll(e: Env, at: Moments, p: Bytes, c: Bytes, filter: Option<Filter>, rescore: Option<Rescore>,
                      sim: Similarity, ranked: seq<Hit>): seq<Match> {
    if ranked == [] then []
    else
      var n := |ranked| - 1;
      ResolveAll(e, at, p, c, filter, rescore, sim, ranked[..n])
      + match Resolve(e, at(n), p, c, filter, rescore, sim, ranked[n]) case None => [] case Some(found) => [found]
  }

  lemma {:induction false} ResolveAllGrows(e: Env, at: Moments, p: Bytes, c: Bytes, filter: Option<Filter>,
                                           rescore: Option<Rescore>, sim: Similarity, ranked: seq<Hit>, n: nat)
    requires n <= |ranked|
    ensures ResolveAll(e, at, p, c, filter, rescore, sim, ranked[..n])
            <= ResolveAll(e, at, p, c, filter, rescore, sim, ranked)
  {
    if n < |ranked| {
      var m := |ranked| - 1;
      ResolveAllGrows(e, at, p, c, filter, rescore, sim, ranked[..m], n);
      assert ranked[..m][..n] == ranked[..n];
    } else {
      assert ranked[..n] == ranked;
    }
  }

  lemma ResolveAllSnoc(e: Env, at: Moments, p: Bytes, c: Bytes, filter: Option<Filter>, rescore: Option<Rescore>,
                       sim: Similarity, ranked: seq<Hit>, i: nat)
    requires i < |ranked|
    ensures ResolveAll(e, at, p, c, filter, rescore, sim, ranked[..i + 1]) ==
            ResolveAll(e, at, p, c, filter, rescore, sim, ranked[..i])
            + match Resolve(e, at(i), p, c, filter, rescore, sim, ranked[i]) case None => [] case Some(found) => [found]
  {
    assert ranked[..i + 1][..i] == ranked[..i] && ranked[..i + 1][i] == ranked[i];
  }

  /** Walk the ranking until the page is full. */
  method Collect(e: Env, at: Moments, p: Bytes, c: Bytes, filter: Option<Filter>, rescore: Option<Rescore>,
                 sim: Similarity, ranked: seq<Hit>, limit: nat)
    returns (docs: seq<Match>)
    ensures docs == TakeHits(ResolveAll(e, at, p, c, filter, rescore, sim, ranked), limit)
  {
    hide Resolve;
    docs := [];
    var i := 0;
    while i < |ranked| && |docs| < limit
      invariant i <= |ranked| && |docs| <= limit
      invariant docs == ResolveAll(e, at, p, c, filter, rescore, sim, ranked[..i])
    {
      ResolveAllSnoc(e, at, p, c, filter, rescore, sim, ranked, i);
      match Resolve(e, at(i), p, c, filter, rescore, sim, ranked[i]) {
        case Some(found) => docs := docs + [found];
        case None =>
      }
      i := i + 1;
    }
    ResolveAllGrows(e, at, p, c, filter, rescore, sim, ranked, i);
    assert ranked[..|ranked|] == ranked;
  }

  function AsHits(docs: seq<Match>): (t: seq<Hit>)
    ensures |t| == |docs|
  {
    seq(|docs|, i requires 0 <= i < |docs| => Hit(docs[i].doc.id, docs[i].score))
  }

  predicate Settled(docs: seq<Match>) {
    forall i, j | 0 <= i < j < |docs| :: !Ahead(HitOf(docs[j]), HitOf(docs[i]))
  }

  function HitOf(found: Match): Hit { Hit(found.doc.id, found.score) }

  /** A stable sort by score and id; what is in order already stays as it is. */
  method SortFound(docs: seq<Match>) returns (sorted: seq<Match>)
    ensures Settled(sorted) && multiset(sorted) == multiset(docs)
    ensures InOrder(AsHits(docs)) ==> sorted == docs
  {
    hide Settled, InOrder;
    EmptySettled();
    sorted := [];
    for i := 0 to |docs|
      invariant multiset(sorted) == multiset(docs[..i]) && Settled(sorted)
      invariant InOrder(AsHits(docs)) ==> sorted == docs[..i]
    {
      assert docs[..i + 1] == docs[..i] + [docs[i]];
      if i > 0 { NeverBoth(docs, i); }
      sorted := InsertFound(sorted, docs[i]);
    }
    assert docs[..|docs|] == docs;
  }

  lemma EmptySettled()
    ensures Settled([])
  {}

  method InsertFound(sorted: seq<Match>, x: Match) returns (out: seq<Match>)
    requires Settled(sorted)
    ensures Settled(out) && multiset(out) == multiset(sorted) + multiset{x}
    ensures sorted == [] || !Ahead(HitOf(x), HitOf(sorted[|sorted| - 1])) ==> out == sorted + [x]
  {
    var at := |sorted|;
    while at > 0 && Ahead(HitOf(x), HitOf(sorted[at - 1]))
      invariant 0 <= at <= |sorted|
      invariant forall j | at <= j < |sorted| :: Ahead(HitOf(x), HitOf(sorted[j]))
    {
      at := at - 1;
    }
    InsertSettled(sorted, at, x);
    assert sorted == sorted[..at] + sorted[at..];
    out := sorted[..at] + [x] + sorted[at..];
  }

  lemma NeverBoth(docs: seq<Match>, i: nat)
    requires 0 < i < |docs|
    ensures InOrder(AsHits(docs)) ==> !Ahead(HitOf(docs[i]), HitOf(docs[i - 1]))
  {
    assert InOrder(AsHits(docs)) ==> Ahead(AsHits(docs)[i - 1], AsHits(docs)[i]);
    LessTrichotomy(docs[i].doc.id, docs[i - 1].doc.id);
  }

  lemma InsertSettled(sorted: seq<Match>, at: nat, x: Match)
    requires Settled(sorted) && at <= |sorted|
    requires forall j | at <= j < |sorted| :: Ahead(HitOf(x), HitOf(sorted[j]))
    requires at > 0 ==> !Ahead(HitOf(x), HitOf(sorted[at - 1]))
    ensures Settled(sorted[..at] + [x] + sorted[at..])
  {
    var t := sorted[..at] + [x] + sorted[at..];
    forall i, j | 0 <= i < j < |t| ensures !Ahead(HitOf(t[j]), HitOf(t[i])) {
      if j == at {
        AheadTotal(HitOf(sorted[at - 1]), HitOf(sorted[i]));
        AheadTotal(HitOf(x), HitOf(sorted[at - 1]));
        if i < at - 1 { NotAheadTransitive(HitOf(sorted[i]), HitOf(sorted[at - 1]), HitOf(x)); }
      } else if i == at {
        var k := j - 1;
        assert t[j] == sorted[k];
        NeverAheadBack(HitOf(x), HitOf(sorted[k]));
      } else {
        var a, b := if i < at then i else i - 1, if j < at then j else j - 1;
        assert t[i] == sorted[a] && t[j] == sorted[b];
      }
    }
  }

  lemma NeverAheadBack(a: Hit, b: Hit)
    requires Ahead(a, b)
    ensures !Ahead(b, a)
  {
    LessTrichotomy(a.id, b.id);
  }

  /** If `b` is not ahead of `a` and `c` is not ahead of `b`, then `c` is not ahead of `a`. */
  lemma NotAheadTransitive(a: Hit, b: Hit, c: Hit)
    requires !Ahead(b, a) && !Ahead(c, b)
    ensures !Ahead(c, a)
  {
    AheadTotal(a, b);
    AheadTotal(b, c);
    if Ahead(a, b) && Ahead(b, c) { AheadTransitive(a, b, c); NeverAheadBack(a, c); }
    if Ahead(a, b) && b == c { NeverAheadBack(a, b); }
  }

  // ---- An unfiltered vector search on a quiescent store ----

  /** Under agreement a scanned vector is its document's own, so scoring again changes nothing and drops nothing. */
  lemma RescoringChangesNothing(e: Env, st: Store, p: Bytes, c: Bytes, vidx: VectorIndexDef, vectors: Machine.VectorSet,
                                query: seq<bits32>, sim: Similarity, hit: Hit)
    requires EntriesAgree(e, st) && CollectionAt(st, p, c).Some?
    requires FindVector(CollectionAt(st, p, c).value.vectorIndexes, vidx.name) == Some(vidx)
    requires Coherence.IsScan(st, Machine.CacheKey(p, c, vidx.name), vectors)
    requires IsItem(VectorScores(vectors, query, sim), hit)
    ensures DocAt(st, p, c, hit.id).Some? && DocAt(st, p, c, hit.id).value.id == hit.id
    ensures Resolve(e, st, p, c, None, Some(Rescore(vidx, query)), sim, hit)
              == Some(Match(DocAt(st, p, c, hit.id).value, hit.score))
  {
    var k := VecKey(p, c, vidx.name, hit.id);
    assert Coherence.Entry(vectors, hit.id) == VecAt(st, p, c, vidx.name, hit.id);
    assert Look(st, k) == Expected(e, st, k);
    assert DocKey(p, c, hit.id) in st;
  }

  lemma {:induction false} ResolvesInStep(e: Env, st: Store, p: Bytes, c: Bytes, vidx: VectorIndexDef,
                                          vectors: Machine.VectorSet,
                                          query: seq<bits32>, sim: Similarity, ranked: seq<Hit>)
    requires EntriesAgree(e, st) && CollectionAt(st, p, c).Some?
    requires FindVector(CollectionAt(st, p, c).value.vectorIndexes, vidx.name) == Some(vidx)
    requires Coherence.IsScan(st, Machine.CacheKey(p, c, vidx.name), vectors)
    requires forall h | h in ranked :: IsItem(VectorScores(vectors, query, sim), h)
    ensures var found := ResolveAll(e, Still(st), p, c, None, Some(Rescore(vidx, query)), sim, ranked);
            AsHits(found) == ranked && forall i | 0 <= i < |found| ::
              DocAt(st, p, c, found[i].doc.id) == Some(found[i].doc)
  {
    hide EntriesAgree, Coherence.IsScan, VectorScores;
    if ranked != [] {
      var n := |ranked| - 1;
      assert ranked[n] in ranked;
      ResolvesInStep(e, st, p, c, vidx, vectors, query, sim, ranked[..n]);
      RescoringChangesNothing(e, st, p, c, vidx, vectors, query, sim, ranked[n]);
      assert ranked == ranked[..n] + [ranked[n]];
    }
  }

  /** An unfiltered vector search: candidates from the scanned set, documents fetched and scored again, sorted. It
      returns exactly the best `limit` documents of the index by score and then id, each as stored. */
  method VectorSearch(e: Env, st: Store, p: Bytes, c: Bytes, vidx: VectorIndexDef, vectors: Machine.VectorSet,
                      query: seq<bits32>,
                      limit: nat, sim: Similarity) returns (docs: seq<Match>)
    requires EntriesAgree(e, st) && CollectionAt(st, p, c).Some?
    requires FindVector(CollectionAt(st, p, c).value.vectorIndexes, vidx.name) == Some(vidx)
    requires Coherence.IsScan(st, Machine.CacheKey(p, c, vidx.name), vectors)
    ensures AsHits(docs) == TakeHits(Ranking(IndexScores(e, st, p, c, vidx, query, sim)), limit)
    ensures forall i | 0 <= i < |docs| :: DocAt(st, p, c, docs[i].doc.id) == Some(docs[i].doc)
  {
    hide EntriesAgree, Coherence.IsScan, VectorScores, IndexScores, Ranking, ResolveAll, IsItem;
    var ranked := VectorRanked(vectors, query, limit, sim);
    ghost var all := Ranking(VectorScores(vectors, query, sim));
    RankingMeans(VectorScores(vectors, query, sim));
    assert forall h | h in ranked :: h in all;
    assert InOrder(ranked);
    ResolvesInStep(e, st, p, c, vidx, vectors, query, sim, ranked);
    docs := Collect(e, Still(st), p, c, None, Some(Rescore(vidx, query)), sim, ranked, limit);
    assert AsHits(docs) == ranked;
    docs := SortFound(docs);
    ScansScore(e, st, p, c, vidx, vectors, query, sim);
  }

  /** The scores of all documents that have a vector under the index, read from the documents themselves. */
  function IndexScores(e: Env, st: Store, p: Bytes, c: Bytes, vidx: VectorIndexDef, query: seq<bits32>,
                       sim: Similarity): map<Bytes, real> {
    map id
      | id in Ids(st, p, c) && DocAt(st, p, c, id).Some?
        && Vectors.DocVector(e, DocAt(st, p, c, id).value.data, vidx.field, vidx.dims).Some?
      :: sim(query, Vectors.DocVector(e, DocAt(st, p, c, id).value.data, vidx.field, vidx.dims).value)
  }

  lemma ScansScore(e: Env, st: Store, p: Bytes, c: Bytes, vidx: VectorIndexDef, vectors: Machine.VectorSet,
                   query: seq<bits32>, sim: Similarity)
    requires EntriesAgree(e, st) && CollectionAt(st, p, c).Some?
    requires FindVector(CollectionAt(st, p, c).value.vectorIndexes, vidx.name) == Some(vidx)
    requires Coherence.IsScan(st, Machine.CacheKey(p, c, vidx.name), vectors)
    ensures VectorScores(vectors, query, sim) == IndexScores(e, st, p, c, vidx, query, sim)
  {
    var a, b := VectorScores(vectors, query, sim), IndexScores(e, st, p, c, vidx, query, sim);
    forall id ensures (id in a <==> id in b) && (id in a ==> a[id] == b[id]) {
      var k := VecKey(p, c, vidx.name, id);
      assert Coherence.Entry(vectors, id) == VecAt(st, p, c, vidx.name, id);
      assert Look(st, k) == Expected(e, st, k);
      IdsAreDocs(st, p, c, id);
    }
    assert a.Keys == b.Keys;
  }

  // ---- The whole request ----

  const OVERFETCH: nat := 4
  const MAX_SIZE: nat := 0xFFFF_FFFF_FFFF_FFFF

  datatype FilterParam = FilterParam(index: Bytes, params: Data)

  /** Which of `query` and `vector` is set picks the mode; index names default to the collection's first. */
  datatype Params = Params(query: Option<Bytes>, vector: Option<seq<bits32>>, textIndex: Option<Bytes>,
                           vectorIndex: Option<Bytes>,
                           filter: Option<FilterParam>, limit: nat)

  datatype Response = Hits(docs: seq<Match>) | Rejected

  function TextIndexOf(cs: CollectionSchema, name: Option<Bytes>): Option<SearchIndexDef> {
    if name.Some? then FindSearch(cs.searchIndexes, name.value)
    else if cs.searchIndexes == [] then None else Some(cs.searchIndexes[0])
  }

  function VectorIndexOf(cs: CollectionSchema, name: Option<Bytes>): Option<VectorIndexDef> {
    if name.Some? then FindVector(cs.vectorIndexes, name.value)
    else if cs.vectorIndexes == [] then None else Some(cs.vectorIndexes[0])
  }

  function FilterOf(cs: CollectionSchema, filter: Option<FilterParam>): Option<Option<Filter>> {
    match filter
    case None => Some(None)
    case Some(f) =>
      match FindIndex(cs.indexes, f.index)
      case None => None
      case Some(index) =>
        match BoundFields(index, f.params)
        case None => None
        case Some(bound) => Some(Some(Filter(bound, f.params)))
  }

  /** A name picks the index declared under it; without one the first declared is used. */
  lemma ChosenIndex(cs: CollectionSchema, name: Option<Bytes>)
    ensures var text, near := TextIndexOf(cs, name), VectorIndexOf(cs, name);
            && (name.None? ==>
                  && text == (if |cs.searchIndexes| > 0 then Some(cs.searchIndexes[0]) else None)
                  && near == (if |cs.vectorIndexes| > 0 then Some(cs.vectorIndexes[0]) else None))
            && (name.Some? && UniqueNames(cs) ==>
                  && (forall i | 0 <= i < |cs.searchIndexes| && cs.searchIndexes[i].name == name.value ::
                        text == Some(cs.searchIndexes[i]))
                  && (forall i | 0 <= i < |cs.vectorIndexes| && cs.vectorIndexes[i].name == name.value ::
                        near == Some(cs.vectorIndexes[i])))
            && (name.Some? && text.Some? ==> text.value in cs.searchIndexes && text.value.name == name.value)
            && (name.Some? && near.Some? ==> near.value in cs.vectorIndexes && near.value.name == name.value)
  {
    if name.Some? {
      FoundSearch(cs.searchIndexes, name.value);
      FoundVector(cs.vectorIndexes, name.value);
      if UniqueNames(cs) {
        forall i | 0 <= i < |cs.searchIndexes| && cs.searchIndexes[i].name == name.value
          ensures TextIndexOf(cs, name) == Some(cs.searchIndexes[i])
        {
          FindsSearch(cs.searchIndexes, i);
        }
        forall i | 0 <= i < |cs.vectorIndexes| && cs.vectorIndexes[i].name == name.value
          ensures VectorIndexOf(cs, name) == Some(cs.vectorIndexes[i])
        {
          FindsVector(cs.vectorIndexes, i);
        }
      }
    }
  }

  /** What a filter demands of a document: the value of each parameter bound, which is every parameter where the index
      lists no field twice. */
  predicate Satisfies(e: Env, cs: CollectionSchema, filter: FilterParam, data: Data) {
    exists i | 0 <= i < |cs.indexes| ::
      && cs.indexes[i].name == filter.index && Binds(cs.indexes[i].fields, filter.params)
      && (forall j | 0 <= j < |filter.params| ::
            ValueEq(e, Get(data, cs.indexes[i].fields[j]), Some(filter.params[cs.indexes[i].fields[j]])))
      && (Distinct(cs.indexes[i].fields) ==> MatchesAll(e, filter.params, data))
  }

  /** A filter fits exactly if the index it names binds its parameters. */
  lemma FilterFits(cs: CollectionSchema, f: FilterParam)
    ensures FilterOf(cs, Some(f)).Some? <==>
              FindIndex(cs.indexes, f.index).Some? && Binds(FindIndex(cs.indexes, f.index).value.fields, f.params)
    ensures FilterOf(cs, None) == Some(None)
  {
    if FindIndex(cs.indexes, f.index).Some? { BoundIffBinds(FindIndex(cs.indexes, f.index).value, f.params); }
  }

  lemma FilterSatisfied(e: Env, st: Store, p: Bytes, c: Bytes, cs: CollectionSchema, q: Params,
                        rescore: Option<Rescore>, sim: Similarity, hit: Hit, found: Match)
    requires FilterOf(cs, q.filter).Some? && q.filter.Some?
    requires FoundAt(e, st, p, c, FilterOf(cs, q.filter).value, rescore, sim, hit, found)
    ensures Satisfies(e, cs, q.filter.value, found.doc.data)
  {
    hide ValueEq, MatchesAll, Distinct;
    var f := q.filter.value;
    FoundIndex(cs.indexes, f.index);
    var index := FindIndex(cs.indexes, f.index).value;
    var i :| 0 <= i < |cs.indexes| && cs.indexes[i] == index && cs.indexes[i].name == f.index;
    BoundIffBinds(index, f.params);
    var bound := index.fields[..|f.params|];
    assert MatchesParams(e, bound, f.params, found.doc.data);
    forall j | 0 <= j < |f.params|
      ensures ValueEq(e, Get(found.doc.data, index.fields[j]), Some(f.params[index.fields[j]]))
    {
      assert bound[j] == index.fields[j];
    }
    if Distinct(index.fields) { BoundMatchIsAll(e, index.fields, f.params, found.doc.data); }
  }

  /** A request is answered exactly when it asks for something and everything it names exists and fits. */
  predicate Answerable(cs: Option<CollectionSchema>, q: Params) {
    && cs.Some? && FilterOf(cs.value, q.filter).Some? && (q.query.Some? || q.vector.Some?)
    && (q.query.Some? ==> TextIndexOf(cs.value, q.textIndex).Some?)
    && (q.vector.Some? ==>
          && VectorIndexOf(cs.value, q.vectorIndex).Some?
          && |q.vector.value| == VectorIndexOf(cs.value, q.vectorIndex).value.dims)
  }

  /** Filtering drops hits after retrieval and fusion rewards depth, so both look four times as deep. */
  function DepthOf(q: Params): nat {
    if (q.query.Some? && q.vector.Some?) || q.filter.Some? then Min(q.limit * OVERFETCH, MAX_SIZE) else q.limit
  }

  /** As deep as the page for a plain search, four times as deep with both arms or a filter, as far as 64 bits go. */
  lemma DepthMeans(q: Params)
    ensures DepthOf(q) ==
            if q.filter.None? && (q.query.None? || q.vector.None?) then q.limit
            else if 4 * q.limit <= 18446744073709551615 then 4 * q.limit else 18446744073709551615
  {}

  /** When a request reads: its schema, its statistics, each term's postings, each candidate's document. Writers may
      change the store in between. */
  datatype Reads = Reads(schema: Store, stats: Store, scan: Moments, fetch: Moments)

  ghost function TextArm(at: Reads, p: Bytes, c: Bytes, name: Bytes, terms: seq<Bytes>, depth: nat,
                         ln: real -> real): seq<Hit> {
    var stats := StatsAt(at.stats, p, c, name);
    if terms == [] || stats.nDocs == 0 then []
    else TakeHits(Ranking(TextScores(at.scan, p, c, name, stats, terms, ln)), depth)
  }

  ghost function VectorArm(vectors: Machine.VectorSet, query: seq<bits32>, depth: nat, sim: Similarity): seq<Hit> {
    TakeHits(Ranking(VectorScores(vectors, query, sim)), depth)
  }

  /** Each candidate list of an arm names a document at most once. */
  lemma ArmDistinct(scores: map<Bytes, real>, depth: nat)
    ensures DistinctIds(TakeHits(Ranking(scores), depth))
  {
    hide Ranking;
    RankingMeans(scores);
    var all := Ranking(scores);
    forall i, j | 0 <= i < j < |all| ensures all[i].id != all[j].id {
      assert Ahead(all[i], all[j]) && all[i] in all && all[j] in all;
      AheadTotal(all[i], all[i]);
    }
  }

  /** The candidates of a request, best first. */
  ghost function Candidates(at: Reads, p: Bytes, c: Bytes, cs: CollectionSchema, q: Params, terms: seq<Bytes>,
                            vectors: Machine.VectorSet,
                            ln: real -> real, sim: Similarity): seq<Hit>
    requires Answerable(Some(cs), q)
  {
    var text := if q.query.None? then []
                else TextArm(at, p, c, TextIndexOf(cs, q.textIndex).value.name, terms, DepthOf(q), ln);
    var near := if q.vector.Some? then VectorArm(vectors, q.vector.value, DepthOf(q), sim) else [];
    if q.vector.None? then text else if q.query.None? then near else Ranking(Fused(text, near))
  }

  /** The candidates of a text search are the best documents by the sum of what the terms add; of a vector search the
      ones most similar to the query; of a hybrid one those of either arm, by their reciprocal ranks. */
  lemma CandidatesAreBest(at: Reads, p: Bytes, c: Bytes, cs: CollectionSchema, q: Params, terms: seq<Bytes>,
                          vectors: Machine.VectorSet, ln: real -> real, sim: Similarity)
    requires Answerable(Some(cs), q)
    ensures var ranked := Candidates(at, p, c, cs, q, terms, vectors, ln, sim);
            && (q.vector.None? ==> BestByText(at, p, c, cs, q, terms, ln, ranked))
            && (q.query.None? ==> BestByVector(vectors, q, sim, ranked))
            && (q.query.Some? && q.vector.Some? ==>
                  exists text, near ::
                    && BestByText(at, p, c, cs, q, terms, ln, text) && BestByVector(vectors, q, sim, near)
                    && AreBest(ranked, |ranked|, (iset id | id in IdsIn(text) || id in IdsIn(near)),
                               id => Worth(text, id) + Worth(near, id)))
  {
    hide AreBest, Ranking, Total, PostedAny, TextScores, VectorScores, Worth, IdsIn, DepthOf, TextIndexOf;
    var depth, ranked := DepthOf(q), Candidates(at, p, c, cs, q, terms, vectors, ln, sim);
    if q.query.Some? {
      var name := TextIndexOf(cs, q.textIndex).value.name;
      BestTexts(at.scan, p, c, name, StatsAt(at.stats, p, c, name), terms, depth, ln);
      assert BestByText(at, p, c, cs, q, terms, ln, TextArm(at, p, c, name, terms, depth, ln));
    }
    if q.vector.Some? {
      BestVectors(vectors, q.vector.value, depth, sim);
      assert BestByVector(vectors, q, sim, VectorArm(vectors, q.vector.value, depth, sim));
    }
    if q.query.Some? && q.vector.Some? {
      var text := TextArm(at, p, c, TextIndexOf(cs, q.textIndex).value.name, terms, depth, ln);
      var near := VectorArm(vectors, q.vector.value, depth, sim);
      TakenAreBest(Fused(text, near), |ranked|, (iset id | id in IdsIn(text) || id in IdsIn(near)),
                   id => Worth(text, id) + Worth(near, id));
      assert TakeHits(ranked, |ranked|) == ranked;
    }
  }

  ghost predicate BestByText(at: Reads, p: Bytes, c: Bytes, cs: CollectionSchema, q: Params, terms: seq<Bytes>,
                             ln: real -> real, ranked: seq<Hit>)
    requires Answerable(Some(cs), q) && q.query.Some?
  {
    var name := TextIndexOf(cs, q.textIndex).value.name;
    var stats := StatsAt(at.stats, p, c, name);
    if stats.nDocs == 0 then ranked == []
    else
      AreBest(ranked, DepthOf(q), (iset id | PostedAny(at.scan, p, c, name, terms, id)),
              id => Total(at.scan, p, c, name, stats, terms, ln, id))
  }

  ghost predicate BestByVector(vectors: Machine.VectorSet, q: Params, sim: Similarity, ranked: seq<Hit>)
    requires q.vector.Some?
  {
    AreBest(ranked, DepthOf(q), (iset id | id in vectors),
            id => if id in vectors then sim(q.vector.value, vectors[id]) else 0.0)
  }

  lemma BestVectors(vectors: Machine.VectorSet, query: seq<bits32>, depth: nat, sim: Similarity)
    ensures AreBest(VectorArm(vectors, query, depth, sim), depth, (iset id | id in vectors),
                    id => if id in vectors then sim(query, vectors[id]) else 0.0)
  {
    hide AreBest, Ranking;
    TakenAreBest(VectorScores(vectors, query, sim), depth, (iset id | id in vectors),
                 id => if id in vectors then sim(query, vectors[id]) else 0.0);
  }

  function RescoreOf(cs: CollectionSchema, q: Params): Option<Rescore>
    requires Answerable(Some(cs), q)
  {
    if q.vector.Some? && q.query.None? then Some(Rescore(VectorIndexOf(cs, q.vectorIndex).value, q.vector.value))
    else None
  }

  /** Stored as returned at the very moment it was fetched, satisfying the filter, with the score of its candidate or,
      after a vector-only search, of its own vector. */
  predicate FoundAt(e: Env, st: Store, p: Bytes, c: Bytes, filter: Option<Filter>, rescore: Option<Rescore>,
                    sim: Similarity, hit: Hit, found: Match) {
    && DocAt(st, p, c, hit.id) == Some(found.doc)
    && (filter.Some? ==> MatchesParams(e, filter.value.bound, filter.value.params, found.doc.data))
    && if rescore.None? then found.score == hit.score
       else
         var v := Vectors.DocVector(e, found.doc.data, rescore.value.index.field, rescore.value.index.dims);
         v.Some? && found.score == sim(rescore.value.query, v.value)
  }

  /** Whatever comes back was found so, each candidate at its own moment. */
  lemma {:induction false} ResolvedIsStored(e: Env, at: Moments, p: Bytes, c: Bytes, filter: Option<Filter>,
                                            rescore: Option<Rescore>, sim: Similarity, ranked: seq<Hit>, found: Match)
    requires found in ResolveAll(e, at, p, c, filter, rescore, sim, ranked)
    ensures exists i :: 0 <= i < |ranked| && FoundAt(e, at(i), p, c, filter, rescore, sim, ranked[i], found)
  {
    hide FoundAt, Resolve;
    var n := |ranked| - 1;
    if found in ResolveAll(e, at, p, c, filter, rescore, sim, ranked[..n]) {
      ResolvedIsStored(e, at, p, c, filter, rescore, sim, ranked[..n], found);
      var i :| 0 <= i < n && FoundAt(e, at(i), p, c, filter, rescore, sim, ranked[..n][i], found);
      assert ranked[..n][i] == ranked[i];
    } else {
      ResolveExact(e, at(n), p, c, filter, rescore, sim, ranked[n], found);
      assert FoundAt(e, at(n), p, c, filter, rescore, sim, ranked[n], found);
    }
  }

  /** A candidate becomes a result exactly when it is found so. */
  lemma ResolveExact(e: Env, st: Store, p: Bytes, c: Bytes, filter: Option<Filter>, rescore: Option<Rescore>,
                     sim: Similarity, hit: Hit, found: Match)
    ensures Resolve(e, st, p, c, filter, rescore, sim, hit) == Some(found)
       <==> FoundAt(e, st, p, c, filter, rescore, sim, hit, found)
  {}

  /** Nothing found so is left out. */
  lemma {:induction false} FoundIsResolved(e: Env, at: Moments, p: Bytes, c: Bytes, filter: Option<Filter>,
                                           rescore: Option<Rescore>, sim: Similarity, ranked: seq<Hit>, i: nat,
                                           found: Match)
    requires i < |ranked| && FoundAt(e, at(i), p, c, filter, rescore, sim, ranked[i], found)
    ensures found in ResolveAll(e, at, p, c, filter, rescore, sim, ranked)
  {
    hide FoundAt, Resolve;
    var n := |ranked| - 1;
    if i < n {
      assert ranked[..n][i] == ranked[i];
      FoundIsResolved(e, at, p, c, filter, rescore, sim, ranked[..n], i, found);
    } else {
      ResolveExact(e, at(i), p, c, filter, rescore, sim, ranked[i], found);
    }
  }

  lemma TakenAreFound(e: Env, at: Moments, p: Bytes, c: Bytes, filter: Option<Filter>, rescore: Option<Rescore>,
                      sim: Similarity, ranked: seq<Hit>, limit: nat, docs: seq<Match>)
    requires multiset(docs) == multiset(TakeHits(ResolveAll(e, at, p, c, filter, rescore, sim, ranked), limit))
    ensures forall d | d in docs ::
              exists i :: 0 <= i < |ranked| && FoundAt(e, at(i), p, c, filter, rescore, sim, ranked[i], d)
    ensures |docs| <= limit
    ensures |docs| < limit ==>
              forall i, d
                | 0 <= i < |ranked| && FoundAt(e, at(i), p, c, filter, rescore, sim, ranked[i], d)
                :: d in docs
  {
    hide FoundAt, ResolveAll;
    var page := TakeHits(ResolveAll(e, at, p, c, filter, rescore, sim, ranked), limit);
    assert |docs| == |multiset(docs)| == |multiset(page)| == |page|;
    forall i, d
      | |docs| < limit && 0 <= i < |ranked| && FoundAt(e, at(i), p, c, filter, rescore, sim, ranked[i], d)
      ensures d in docs
    {
      FoundIsResolved(e, at, p, c, filter, rescore, sim, ranked, i, d);
      assert d in multiset(page);
    }
    forall d | d in docs
      ensures exists i :: 0 <= i < |ranked| && FoundAt(e, at(i), p, c, filter, rescore, sim, ranked[i], d)
    {
      assert d in multiset(docs);
      assert d in page;
      ResolvedIsStored(e, at, p, c, filter, rescore, sim, ranked, d);
    }
  }

  /** Scored by the document's own vector under the index searched. */
  predicate ScoredByVector(e: Env, cs: CollectionSchema, q: Params, sim: Similarity, d: Match)
    requires q.vector.Some? && VectorIndexOf(cs, q.vectorIndex).Some?
  {
    var index := VectorIndexOf(cs, q.vectorIndex).value;
    var v := Vectors.DocVector(e, d.doc.data, index.field, index.dims);
    v.Some? && d.score == sim(q.vector.value, v.value)
  }

  lemma RightlyScored(e: Env, at: Reads, p: Bytes, c: Bytes, cs: CollectionSchema, q: Params, sim: Similarity,
                      ranked: seq<Hit>, docs: seq<Match>)
    requires Answerable(Some(cs), q)
    requires forall d | d in docs ::
               exists i ::
                 && 0 <= i < |ranked|
                 && FoundAt(e, at.fetch(i), p, c, FilterOf(cs, q.filter).value, RescoreOf(cs, q), sim, ranked[i], d)
    ensures q.query.None? ==> forall d | d in docs :: ScoredByVector(e, cs, q, sim, d)
    ensures q.query.Some? ==> forall d | d in docs :: exists h :: h in ranked && h.score == d.score
  {
    hide VectorIndexOf, FilterOf, Vectors.DocVector, DocAt, MatchesParams;
    forall d | d in docs
      ensures q.query.None? ==> ScoredByVector(e, cs, q, sim, d)
      ensures q.query.Some? ==> exists h :: h in ranked && h.score == d.score
    {
      var i :| 0 <= i < |ranked|
        && FoundAt(e, at.fetch(i), p, c, FilterOf(cs, q.filter).value, RescoreOf(cs, q), sim, ranked[i], d);
      assert ranked[i] in ranked;
    }
  }

  lemma AllSatisfy(e: Env, at: Reads, p: Bytes, c: Bytes, cs: CollectionSchema, q: Params, sim: Similarity,
                   ranked: seq<Hit>, docs: seq<Match>)
    requires Answerable(Some(cs), q) && q.filter.Some?
    requires forall d | d in docs ::
               exists i ::
                 && 0 <= i < |ranked|
                 && FoundAt(e, at.fetch(i), p, c, FilterOf(cs, q.filter).value, RescoreOf(cs, q), sim, ranked[i], d)
    ensures forall d | d in docs :: Satisfies(e, cs, q.filter.value, d.doc.data)
  {
    hide FoundAt, Satisfies;
    forall d | d in docs ensures Satisfies(e, cs, q.filter.value, d.doc.data) {
      var i :| 0 <= i < |ranked|
        && FoundAt(e, at.fetch(i), p, c, FilterOf(cs, q.filter).value, RescoreOf(cs, q), sim, ranked[i], d);
      FilterSatisfied(e, at.fetch(i), p, c, cs, q, RescoreOf(cs, q), sim, ranked[i], d);
    }
  }

  /** Whatever other operations do meanwhile, a document deleted before the request began to fetch is not returned. */
  lemma DeletedIsNotFound(e: Env, s: Machine.State, p: Bytes, c: Bytes, id: Bytes, was: nat, gone: nat, at: Moments,
                          filter: Option<Filter>, rescore: Option<Rescore>, sim: Similarity, ranked: seq<Hit>,
                          found: Match)
    requires Machine.Reachable(e, s) && was < gone <= |s.log| < |s.stores|
    requires DocAt(s.stores[was], p, c, id).Some? && DocAt(s.stores[gone], p, c, id).None?
    requires forall i | 0 <= i < |ranked| :: exists n :: gone <= n <= |s.log| && at(i) == s.stores[n]
    requires found in ResolveAll(e, at, p, c, filter, rescore, sim, ranked)
    ensures found.doc.id != id
  {
    hide Machine.Reachable, ResolveAll, DocAt, Safety.Serial;
    Consistency.ReachableSerial(e, s);
    ResolvedIsStored(e, at, p, c, filter, rescore, sim, ranked, found);
    var i :| 0 <= i < |ranked| && FoundAt(e, at(i), p, c, filter, rescore, sim, ranked[i], found);
    var n :| gone <= n <= |s.log| && at(i) == s.stores[n];
    Agreement.TypedDoc(s.stores[n], p, c, ranked[i].id);
    if found.doc.id == id { Lives.OneLife(e, s, p, c, id, was, gone, n); }
  }

  /** Text, vector or hybrid search. The page holds the first `limit` candidates that resolve; after a vector-only
      search they are in the order of the scores their own documents give. Writers may change the store between any
      two reads: each document returned was stored, and satisfied the filter, at the moment it was fetched; and if the
      page is not full, every candidate of which that is true is on it. */
  method Search(e: Env, at: Reads, p: Bytes, c: Bytes, q: Params, vectors: Machine.VectorSet, ln: real -> real,
                sim: Similarity)
    returns (r: Response, ghost terms: seq<Bytes>)
    ensures r.Hits? <==> Answerable(CollectionAt(at.schema, p, c), q)
    ensures r.Hits? ==>
              var cs := CollectionAt(at.schema, p, c).value;
              var page := TakeHits(ResolveAll(e, at.fetch, p, c, FilterOf(cs, q.filter).value, RescoreOf(cs, q), sim,
                                              Candidates(at, p, c, cs, q, terms, vectors, ln, sim)), q.limit);
              && (RescoreOf(cs, q).None? ==> r.docs == page)
              && (RescoreOf(cs, q).Some? ==> Settled(r.docs) && multiset(r.docs) == multiset(page))
              && (q.query.Some? ==> AreTerms(e.tokenize(q.query.value), terms))
    ensures r.Hits? ==>
              var cs := CollectionAt(at.schema, p, c).value;
              var ranked := Candidates(at, p, c, cs, q, terms, vectors, ln, sim);
              forall d | d in r.docs ::
                exists i ::
                  && 0 <= i < |ranked|
                  && FoundAt(e, at.fetch(i), p, c, FilterOf(cs, q.filter).value, RescoreOf(cs, q), sim, ranked[i], d)
    ensures r.Hits? ==>
              var cs := CollectionAt(at.schema, p, c).value;
              var ranked := Candidates(at, p, c, cs, q, terms, vectors, ln, sim);
              && (q.filter.Some? ==> forall d | d in r.docs :: Satisfies(e, cs, q.filter.value, d.doc.data))
              && |r.docs| <= q.limit
              && (|r.docs| < q.limit ==>
                    forall i, d
                      | 0 <= i < |ranked|
                        && FoundAt(e, at.fetch(i), p, c, FilterOf(cs, q.filter).value, RescoreOf(cs, q), sim, ranked[i],
                                   d)
                      :: d in r.docs)
              && (q.vector.None? ==> BestByText(at, p, c, cs, q, terms, ln, ranked))
              && (q.query.None? ==> BestByVector(vectors, q, sim, ranked))
              && (q.query.None? ==> Settled(r.docs) && forall d | d in r.docs :: ScoredByVector(e, cs, q, sim, d))
              && (q.query.Some? ==> forall d | d in r.docs :: exists h :: h in ranked && h.score == d.score)
  {
    hide Ranking, TextScores, VectorScores, ResolveAll, Fused, FoundAt, Satisfies, BestByText, BestByVector;
    hide AreBest, Total, PostedAny, ScoredByVector, Settled;
    terms := [];
    var coll := CollectionAt(at.schema, p, c);
    if coll.None? { return Rejected, terms; }
    var cs := coll.value;
    var filter := FilterOf(cs, q.filter);
    if filter.None? { return Rejected, terms; }
    var depth := DepthOf(q);
    var ranked: seq<Hit> := [];
    if q.query.Some? {
      var index := TextIndexOf(cs, q.textIndex);
      if index.None? { return Rejected, terms; }
      var words := QueryTerms(e, q.query.value);
      terms := words;
      ranked := TextRanked(at.stats, at.scan, p, c, index.value.name, words, depth, ln);
    }
    if q.vector.Some? {
      var index := VectorIndexOf(cs, q.vectorIndex);
      if index.None? || |q.vector.value| != index.value.dims { return Rejected, terms; }
      var near := VectorRanked(vectors, q.vector.value, depth, sim);
      if q.query.Some? {
        ArmDistinct(VectorScores(vectors, q.vector.value, sim), depth);
        if ranked != [] {
          ghost var name := TextIndexOf(cs, q.textIndex).value.name;
          ArmDistinct(TextScores(at.scan, p, c, name, StatsAt(at.stats, p, c, name), terms, ln), depth);
        }
        ranked := FuseRrf(ranked, near);
      } else {
        ranked := near;
      }
    }
    if q.query.None? && q.vector.None? { return Rejected, terms; }
    assert ranked == Candidates(at, p, c, cs, q, terms, vectors, ln, sim);
    var docs := Collect(e, at.fetch, p, c, filter.value, RescoreOf(cs, q), sim, ranked, q.limit);
    if RescoreOf(cs, q).Some? { docs := SortFound(docs); }
    TakenAreFound(e, at.fetch, p, c, filter.value, RescoreOf(cs, q), sim, ranked, q.limit, docs);
    CandidatesAreBest(at, p, c, cs, q, terms, vectors, ln, sim);
    if q.filter.Some? { AllSatisfy(e, at, p, c, cs, q, sim, ranked, docs); }
    RightlyScored(e, at, p, c, cs, q, sim, ranked, docs);
    return Hits(docs), terms;
  }
}
