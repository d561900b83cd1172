/** Cursor paging: `list` and `query` (server/src/db/equality_indexes.rs) over the ordered byte keys, and what a
    client that follows the cursors gets. */
module Paging {
  import opened ByteStrings
  import opened Values
  import opened Encoding
  import opened Keys
  import opened Stores
  import Rules

  // ---- Ordered sets of byte strings ----

  predicate IsLeast(s: set<Bytes>, m: Bytes) {
    m in s && forall x | x in s && x != m :: Less(m, x)
  }

  ghost function Ascending(s: set<Bytes>): seq<Bytes> {
    if s == {} then []
    else
      LeastIs(s);
      var m :| IsLeast(s, m);
      [m] + Ascending(s - {m})
  }

  lemma LeastIs(s: set<Bytes>)
    requires s != {}
    ensures exists m :: IsLeast(s, m)
  {
    var m := LeastOf(s);
    assert IsLeast(s, m);
  }

  predicate Up(t: seq<Bytes>) {
    forall i, j | 0 <= i < j < |t| :: Less(t[i], t[j])
  }

  lemma {:induction false} AscendingMeans(s: set<Bytes>)
    ensures Up(Ascending(s)) && |Ascending(s)| == |s|
    ensures forall x :: x in Ascending(s) <==> x in s
  {
    if s != {} {
      LeastIs(s);
      var m :| IsLeast(s, m) && Ascending(s) == [m] + Ascending(s - {m});
      var rest := Ascending(s - {m});
      AscendingMeans(s - {m});
      forall j | 0 <= j < |rest| ensures Less(m, rest[j]) { assert rest[j] in rest; }
    }
  }

  lemma LeastUnique(s: set<Bytes>, a: Bytes, b: Bytes)
    requires IsLeast(s, a) && IsLeast(s, b)
    ensures a == b
  {
    LessTrichotomy(a, b);
  }

  lemma AscendingFirst(s: set<Bytes>, m: Bytes)
    requires IsLeast(s, m)
    ensures Ascending(s) == [m] + Ascending(s - {m})
  {
    LeastIs(s);
    var n :| IsLeast(s, n) && Ascending(s) == [n] + Ascending(s - {n});
    LeastUnique(s, m, n);
  }

  /** The only ascending listing of a set. */
  lemma {:induction false} AscendingUnique(s: set<Bytes>, t: seq<Bytes>)
    requires Up(t) && forall x :: x in t <==> x in s
    ensures t == Ascending(s)
  {
    if t == [] {
      assert s == {};
    } else {
      assert forall x | x in s && x != t[0] :: Less(t[0], x);
      assert t[0] in s;
      AscendingFirst(s, t[0]);
      forall x ensures x in t[1..] <==> x in s - {t[0]} {
        if x in t[1..] { LessTrichotomy(t[0], x); }
        assert t == [t[0]] + t[1..];
      }
      AscendingUnique(s - {t[0]}, t[1..]);
    }
  }

  predicate Beyond(after: Option<Bytes>, k: Bytes) { after.None? || Less(after.value, k) }

  function Above(s: set<Bytes>, after: Option<Bytes>): set<Bytes> {
    set k | k in s && Beyond(after, k)
  }

  // ---- Pages ----

  /** Requested page sizes, which the handlers clamp to at least one. */
  type Limit = x: nat | x >= 1 witness 1

  datatype Page = Page(keys: seq<Bytes>, next: Option<Bytes>)

  /** The page after a position: at most `limit` keys, and the last of them as the cursor when more remain.
      (A limit of zero would end the traversal at once; requests are clamped to at least one.) */
  ghost function PageOf(s: set<Bytes>, after: Option<Bytes>, limit: nat): Page {
    var up := Ascending(Above(s, after));
    if |up| <= limit then Page(up, None)
    else Page(up[..limit], if limit == 0 then None else Some(up[limit - 1]))
  }

  /** A page is full whenever more remain, and there is a cursor exactly then. */
  lemma PageSize(s: set<Bytes>, after: Option<Bytes>, limit: nat)
    ensures var page, left := PageOf(s, after, limit), |Above(s, after)|;
            && |page.keys| == (if left <= limit then left else limit)
            && (page.next.Some? <==> 0 < limit < left)
            && (page.next.Some? ==> page.next.value == page.keys[limit - 1])
            && Up(page.keys)
  {
    hide Ascending;
    AscendingMeans(Above(s, after));
  }

  /** Taking the first keys leaves those above the last taken. */
  lemma SplitAt(s: set<Bytes>, after: Option<Bytes>, n: nat)
    requires 0 < n <= |Ascending(Above(s, after))|
    ensures var up := Ascending(Above(s, after));
            up[n..] == Ascending(Above(s, Some(up[n - 1]))) && up[n - 1] in s && Beyond(after, up[n - 1])
  {
    hide Ascending, Beyond;
    var up := Ascending(Above(s, after));
    AscendingMeans(Above(s, after));
    var last := up[n - 1];
    assert last in up && last in Above(s, after);
    forall x ensures x in up[n..] <==> x in Above(s, Some(last)) {
      TailAbove(s, after, up, n, x);
    }
    AscendingUnique(Above(s, Some(last)), up[n..]);
  }

  lemma TailAbove(s: set<Bytes>, after: Option<Bytes>, up: seq<Bytes>, n: nat, x: Bytes)
    requires Up(up) && 0 < n <= |up| && forall y :: y in up <==> y in Above(s, after)
    ensures x in up[n..] <==> x in Above(s, Some(up[n - 1]))
  {
    var last := up[n - 1];
    assert last in up;
    if x in up[n..] {
      var i :| 0 <= i < |up| - n && up[n..][i] == x;
      assert up[n + i] == x && x in up;
    }
    if x in Above(s, Some(last)) {
      BeyondTransitive(after, last, x);
      assert x in up;
      var i :| 0 <= i < |up| && up[i] == x;
      LessTrichotomy(last, x);
      if i >= n { assert up[n..][i - n] == x; }
    }
  }

  lemma BeyondTransitive(after: Option<Bytes>, a: Bytes, b: Bytes)
    requires Beyond(after, a) && Less(a, b)
    ensures Beyond(after, b)
  {
    if after.Some? { LessTransitive(after.value, a, b); }
  }

  function Joined(pages: seq<Page>): seq<Bytes> {
    if pages == [] then [] else pages[0].keys + Joined(pages[1..])
  }

  /** All pages of one store, following the cursors until there is none. That this ends, whatever the limits,
      is the termination of this function. */
  ghost function Follow(s: set<Bytes>, after: Option<Bytes>, limits: nat -> Limit, n: nat): seq<Page>
    decreases |Above(s, after)|
  {
    var page := PageOf(s, after, limits(n));
    PageSplits(s, after, limits(n));
    if page.next.None? then [page]
    else
      FewerAbove(s, after, page.next.value);
      [page] + Follow(s, page.next, limits, n + 1)
  }

  function Repeat(s: set<Bytes>, k: nat): seq<set<Bytes>> { seq(k, _ => s) }

  function LimitsFrom(limits: nat -> Limit, n: nat,
                      k: nat): seq<Limit> { seq(k, i requires 0 <= i < k => limits(n + i)) }

  /** The pages put together are every key beyond the start, once each, in order. */
  lemma {:induction false} FollowIsComplete(s: set<Bytes>, after: Option<Bytes>, limits: nat -> Limit, n: nat)
    ensures var pages := Follow(s, after, limits, n);
            && Joined(pages) == Ascending(Above(s, after))
            && IsTraversal(Repeat(s, |pages|), after, LimitsFrom(limits, n, |pages|), pages)
    decreases |Above(s, after)|
  {
    hide PageOf, Ascending, Above;
    var page, pages := PageOf(s, after, limits(n)), Follow(s, after, limits, n);
    PageSplits(s, after, limits(n));
    if page.next.None? {
      assert pages == [page] && pages[1..] == [];
    } else {
      FewerAbove(s, after, page.next.value);
      FollowIsComplete(s, page.next, limits, n + 1);
      var rest := Follow(s, page.next, limits, n + 1);
      assert pages == [page] + rest && pages[1..] == rest;
      assert Repeat(s, |pages|)[1..] == Repeat(s, |rest|);
      assert LimitsFrom(limits, n, |pages|)[1..] == LimitsFrom(limits, n + 1, |rest|);
    }
  }

  lemma PageSplits(s: set<Bytes>, after: Option<Bytes>, limit: Limit)
    ensures var page, up := PageOf(s, after, limit), Ascending(Above(s, after));
            if page.next.None? then up == page.keys
            else
              && up == page.keys + Ascending(Above(s, page.next)) && page.next.value in s
              && Beyond(after, page.next.value)
  {
    hide Ascending, Above;
    var up := Ascending(Above(s, after));
    if |up| > limit {
      SplitAt(s, after, limit);
      assert up == up[..limit] + up[limit..];
    }
  }

  lemma FewerAbove(s: set<Bytes>, after: Option<Bytes>, k: Bytes)
    requires k in s && Beyond(after, k)
    ensures |Above(s, Some(k))| < |Above(s, after)|
  {
    forall x | x in Above(s, Some(k)) ensures x in Above(s, after) - {k} {
      BeyondTransitive(after, k, x);
      LessTrichotomy(k, x);
    }
    SubsetSize(Above(s, Some(k)), Above(s, after) - {k});
  }

  lemma SubsetSize(a: set<Bytes>, b: set<Bytes>)
    requires a <= b
    ensures |a| <= |b|
  {
    assert b == a + (b - a);
  }

  // ---- A traversal while others write ----

  /** A traversal that ended; page i was read from the keys present at that moment. */
  ghost predicate IsTraversal(sets: seq<set<Bytes>>, after: Option<Bytes>, limits: seq<Limit>, pages: seq<Page>) {
    && |sets| == |limits| == |pages| > 0
    && pages[0] == PageOf(sets[0], after, limits[0])
    && (if pages[0].next.None? then |pages| == 1
        else |pages| > 1 && IsTraversal(sets[1..], pages[0].next, limits[1..], pages[1..]))
  }

  lemma PageKeysUp(s: set<Bytes>, after: Option<Bytes>, limit: Limit)
    ensures var page := PageOf(s, after, limit);
            && Up(page.keys)
            && (page.next.Some? ==>
                  page.keys != [] && page.keys[|page.keys| - 1] == page.next.value && Beyond(after, page.next.value))
  {
    hide Ascending, Above;
    AscendingMeans(Above(s, after));
    PageSplits(s, after, limit);
  }

  /** A page holds exactly the keys past the start and not past its cursor. */
  lemma PageMeans(s: set<Bytes>, after: Option<Bytes>, limit: Limit, x: Bytes)
    ensures var page := PageOf(s, after, limit);
            x in page.keys <==> x in s && Beyond(after, x) && (page.next.None? || !Less(page.next.value, x))
  {
    hide Ascending, PageOf, Up;
    var up, page := Ascending(Above(s, after)), PageOf(s, after, limit);
    AscendingMeans(Above(s, after));
    PageSplits(s, after, limit);
    PageKeysUp(s, after, limit);
    if page.next.Some? {
      AscendingMeans(Above(s, page.next));
      assert x in up <==> x in page.keys || x in Ascending(Above(s, page.next));
      if x in page.keys { NotPastLast(page.keys, x); }
    }
  }

  lemma NotPastLast(t: seq<Bytes>, x: Bytes)
    requires Up(t) && x in t
    ensures !Less(t[|t| - 1], x)
  {
    var i :| 0 <= i < |t| && t[i] == x;
    LessTrichotomy(x, t[|t| - 1]);
  }

  lemma {:induction false} JoinedBeyond(sets: seq<set<Bytes>>, after: Option<Bytes>, limits: seq<Limit>,
                                        pages: seq<Page>, x: Bytes)
    requires IsTraversal(sets, after, limits, pages) && x in Joined(pages)
    ensures Beyond(after, x)
  {
    PageMeans(sets[0], after, limits[0], x);
    PageKeysUp(sets[0], after, limits[0]);
    if x !in pages[0].keys {
      assert x in Joined(pages[1..]);
      JoinedBeyond(sets[1..], pages[0].next, limits[1..], pages[1..], x);
      BeyondTransitive(after, pages[0].next.value, x);
    }
  }

  /** Nothing is ever returned twice, and keys come in ascending order across pages. */
  lemma {:induction false} JoinedAscends(sets: seq<set<Bytes>>, after: Option<Bytes>, limits: seq<Limit>,
                                         pages: seq<Page>)
    requires IsTraversal(sets, after, limits, pages)
    ensures Up(Joined(pages))
  {
    var first, rest := pages[0].keys, Joined(pages[1..]);
    PageKeysUp(sets[0], after, limits[0]);
    if |pages| > 1 {
      JoinedAscends(sets[1..], pages[0].next, limits[1..], pages[1..]);
      var last := pages[0].next.value;
      forall i, j | 0 <= i < |first| && 0 <= j < |rest| ensures Less(first[i], rest[j]) {
        assert rest[j] in rest;
        JoinedBeyond(sets[1..], pages[0].next, limits[1..], pages[1..], rest[j]);
        if i < |first| - 1 { LessTransitive(first[i], last, rest[j]); }
      }
    }
  }

  /** A key present throughout is returned. */
  lemma {:induction false} PresentThroughout(sets: seq<set<Bytes>>, after: Option<Bytes>, limits: seq<Limit>,
                                             pages: seq<Page>, k: Bytes)
    requires IsTraversal(sets, after, limits, pages) && Beyond(after, k)
    requires forall i | 0 <= i < |sets| :: k in sets[i]
    ensures k in Joined(pages)
  {
    PageMeans(sets[0], after, limits[0], k);
    assert k in sets[0];
    if k !in pages[0].keys {
      PresentThroughout(sets[1..], pages[0].next, limits[1..], pages[1..], k);
    }
  }

  /** Whatever else is inserted or deleted between pages, a document present throughout a traversal is returned
      exactly once. */
  lemma ReturnedExactlyOnce(sets: seq<set<Bytes>>, limits: seq<Limit>, pages: seq<Page>, k: Bytes)
    requires IsTraversal(sets, None, limits, pages) && forall i | 0 <= i < |sets| :: k in sets[i]
    ensures multiset(Joined(pages))[k] == 1
  {
    PresentThroughout(sets, None, limits, pages, k);
    JoinedAscends(sets, None, limits, pages);
    OnceInAscending(Joined(pages), k);
  }

  lemma {:induction false} OnceInAscending(t: seq<Bytes>, k: Bytes)
    requires Up(t)
    ensures multiset(t)[k] == if k in t then 1 else 0
  {
    if t != [] {
      OnceInAscending(t[1..], k);
      assert t == [t[0]] + t[1..];
      if k == t[0] && k in t[1..] {
        var i :| 0 <= i < |t| - 1 && t[1..][i] == k;
        LessTrichotomy(t[0], t[i + 1]);
      }
    }
  }

  // ---- The ordered scan ----

  /** Every stored key was built from checked names, so keys and their bytes correspond. */
  predicate AllValid(st: Store) {
    forall k | k in st :: ValidKey(k)
  }

  function InScan(st: Store, lo: Bytes, hi: Bytes): set<Bytes> {
    set k | k in st && InRange(KeyBytes(k), lo, hi) :: KeyBytes(k)
  }

  /** One step of the store's iterator: the least key in the range. */
  method NextEntry(st: Store, lo: Bytes, hi: Bytes) returns (next: Option<Key>)
    ensures next.None? ==> InScan(st, lo, hi) == {}
    ensures next.Some? ==> next.value in st && IsLeast(InScan(st, lo, hi), KeyBytes(next.value))
  {
    next := None;
    var left := st.Keys;
    ghost var seen: set<Key> := {};
    while left != {}
      invariant seen + left == st.Keys
      invariant next.None? ==> forall k | k in seen :: !InRange(KeyBytes(k), lo, hi)
      invariant next.Some? ==> next.value in seen && InRange(KeyBytes(next.value), lo, hi)
      invariant next.Some? ==>
                  forall k | k in seen && InRange(KeyBytes(k), lo, hi) :: !Less(KeyBytes(k), KeyBytes(next.value))
      decreases left
    {
      var k :| k in left;
      left, seen := left - {k}, seen + {k};
      if InRange(KeyBytes(k), lo, hi) {
        if next.None? || Less(KeyBytes(k), KeyBytes(next.value)) {
          if next.Some? { BelowLeast(st, lo, hi, seen - {k}, k, next.value); }
          LessTrichotomy(KeyBytes(k), KeyBytes(k));
          next := Some(k);
        }
      }
    }
    if next.Some? {
      forall x | x in InScan(st, lo, hi) && x != KeyBytes(next.value) ensures Less(KeyBytes(next.value), x) {
        LessTrichotomy(KeyBytes(next.value), x);
      }
    }
  }

  lemma BelowLeast(st: Store, lo: Bytes, hi: Bytes, seen: set<Key>, k: Key, least: Key)
    requires Less(KeyBytes(k), KeyBytes(least))
    requires forall j | j in seen && InRange(KeyBytes(j), lo, hi) :: !Less(KeyBytes(j), KeyBytes(least))
    ensures forall j | j in seen && InRange(KeyBytes(j), lo, hi) :: !Less(KeyBytes(j), KeyBytes(k))
  {
    forall j | j in seen && InRange(KeyBytes(j), lo, hi) ensures !Less(KeyBytes(j), KeyBytes(k)) {
      if Less(KeyBytes(j), KeyBytes(k)) { LessTransitive(KeyBytes(j), KeyBytes(k), KeyBytes(least)); }
    }
  }

  /** Starting over just after the least key removes that key from the range and nothing else. */
  lemma ScanRest(st: Store, lo: Bytes, hi: Bytes, m: Bytes)
    requires IsLeast(InScan(st, lo, hi), m)
    ensures InScan(st, m + [0], hi) == InScan(st, lo, hi) - {m}
  {
    forall x ensures x in InScan(st, m + [0], hi) <==> x in InScan(st, lo, hi) - {m} {
      SuccessorIsNext(m, x);
      LessTrichotomy(m, x);
      if x in InScan(st, m + [0], hi) {
        LessTrichotomy(lo, m);
        if Less(lo, m) { LessTransitive(lo, m, x); }
        LessTrichotomy(lo, x);
      }
    }
  }

  function TakeUp(t: seq<Bytes>, n: nat): seq<Bytes> { if n <= |t| then t[..n] else t }

  /** The loop both endpoints share: walk the range until one key more than the limit has been seen. */
  method ScanUpTo(st: Store, lo: Bytes, hi: Bytes, limit: nat) returns (found: seq<Key>)
    ensures forall i | 0 <= i < |found| :: found[i] in st
    ensures BytesOf(found) == TakeUp(Ascending(InScan(st, lo, hi)), limit + 1)
  {
    hide Ascending, InScan, KeyBytes, IsLeast;
    found := [];
    var from := lo;
    var more := true;
    ghost var all := Ascending(InScan(st, lo, hi));
    while more && |found| <= limit
      invariant |found| <= limit + 1 && forall i | 0 <= i < |found| :: found[i] in st
      invariant all == BytesOf(found) + if more then Ascending(InScan(st, from, hi)) else []
      invariant !more ==> |found| <= limit
      decreases limit + 1 - |found|, more
    {
      var entry := NextEntry(st, from, hi);
      if entry.None? {
        NothingAscends();
        more := false;
      } else {
        AscendingFirst(InScan(st, from, hi), KeyBytes(entry.value));
        ScanRest(st, from, hi, KeyBytes(entry.value));
        BytesSnoc(found, entry.value, Ascending(InScan(st, KeyBytes(entry.value) + [0], hi)));
        found := found + [entry.value];
        from := KeyBytes(entry.value) + [0];
      }
    }
  }

  lemma NothingAscends()
    ensures Ascending({}) == []
  {}

  lemma BytesSnoc(found: seq<Key>, k: Key, rest: seq<Bytes>)
    ensures BytesOf(found) + ([KeyBytes(k)] + rest) == BytesOf(found + [k]) + rest
  {
    assert BytesOf(found + [k]) == BytesOf(found) + [KeyBytes(k)];
  }

  function BytesOf(keys: seq<Key>): (t: seq<Bytes>)
    ensures |t| == |keys|
  {
    seq(|keys|, i requires 0 <= i < |keys| => KeyBytes(keys[i]))
  }

  /** Below the end of the prefix and past the cursor are exactly the prefix's keys past the cursor. */
  lemma PrefixRange(st: Store, prefix: Bytes, after: Option<Bytes>)
    requires !AllMax(prefix) && (after.Some? ==> prefix <= after.value)
    ensures InScan(st, if after.Some? then after.value + [0] else prefix, PrefixEnd(prefix))
              == Above(Under(st, prefix), after)
  {
    var start := if after.Some? then after.value + [0] else prefix;
    forall x ensures x in InScan(st, start, PrefixEnd(prefix)) <==> x in Above(Under(st, prefix), after) {
      PrefixScan(prefix, x);
      if after.Some? {
        SuccessorIsNext(after.value, x);
        if !Less(x, start) && Less(after.value, x) { NotBelowPrefix(prefix, after.value, x); }
      }
    }
  }

  lemma NotBelowPrefix(prefix: Bytes, k: Bytes, x: Bytes)
    requires prefix <= k && Less(k, x)
    ensures !Less(x, prefix)
  {
    PrefixNotLess(prefix, k);
    LessTrichotomy(k, x);
    if Less(x, prefix) { LessTransitive(k, x, prefix); }
  }

  function Under(st: Store, prefix: Bytes): set<Bytes> {
    set k | k in st && prefix <= KeyBytes(k) :: KeyBytes(k)
  }

  // ---- list ----

  function DocPrefix(p: Bytes, c: Bytes): Bytes { Terminated([p, c], COLON) }

  lemma DocKeyBytes(p: Bytes, c: Bytes, id: Bytes)
    ensures KeyBytes(DocKey(p, c, id)) == DocPrefix(p, c) + id
  {}

  lemma ColonNotMax(s: Bytes)
    ensures !AllMax(s + [COLON])
  {
    assert (s + [COLON])[|s|] == COLON;
  }

  lemma DocPrefixShape(p: Bytes, c: Bytes)
    ensures !AllMax(DocPrefix(p, c))
  {
    TerminatedSnoc([p], c, COLON);
    assert [p] + [c] == [p, c];
    ColonNotMax(Terminated([p], COLON) + c);
  }

  function IdsOf(docs: seq<Document>): (t: seq<Bytes>)
    ensures |t| == |docs|
  {
    seq(|docs|, i requires 0 <= i < |docs| => docs[i].id)
  }

  /** The keys under a collection's prefix are its documents' keys. */
  lemma UnderIsDocs(st: Store, p: Bytes, c: Bytes, x: Bytes)
    requires AllValid(st) && Typed(st) && ValidName(p) && ValidName(c)
    ensures x in Under(st, DocPrefix(p, c)) <==> DocPrefix(p, c) <= x && x[|DocPrefix(p, c)|..] in Ids(st, p, c)
  {
    var prefix := DocPrefix(p, c);
    if x in Under(st, prefix) {
      var k :| k in st && prefix <= KeyBytes(k) && KeyBytes(k) == x;
      CollectionScans(p, c, T, k);
      DocKeyBytes(p, c, k.id);
      assert x[|prefix|..] == k.id;
      IdsAreDocs(st, p, c, k.id);
      assert DocAt(st, p, c, k.id).Some?;
    }
    if prefix <= x && x[|prefix|..] in Ids(st, p, c) {
      var id := x[|prefix|..];
      IdsAreDocs(st, p, c, id);
      DocKeyBytes(p, c, id);
      assert DocKey(p, c, id) in st && x == prefix + id;
    }
  }

  /** Keys under the prefix past the cursor's key, in order, are the ids past the cursor, in order. */
  lemma KeysAreIds(st: Store, p: Bytes, c: Bytes, cursor: Option<Bytes>)
    requires AllValid(st) && Typed(st) && ValidName(p) && ValidName(c)
    ensures var prefix := DocPrefix(p, c);
            Prefixed(prefix, Ascending(Above(Ids(st, p, c), cursor))) ==
            Ascending(Above(Under(st, prefix), if cursor.Some? then Some(prefix + cursor.value) else None))
  {
    var prefix, ids := DocPrefix(p, c), Ascending(Above(Ids(st, p, c), cursor));
    var after := if cursor.Some? then Some(prefix + cursor.value) else None;
    AscendingMeans(Above(Ids(st, p, c), cursor));
    var t := Prefixed(prefix, ids);
    forall i, j | 0 <= i < j < |t| ensures Less(t[i], t[j]) { LessCommonPrefix(prefix, ids[i], ids[j]); }
    forall x ensures x in t <==> x in Above(Under(st, prefix), after) {
      UnderIsDocs(st, p, c, x);
      if prefix <= x {
        var id := x[|prefix|..];
        assert x == prefix + id;
        if cursor.Some? { LessCommonPrefix(prefix, cursor.value, id); }
        if id in ids { var i :| 0 <= i < |ids| && ids[i] == id; assert t[i] == x; }
      }
      if x in t { var i :| 0 <= i < |t| && t[i] == x; assert x[|prefix|..] == ids[i]; }
    }
    AscendingUnique(Above(Under(st, prefix), after), t);
  }

  function Prefixed(prefix: Bytes, ids: seq<Bytes>): (t: seq<Bytes>)
    ensures |t| == |ids|
  {
    seq(|ids|, i requires 0 <= i < |ids| => prefix + ids[i])
  }

  /** One page of a collection: its documents past the cursor id, in id order. */
  method List(st: Store, p: Bytes, c: Bytes, limit: nat,
              cursor: Option<Bytes>) returns (docs: seq<Document>, next: Option<Bytes>)
    requires AllValid(st) && Typed(st) && ValidName(p) && ValidName(c)
    ensures Page(IdsOf(docs), next) == PageOf(Ids(st, p, c), cursor, limit)
    ensures forall i | 0 <= i < |docs| :: DocAt(st, p, c, docs[i].id) == Some(docs[i])
    ensures var left := |Above(Ids(st, p, c), cursor)|;
            && |docs| == (if left <= limit then left else limit)
            && next == (if 0 < limit < left then Some(docs[limit - 1].id) else None)
            && forall i, j | 0 <= i < j < |docs| :: Less(docs[i].id, docs[j].id)
  {
    hide Ascending, InScan, KeyBytes, DocPrefix, AllValid, Typed, PrefixEnd;
    PageSize(Ids(st, p, c), cursor, limit);
    var prefix := DocPrefix(p, c);
    var start := if cursor.Some? then KeyBytes(DocKey(p, c, cursor.value)) + [0] else prefix;
    var end := ComputePrefixEnd(prefix);
    ListRange(st, p, c, cursor);
    var found := ScanUpTo(st, start, end, limit);
    ghost var ids := Ascending(Above(Ids(st, p, c), cursor));
    docs := DocsFound(st, p, c, found, ids);
    next := None;
    if |docs| > limit {
      docs := docs[..|docs| - 1];
      next := if docs == [] then None else Some(docs[|docs| - 1].id);
    }
    assert IdsOf(docs) == TakeUp(ids, limit);
    assert forall i | 0 <= i < |docs| :: IdsOf(docs)[i] == docs[i].id;
  }

  /** Read the documents behind the keys found: each parses back to this collection. */
  method DocsFound(st: Store, p: Bytes, c: Bytes, found: seq<Key>, ghost ids: seq<Bytes>) returns (docs: seq<Document>)
    requires AllValid(st) && Typed(st) && ValidName(p) && ValidName(c)
    requires forall i | 0 <= i < |found| :: found[i] in st
    requires |found| <= |ids| && BytesOf(found) == Prefixed(DocPrefix(p, c), ids)[..|found|]
    ensures |docs| == |found|
    ensures forall j | 0 <= j < |docs| :: docs[j].id == ids[j] && DocAt(st, p, c, docs[j].id) == Some(docs[j])
  {
    hide KeyBytes, DocPrefix, AllValid, Typed, ParseKey;
    docs := [];
    for i := 0 to |found|
      invariant |docs| == i
      invariant forall j | 0 <= j < i :: docs[j].id == ids[j] && DocAt(st, p, c, docs[j].id) == Some(docs[j])
    {
      assert KeyBytes(found[i]) == BytesOf(found)[i] == Prefixed(DocPrefix(p, c), ids)[i] == DocPrefix(p, c) + ids[i];
      FoundDoc(st, p, c, found[i], ids[i]);
      var parsed := ParseKey(KeyBytes(found[i]));
      if parsed.Some? && parsed.value.0 == p && parsed.value.1 == c {
        docs := docs + [st[found[i]].doc];
      }
    }
  }

  lemma ListRange(st: Store, p: Bytes, c: Bytes, cursor: Option<Bytes>)
    requires AllValid(st) && Typed(st) && ValidName(p) && ValidName(c)
    ensures var prefix := DocPrefix(p, c);
            Prefixed(prefix, Ascending(Above(Ids(st, p, c), cursor))) ==
            Ascending(InScan(st, if cursor.Some? then KeyBytes(DocKey(p, c, cursor.value)) + [0]
                               else prefix, PrefixEnd(prefix)))
  {
    var prefix := DocPrefix(p, c);
    DocPrefixShape(p, c);
    if cursor.Some? { DocKeyBytes(p, c, cursor.value); }
    PrefixRange(st, prefix, if cursor.Some? then Some(prefix + cursor.value) else None);
    KeysAreIds(st, p, c, cursor);
  }

  /** A key found by the scan parses back to this collection and holds the document with its id. */
  lemma FoundDoc(st: Store, p: Bytes, c: Bytes, k: Key, id: Bytes)
    requires AllValid(st) && Typed(st) && ValidName(p) && ValidName(c) && k in st && KeyBytes(k) == DocPrefix(p, c) + id
    ensures k == DocKey(p, c, id) && ParseKey(KeyBytes(k)) == Some((p, c, id)) && st[k].DocVal? && st[k].doc.id == id
  {
    CollectionScans(p, c, T, k);
    DocKeyBytes(p, c, k.id);
    assert DocPrefix(p, c) <= KeyBytes(k);
    assert k.id == (DocPrefix(p, c) + k.id)[|DocPrefix(p, c)|..];
    ParseKeyRoundTrip(p, c, id);
  }

  // ---- query ----

  datatype QueryError = NoSchema | UnknownIndex | NotAPrefix | BadCursor
  datatype QueryResult = Found(docs: seq<Document>, next: Option<Bytes>) | Refused(error: QueryError)

  /** Names in stored schemas passed the push's checks. */
  predicate NamesChecked(st: Store) {
    forall k | k in st && k.MetaKey? && st[k].SchemaVal? ::
      forall c | c in st[k].schema.collections ::
        forall i | 0 <= i < |st[k].schema.collections[c].indexes| ::
                 ValidIndexName(st[k].schema.collections[c].indexes[i].name)
  }

  ghost predicate Served(e: Env, st: Store, p: Bytes, c: Bytes) {
    EntriesAgree(e, st) && AllValid(st) && NamesChecked(st) && ValidName(p) && ValidName(c)
  }

  function IndexAt(st: Store, p: Bytes, c: Bytes, name: Bytes): Option<IndexDef> {
    if CollectionAt(st, p, c).None? then None else FindIndex(CollectionAt(st, p, c).value.indexes, name)
  }

  lemma IndexName(e: Env, st: Store, p: Bytes, c: Bytes, name: Bytes)
    requires Served(e, st, p, c) && IndexAt(st, p, c, name).Some?
    ensures IndexAt(st, p, c, name).value.name == name && ValidIndexName(name)
  {
    FoundIndex(CollectionAt(st, p, c).value.indexes, name);
    assert MetaKey(p) in st;
  }

  predicate MatchingDoc(e: Env, st: Store, p: Bytes, c: Bytes, index: IndexDef, params: Data, doc: Document)
    requires BoundFields(index, params).Some?
  {
    DocAt(st, p, c, doc.id) == Some(doc) && MatchesParams(e, BoundFields(index, params).value, params, doc.data)
  }

  /** A stored document with the values of the parameters in the leading fields they bind. */
  predicate Answers(e: Env, st: Store, p: Bytes, c: Bytes, index: IndexDef, params: Data, doc: Document)
    requires Binds(index.fields, params)
  {
    && DocAt(st, p, c, doc.id) == Some(doc)
    && forall i | 0 <= i < |params| ::
         ValueEq(e, Get(doc.data, index.fields[i]), Some(params[index.fields[i]]))
  }

  /** Where no field is listed twice that is every parameter. */
  lemma MatchingIsAnswering(e: Env, st: Store, p: Bytes, c: Bytes, index: IndexDef, params: Data, doc: Document)
    requires Binds(index.fields, params)
    ensures BoundFields(index, params).Some?
    ensures MatchingDoc(e, st, p, c, index, params, doc) <==> Answers(e, st, p, c, index, params, doc)
    ensures Distinct(index.fields) ==>
              (MatchingDoc(e, st, p, c, index, params, doc) <==>
               DocAt(st, p, c, doc.id) == Some(doc) && MatchesAll(e, params, doc.data))
  {
    hide ValueEq, MatchesAll, DocAt;
    BoundIffBinds(index, params);
    var bound := index.fields[..|params|];
    forall i | 0 <= i < |params|
      ensures ValueEq(e, Get(doc.data, bound[i]), Get(params, bound[i]))
         <==> ValueEq(e, Get(doc.data, index.fields[i]), Some(params[index.fields[i]]))
    {
      assert bound[i] == index.fields[i];
    }
    if Distinct(index.fields) { BoundMatchIsAll(e, index.fields, params, doc.data); }
  }

  /** Documents in the order of their entries: by the index's fields and then by id. */
  predicate InEntryOrder(e: Env, index: IndexDef, docs: seq<Document>) {
    forall i, j | 0 <= i < j < |docs| ::
      EntryBefore(e, index.fields, docs[i].data, docs[i].id, docs[j].data, docs[j].id)
  }

  lemma EntriesInOrder(e: Env, p: Bytes, c: Bytes, index: IndexDef, docs: seq<Document>)
    requires Up(Entries(e, p, c, index, docs))
    ensures InEntryOrder(e, index, docs)
  {
    hide EntryBefore, EntryKey;
    forall i, j | 0 <= i < j < |docs|
      ensures EntryBefore(e, index.fields, docs[i].data, docs[i].id, docs[j].data, docs[j].id)
    {
      assert Less(Entries(e, p, c, index, docs)[i], Entries(e, p, c, index, docs)[j]);
      EntryOrder(e, p, c, index, docs[i].data, docs[i].id, docs[j].data, docs[j].id);
    }
  }

  function EntryOf(e: Env, p: Bytes, c: Bytes, index: IndexDef, doc: Document): Bytes {
    EntryKey(e, p, c, index, doc.data, doc.id)
  }

  /** Under agreement an entry in the store names the document it was computed from. */
  lemma EntryNamesDoc(e: Env, st: Store, p: Bytes, c: Bytes, name: Bytes, k: Key)
    requires Served(e, st, p, c) && IndexAt(st, p, c, name).Some?
    requires k in st && k.IdxKey? && k.p == p && k.c == c && k.name == name
    ensures DocAt(st, p, c, k.id).Some? && st[k] == IdVal(k.id) && DocAt(st, p, c, k.id).value.id == k.id
    ensures KeyBytes(k) == EntryOf(e, p, c, IndexAt(st, p, c, name).value, DocAt(st, p, c, k.id).value)
  {
    IndexName(e, st, p, c, name);
    assert Look(st, k) == Expected(e, st, k);
    var doc := DocAt(st, p, c, k.id).value;
    assert DocKey(p, c, k.id) in st;
    EntryKeyIsIdxKey(e, p, c, IndexAt(st, p, c, name).value, doc.data, k.id);
  }

  lemma DocHasEntry(e: Env, st: Store, p: Bytes, c: Bytes, name: Bytes, doc: Document) returns (k: Key)
    requires Served(e, st, p, c) && IndexAt(st, p, c, name).Some? && DocAt(st, p, c, doc.id) == Some(doc)
    ensures k in st && k.IdxKey? && k.p == p && k.c == c && k.name == name && k.id == doc.id
    ensures KeyBytes(k) == EntryOf(e, p, c, IndexAt(st, p, c, name).value, doc)
  {
    IndexName(e, st, p, c, name);
    var index := IndexAt(st, p, c, name).value;
    k := IdxKey(p, c, name, EncodedFields(e, index.fields, doc.data), doc.id);
    assert Look(st, k) == Expected(e, st, k);
    EntryKeyIsIdxKey(e, p, c, index, doc.data, doc.id);
  }

  /** A key under the query prefix is an entry of this index. */
  lemma UnderIsEntry(e: Env, st: Store, p: Bytes, c: Bytes, name: Bytes, params: Data, k: Key)
    requires Served(e, st, p, c) && IndexAt(st, p, c, name).Some? && k in st
    requires QueryPrefix(e, p, c, IndexAt(st, p, c, name).value, params).Some?
    requires QueryPrefix(e, p, c, IndexAt(st, p, c, name).value, params).value <= KeyBytes(k)
    ensures k.IdxKey? && k.p == p && k.c == c && k.name == name
  {
    IndexName(e, st, p, c, name);
    var prefix, base := QueryPrefix(e, p, c, IndexAt(st, p, c, name).value, params).value, IndexBase(p, c, name);
    assert base <= prefix && prefix[..|base|] == base;
    assert base == KeyBytes(k)[..|base|];
    CollectionScans(p, c, name, k);
  }

  /** The keys a query walks are the entries of the documents that match it. */
  lemma UnderIsMatching(e: Env, st: Store, p: Bytes, c: Bytes, name: Bytes, params: Data, x: Bytes)
    requires Served(e, st, p, c) && IndexAt(st, p, c, name).Some?
    requires BoundFields(IndexAt(st, p, c, name).value, params).Some?
    ensures var index := IndexAt(st, p, c, name).value;
            x in Under(st, QueryPrefix(e, p, c, index, params).value) <==>
            exists doc :: MatchingDoc(e, st, p, c, index, params, doc) && EntryOf(e, p, c, index, doc) == x
  {
    hide Served, KeyBytes;
    var index := IndexAt(st, p, c, name).value;
    var prefix := QueryPrefix(e, p, c, index, params).value;
    if x in Under(st, prefix) {
      var k :| k in st && prefix <= KeyBytes(k) && KeyBytes(k) == x;
      UnderIsEntry(e, st, p, c, name, params, k);
      EntryNamesDoc(e, st, p, c, name, k);
      var doc := DocAt(st, p, c, k.id).value;
      ScanIffMatches(e, p, c, index, params, doc.data, doc.id);
      assert MatchingDoc(e, st, p, c, index, params, doc);
    }
    if doc :| MatchingDoc(e, st, p, c, index, params, doc) && EntryOf(e, p, c, index, doc) == x {
      var k := DocHasEntry(e, st, p, c, name, doc);
      ScanIffMatches(e, p, c, index, params, doc.data, doc.id);
      assert prefix <= KeyBytes(k);
    }
  }

  /** Two stored documents never share an entry. */
  lemma EntriesDistinct(e: Env, st: Store, p: Bytes, c: Bytes, name: Bytes, a: Document, b: Document)
    requires Served(e, st, p, c) && IndexAt(st, p, c, name).Some?
    requires DocAt(st, p, c, a.id) == Some(a) && DocAt(st, p, c, b.id) == Some(b)
    requires EntryOf(e, p, c, IndexAt(st, p, c, name).value, a) == EntryOf(e, p, c, IndexAt(st, p, c, name).value, b)
    ensures a == b
  {
    var j := DocHasEntry(e, st, p, c, name, a);
    var k := DocHasEntry(e, st, p, c, name, b);
    KeyBytesInjective(j, k);
  }

  lemma QueryPrefixShape(e: Env, p: Bytes, c: Bytes, index: IndexDef, params: Data)
    requires QueryPrefix(e, p, c, index, params).Some?
    ensures !AllMax(QueryPrefix(e, p, c, index, params).value)
  {
    assert QueryPrefix(e, p, c, index, params).value[0] == IDX[0];
  }

  /** Where a request starts: nowhere yet, past the cursor's key, or refused. */
  function StartOf(prefix: Bytes, cursor: Option<Bytes>): Option<Option<Bytes>> {
    if cursor.None? then Some(None)
    else match DecodeCursor(cursor.value)
      case None => None
      case Some(k) => if prefix <= k then Some(Some(k)) else None
  }

  function Entries(e: Env, p: Bytes, c: Bytes, index: IndexDef, docs: seq<Document>): (t: seq<Bytes>)
    ensures |t| == |docs|
  {
    seq(|docs|, i requires 0 <= i < |docs| => EntryOf(e, p, c, index, docs[i]))
  }

  /** One page of an index query: the documents whose entries lie under the query's prefix past the cursor, in
      entry order; refused exactly for an undeclared collection or index, parameters that do not bind a non-empty run
      of its leading fields, or a cursor that is not one of this query's. What comes has the value of each parameter
      bound, which is all of them where the index lists no field twice. */
  method Query(e: Env, st: Store, p: Bytes, c: Bytes, name: Bytes, params: Data, limit: nat,
               cursor: Option<Bytes>) returns (r: QueryResult)
    requires Served(e, st, p, c)
    ensures r.Refused? <==>
              || IndexAt(st, p, c, name).None?
              || !Binds(IndexAt(st, p, c, name).value.fields, params)
              || StartOf(QueryPrefix(e, p, c, IndexAt(st, p, c, name).value, params).value, cursor).None?
    ensures r.Found? ==>
              var index := IndexAt(st, p, c, name).value;
              var prefix := QueryPrefix(e, p, c, index, params).value;
              var page := PageOf(Under(st, prefix), StartOf(prefix, cursor).value, limit);
              && Entries(e, p, c, index, r.docs) == page.keys
              && r.next == (if page.next.Some? then Some(EncodeCursor(page.next.value)) else None)
              && (forall i | 0 <= i < |r.docs| :: Answers(e, st, p, c, index, params, r.docs[i]))
              && (Distinct(index.fields) ==> forall i | 0 <= i < |r.docs| :: MatchesAll(e, params, r.docs[i].data))
              && InEntryOrder(e, index, r.docs) && |r.docs| <= limit && (r.next.Some? ==> |r.docs| == limit)
  {
    hide Ascending, InScan, KeyBytes, Served, QueryPrefix, PrefixEnd, EncodeCursor, DecodeCursor, Under, MatchingDoc;
    hide EntryOf, Binds, Answers, Distinct, MatchesAll, InEntryOrder;
    if CollectionAt(st, p, c).None? { return Refused(NoSchema); }
    var found := FindIndex(CollectionAt(st, p, c).value.indexes, name);
    if found.None? { return Refused(UnknownIndex); }
    var index := found.value;
    PrefixNeedsBound(e, p, c, index, params);
    if QueryPrefix(e, p, c, index, params).None? { return Refused(NotAPrefix); }
    var prefix := QueryPrefix(e, p, c, index, params).value;
    var after: Option<Bytes> := None;
    var start := prefix;
    if cursor.Some? {
      var decoded := DecodeCursor(cursor.value);
      if decoded.None? || !(prefix <= decoded.value) { return Refused(BadCursor); }
      after := decoded;
      start := decoded.value + [0];
    }
    var end := ComputePrefixEnd(prefix);
    QueryPrefixShape(e, p, c, index, params);
    PrefixRange(st, prefix, after);
    var entries := ScanUpTo(st, start, end, limit);
    EntriesUnder(st, prefix, after, limit, entries);
    var next: Option<Bytes> := None;
    if |entries| > limit {
      entries := entries[..|entries| - 1];
      next := if entries == [] then None else Some(EncodeCursor(KeyBytes(entries[|entries| - 1])));
    }
    var docs := DocsBehind(e, st, p, c, name, params, entries);
    FoundAnswer(e, st, p, c, index, params, after, limit, docs);
    return Found(docs, next);
  }

  lemma FoundAnswer(e: Env, st: Store, p: Bytes, c: Bytes, index: IndexDef, params: Data, after: Option<Bytes>,
                    limit: nat, docs: seq<Document>)
    requires QueryPrefix(e, p, c, index, params).Some? && BoundFields(index, params).Some?
    requires Entries(e, p, c, index, docs)
               == PageOf(Under(st, QueryPrefix(e, p, c, index, params).value), after, limit).keys
    requires forall i | 0 <= i < |docs| :: MatchingDoc(e, st, p, c, index, params, docs[i])
    ensures Binds(index.fields, params)
    ensures forall i | 0 <= i < |docs| :: Answers(e, st, p, c, index, params, docs[i])
    ensures Distinct(index.fields) ==> forall i | 0 <= i < |docs| :: MatchesAll(e, params, docs[i].data)
    ensures InEntryOrder(e, index, docs) && |docs| <= limit
    ensures PageOf(Under(st, QueryPrefix(e, p, c, index, params).value), after, limit).next.Some? ==> |docs| == limit
  {
    hide MatchingDoc, Answers, Distinct, MatchesAll, InEntryOrder, QueryPrefix, Under, PageOf, EntryOf, Binds;
    BoundIffBinds(index, params);
    PageSize(Under(st, QueryPrefix(e, p, c, index, params).value), after, limit);
    EntriesInOrder(e, p, c, index, docs);
    forall i | 0 <= i < |docs|
      ensures Answers(e, st, p, c, index, params, docs[i])
      ensures Distinct(index.fields) ==> MatchesAll(e, params, docs[i].data)
    {
      MatchingIsAnswering(e, st, p, c, index, params, docs[i]);
    }
  }

  lemma PrefixNeedsBound(e: Env, p: Bytes, c: Bytes, index: IndexDef, params: Data)
    ensures QueryPrefix(e, p, c, index, params).Some? <==> BoundFields(index, params).Some?
    ensures QueryPrefix(e, p, c, index, params).Some? <==> Binds(index.fields, params)
  {
    BoundIffBinds(index, params);
  }

  /** What the loop collected, read as a page. */
  lemma EntriesUnder(st: Store, prefix: Bytes, after: Option<Bytes>, limit: nat, entries: seq<Key>)
    requires BytesOf(entries) == TakeUp(Ascending(Above(Under(st, prefix), after)), limit + 1)
    requires forall i | 0 <= i < |entries| :: entries[i] in st
    ensures var page := PageOf(Under(st, prefix), after, limit);
            var kept := if |entries| > limit then entries[..|entries| - 1] else entries;
            && BytesOf(kept) == page.keys
            && page.next == (if |entries| > limit && kept != [] then Some(KeyBytes(kept[|kept| - 1])) else None)
            && (forall i | 0 <= i < |kept| :: prefix <= KeyBytes(kept[i]))
  {
    hide Ascending, KeyBytes;
    var up := Ascending(Above(Under(st, prefix), after));
    var kept := if |entries| > limit then entries[..|entries| - 1] else entries;
    AscendingMeans(Above(Under(st, prefix), after));
    assert BytesOf(kept) == TakeUp(up, limit);
    forall i | 0 <= i < |kept| ensures prefix <= KeyBytes(kept[i]) {
      assert BytesOf(kept)[i] == up[i] && up[i] in up;
    }
  }

  /** Fetch each entry's document by the id the entry holds; a missing one would be skipped. */
  method DocsBehind(e: Env, st: Store, p: Bytes, c: Bytes, name: Bytes, params: Data,
                    entries: seq<Key>) returns (docs: seq<Document>)
    requires Served(e, st, p, c) && IndexAt(st, p, c, name).Some?
    requires QueryPrefix(e, p, c, IndexAt(st, p, c, name).value, params).Some?
    requires BoundFields(IndexAt(st, p, c, name).value, params).Some?
    requires forall i | 0 <= i < |entries| ::
               entries[i] in st
               && QueryPrefix(e, p, c, IndexAt(st, p, c, name).value, params).value <= KeyBytes(entries[i])
    ensures Entries(e, p, c, IndexAt(st, p, c, name).value, docs) == BytesOf(entries)
    ensures forall i | 0 <= i < |docs| :: MatchingDoc(e, st, p, c, IndexAt(st, p, c, name).value, params, docs[i])
  {
    hide KeyBytes, Served, QueryPrefix, EntryOf, MatchesParams;
    docs := [];
    ghost var index := IndexAt(st, p, c, name).value;
    for i := 0 to |entries|
      invariant |docs| == i
      invariant forall j | 0 <= j < i ::
                  EntryOf(e, p, c, index, docs[j]) == KeyBytes(entries[j])
                  && MatchingDoc(e, st, p, c, index, params, docs[j])
    {
      UnderIsEntry(e, st, p, c, name, params, entries[i]);
      EntryNamesDoc(e, st, p, c, name, entries[i]);
      var id := match st[entries[i]] case IdVal(id) => id case _ => [];
      match DocAt(st, p, c, id)
      case Some(doc) =>
        EntryMatches(e, p, c, index, params, doc);
        docs := docs + [doc];
      case None =>
    }
  }

  lemma EntryMatches(e: Env, p: Bytes, c: Bytes, index: IndexDef, params: Data, doc: Document)
    requires BoundFields(index, params).Some?
    requires QueryPrefix(e, p, c, index, params).value <= EntryOf(e, p, c, index, doc)
    ensures MatchesParams(e, BoundFields(index, params).value, params, doc.data)
  {
    ScanIffMatches(e, p, c, index, params, doc.data, doc.id);
  }

  /** A client that follows a query's cursors with any limits reaches the end, and receives each document that has the
      values asked for exactly once and nothing else, in the order of the index. */
  method QueryAll(e: Env, st: Store, p: Bytes, c: Bytes, name: Bytes, params: Data,
                  limits: nat -> Limit) returns (docs: seq<Document>)
    requires Served(e, st, p, c) && IndexAt(st, p, c, name).Some?
    requires Binds(IndexAt(st, p, c, name).value.fields, params)
    ensures var index := IndexAt(st, p, c, name).value;
            && (forall doc :: multiset(docs)[doc] == if Answers(e, st, p, c, index, params, doc) then 1 else 0)
            && (Distinct(index.fields) ==>
                  forall doc ::
                    multiset(docs)[doc] ==
                    if DocAt(st, p, c, doc.id) == Some(doc) && MatchesAll(e, params, doc.data) then 1 else 0)
            && InEntryOrder(e, index, docs)
  {
    hide Ascending, Served, QueryPrefix, Under, PageOf, DecodeCursor, EncodeCursor, MatchingDoc, EntryOf, Answers;
    hide Binds, Distinct, MatchesAll, InEntryOrder;
    var index := IndexAt(st, p, c, name).value;
    PrefixNeedsBound(e, p, c, index, params);
    ghost var prefix := QueryPrefix(e, p, c, index, params).value;
    ghost var keys := Under(st, prefix);
    ghost var after: Option<Bytes> := None;
    var cursor: Option<Bytes> := None;
    var n, more := 0, true;
    docs := [];
    assert Above(keys, None) == keys;
    while more
      invariant more ==> StartOf(prefix, cursor) == Some(after)
      invariant Ascending(keys) == Entries(e, p, c, index, docs) + if more then Ascending(Above(keys, after)) else []
      invariant forall i | 0 <= i < |docs| :: MatchingDoc(e, st, p, c, index, params, docs[i])
      decreases if more then |Above(keys, after)| + 1 else 0
    {
      var r := Query(e, st, p, c, name, params, limits(n), cursor);
      assert r.Found?;
      ghost var page := PageOf(keys, after, limits(n));
      QueriedMore(e, p, c, index, st, prefix, after, limits(n), docs, r.docs);
      forall i | 0 <= i < |r.docs| ensures MatchingDoc(e, st, p, c, index, params, r.docs[i]) {
        MatchingIsAnswering(e, st, p, c, index, params, r.docs[i]);
      }
      docs := docs + r.docs;
      if page.next.Some? { after := page.next; }
      cursor, more, n := r.next, r.next.Some?, n + 1;
    }
    AllMatchingOnce(e, st, p, c, name, params, docs);
    AscendingMeans(keys);
    EntriesInOrder(e, p, c, index, docs);
    forall doc
      ensures MatchingDoc(e, st, p, c, index, params, doc) <==> Answers(e, st, p, c, index, params, doc)
      ensures Distinct(index.fields) ==>
                (MatchingDoc(e, st, p, c, index, params, doc) <==>
                 DocAt(st, p, c, doc.id) == Some(doc) && MatchesAll(e, params, doc.data))
    {
      MatchingIsAnswering(e, st, p, c, index, params, doc);
    }
  }

  /** One page further: the entries seen and those to come are still all of them, and the cursor leads on. */
  lemma QueriedMore(e: Env, p: Bytes, c: Bytes, index: IndexDef, st: Store, prefix: Bytes, after: Option<Bytes>,
                    limit: Limit, docs: seq<Document>, page: seq<Document>)
    requires Ascending(Under(st, prefix)) == Entries(e, p, c, index, docs) + Ascending(Above(Under(st, prefix), after))
    requires Entries(e, p, c, index, page) == PageOf(Under(st, prefix), after, limit).keys
    ensures var next := PageOf(Under(st, prefix), after, limit).next;
            && Ascending(Under(st, prefix)) ==
               Entries(e, p, c, index, docs + page)
               + (if next.Some? then Ascending(Above(Under(st, prefix), next)) else [])
            && (next.Some? ==>
                  && |Above(Under(st, prefix), next)| < |Above(Under(st, prefix), after)|
                  && StartOf(prefix, Some(EncodeCursor(next.value))) == Some(next))
  {
    hide Ascending, Above, Under, PageOf, DecodeCursor, EncodeCursor, EntryOf;
    var keys, next := Under(st, prefix), PageOf(Under(st, prefix), after, limit).next;
    PageSplits(keys, after, limit);
    EntriesConcat(e, p, c, index, docs, page);
    if next.Some? {
      FewerAbove(keys, after, next.value);
      CursorRoundTrip(next.value);
      UnderPrefix(st, prefix, next.value);
    }
  }

  lemma UnderPrefix(st: Store, prefix: Bytes, x: Bytes)
    requires x in Under(st, prefix)
    ensures prefix <= x
  {}

  lemma EntriesConcat(e: Env, p: Bytes, c: Bytes, index: IndexDef, a: seq<Document>, b: seq<Document>)
    ensures Entries(e, p, c, index, a + b) == Entries(e, p, c, index, a) + Entries(e, p, c, index, b)
  {}

  lemma AllMatchingOnce(e: Env, st: Store, p: Bytes, c: Bytes, name: Bytes, params: Data, docs: seq<Document>)
    requires Served(e, st, p, c) && IndexAt(st, p, c, name).Some?
    requires BoundFields(IndexAt(st, p, c, name).value, params).Some?
    requires var index := IndexAt(st, p, c, name).value;
             && Entries(e, p, c, index, docs) == Ascending(Under(st, QueryPrefix(e, p, c, index, params).value))
             && (forall i | 0 <= i < |docs| :: MatchingDoc(e, st, p, c, index, params, docs[i]))
    ensures forall doc ::
              multiset(docs)[doc] ==
              if MatchingDoc(e, st, p, c, IndexAt(st, p, c, name).value, params, doc) then 1 else 0
  {
    hide Ascending, Served, QueryPrefix, Under, MatchesParams, EntryOf;
    var index := IndexAt(st, p, c, name).value;
    PrefixNeedsBound(e, p, c, index, params);
    var keys := Under(st, QueryPrefix(e, p, c, index, params).value);
    var up := Entries(e, p, c, index, docs);
    AscendingMeans(keys);
    forall doc ensures multiset(docs)[doc] == if MatchingDoc(e, st, p, c, index, params, doc) then 1 else 0 {
      var x := EntryOf(e, p, c, index, doc);
      if MatchingDoc(e, st, p, c, index, params, doc) {
        UnderIsMatching(e, st, p, c, name, params, x);
        assert x in up;
        var i :| 0 <= i < |up| && up[i] == x;
        EntriesDistinct(e, st, p, c, name, docs[i], doc);
        assert doc in docs;
      }
      DocsDistinct(e, p, c, index, docs);
      OnceIfDistinct(docs, doc);
    }
  }

  lemma DocsDistinct(e: Env, p: Bytes, c: Bytes, index: IndexDef, docs: seq<Document>)
    requires Up(Entries(e, p, c, index, docs))
    ensures forall i, j | 0 <= i < j < |docs| :: docs[i] != docs[j]
  {
    hide EntryOf;
    forall i, j | 0 <= i < j < |docs| ensures docs[i] != docs[j] {
      assert Less(Entries(e, p, c, index, docs)[i], Entries(e, p, c, index, docs)[j]);
      LessTrichotomy(EntryOf(e, p, c, index, docs[i]), EntryOf(e, p, c, index, docs[j]));
    }
  }

  lemma {:induction false} OnceIfDistinct<T>(t: seq<T>, x: T)
    requires forall i, j | 0 <= i < j < |t| :: t[i] != t[j]
    ensures multiset(t)[x] == if x in t then 1 else 0
  {
    if t != [] {
      OnceIfDistinct(t[1..], x);
      assert t == [t[0]] + t[1..];
    }
  }

  // ---- Owner-scoped pages ----

  function Concat<T>(pages: seq<seq<T>>): seq<T> {
    if pages == [] then [] else pages[0] + Concat(pages[1..])
  }

  function RetainEach<T>(access: Rules.Access, pages: seq<seq<T>>, dataOf: T -> Data): (r: seq<seq<T>>)
    ensures |r| == |pages|
  {
    seq(|pages|, i requires 0 <= i < |pages| => Rules.Retain(access, pages[i], dataOf))
  }

  lemma RetainConcat<T>(access: Rules.Access, a: seq<T>, b: seq<T>, dataOf: T -> Data)
    ensures Rules.Retain(access, a + b, dataOf) == Rules.Retain(access, a, dataOf) + Rules.Retain(access, b, dataOf)
  {
    if access.OwnerScoped? { Rules.FilterConcat(x => Rules.Permits(access.check, dataOf(x)), a, b); }
  }

  /** Dropping hidden documents after each page is dropping them from the pages put together. */
  lemma {:induction false} RetainPages<T>(access: Rules.Access, pages: seq<seq<T>>, dataOf: T -> Data)
    ensures Concat(RetainEach(access, pages, dataOf)) == Rules.Retain(access, Concat(pages), dataOf)
  {
    if pages != [] {
      RetainPages(access, pages[1..], dataOf);
      assert RetainEach(access, pages, dataOf)[1..] == RetainEach(access, pages[1..], dataOf);
      RetainConcat(access, pages[0], Concat(pages[1..]), dataOf);
    } else {
      RetainConcat(access, [], [], dataOf);
      assert Concat(pages) == [] && [] + Concat(pages) == [];
    }
  }

  function DataOf(doc: Document): Data { doc.data }

  predicate Visible(access: Rules.Access, doc: Document) {
    access.OwnerScoped? ==> Rules.Permits(access.check, doc.data)
  }

  /** Where the principal may read the collection at all, what it sees of it is just what it may read. */
  lemma VisibleIsReadable(principal: Rules.Principal, cs: Option<CollectionSchema>, doc: Document)
    ensures var rules := if cs.Some? then cs.value.rules else None;
            var access := Rules.CollectionAccess(principal, rules, Rules.Read);
            !access.Unauthenticated? && !access.Forbidden? ==>
              (Visible(access, doc) <==> Rules.MayDo(principal, rules, Rules.Read, Some(doc.data), None))
  {
    hide Rules.MayDo;
    Rules.WhoMayDoWhat(principal, cs, Some(doc.data), None, Rules.Read);
  }

  lemma RetainFirst(access: Rules.Access, docs: seq<Document>)
    requires docs != []
    ensures Rules.Retain(access, docs, DataOf) ==
            (if Visible(access, docs[0]) then [docs[0]] else []) + Rules.Retain(access, docs[1..], DataOf)
  {
    var one := [docs[0]];
    RetainConcat(access, one, docs[1..], DataOf);
    assert docs == one + docs[1..];
    assert one[1..] == [];
    if access.OwnerScoped? {
      var keep := x => Rules.Permits(access.check, DataOf(x));
      assert Rules.Filter(keep, one) == (if keep(one[0]) then [one[0]] else []) + Rules.Filter(keep, one[1..]);
    }
    assert Rules.Retain(access, one, DataOf) == if Visible(access, docs[0]) then one else [];
  }

  lemma NothingRetained(access: Rules.Access)
    ensures Rules.Retain(access, [], DataOf) == []
  {}

  lemma {:induction false} RetainCounts(access: Rules.Access, docs: seq<Document>, doc: Document)
    ensures multiset(Rules.Retain(access, docs, DataOf))[doc] == if Visible(access, doc) then multiset(docs)[doc] else 0
  {
    hide Rules.Retain, Visible;
    if docs == [] {
      NothingRetained(access);
    } else {
      RetainCounts(access, docs[1..], doc);
      RetainFirst(access, docs);
      assert docs == [docs[0]] + docs[1..];
    }
  }

  /** The documents of a collection, in id order. */
  ghost predicate IsWhole(st: Store, p: Bytes, c: Bytes, docs: seq<Document>) {
    && IdsOf(docs) == Ascending(Ids(st, p, c))
    && forall i | 0 <= i < |docs| :: DocAt(st, p, c, docs[i].id) == Some(docs[i])
  }

  lemma WholeHoldsEachOnce(st: Store, p: Bytes, c: Bytes, docs: seq<Document>, doc: Document)
    requires IsWhole(st, p, c, docs) && Typed(st)
    ensures multiset(docs)[doc] == if DocAt(st, p, c, doc.id) == Some(doc) then 1 else 0
  {
    hide Ascending, DocAt;
    AscendingMeans(Ids(st, p, c));
    var up := IdsOf(docs);
    IdsAreDocs(st, p, c, doc.id);
    if DocAt(st, p, c, doc.id) == Some(doc) {
      assert doc.id in up;
      var i :| 0 <= i < |up| && up[i] == doc.id;
      assert docs[i] == doc;
    }
    forall i, j | 0 <= i < j < |docs| ensures docs[i] != docs[j] {
      assert Less(up[i], up[j]);
      LessTrichotomy(up[i], up[j]);
    }
    OnceIfDistinct(docs, doc);
  }

  /** A client that follows a listing's cursors with any limits, each page filtered by what its access may see, reaches
      the end. Put together the pages are the whole collection in id order with the hidden documents left out: no
      visible document is lost between pages, none comes twice, and nothing hidden comes at all. */
  method ListAll(st: Store, p: Bytes, c: Bytes, access: Rules.Access,
                 limits: nat -> Limit) returns (docs: seq<Document>, ghost whole: seq<Document>)
    requires AllValid(st) && Typed(st) && ValidName(p) && ValidName(c)
    ensures IsWhole(st, p, c, whole) && docs == Rules.Retain(access, whole, DataOf)
    ensures forall doc ::
              multiset(docs)[doc] == if DocAt(st, p, c, doc.id) == Some(doc) && Visible(access, doc) then 1 else 0
  {
    hide Ascending, Above, PageOf, AllValid, Typed, DocAt, Ids, Rules.Retain, Visible, ValidName;
    ghost var ids := Ids(st, p, c);
    var cursor: Option<Bytes> := None;
    var n, more := 0, true;
    docs, whole := [], [];
    NothingRetained(access);
    AboveNothing(ids);
    while more
      invariant Ascending(ids) == IdsOf(whole) + if more then Ascending(Above(ids, cursor)) else []
      invariant forall i | 0 <= i < |whole| :: DocAt(st, p, c, whole[i].id) == Some(whole[i])
      invariant docs == Rules.Retain(access, whole, DataOf)
      decreases if more then |Above(ids, cursor)| + 1 else 0
    {
      var page, next := List(st, p, c, limits(n), cursor);
      ListedMore(ids, cursor, limits(n), whole, page, next);
      RetainConcat(access, whole, page, DataOf);
      var shown := Rules.RetainItems(access, page, DataOf);
      docs, whole := docs + shown, whole + page;
      cursor, more, n := next, next.Some?, n + 1;
    }
    AllVisibleOnce(st, p, c, access, whole);
  }

  lemma AboveNothing(ids: set<Bytes>)
    ensures Above(ids, None) == ids
  {}

  /** One page further: the ids seen and those to come are still all of them. */
  lemma ListedMore(ids: set<Bytes>, cursor: Option<Bytes>, limit: Limit, whole: seq<Document>, page: seq<Document>,
                   next: Option<Bytes>)
    requires Ascending(ids) == IdsOf(whole) + Ascending(Above(ids, cursor))
    requires Page(IdsOf(page), next) == PageOf(ids, cursor, limit)
    ensures Ascending(ids) == IdsOf(whole + page) + if next.Some? then Ascending(Above(ids, next)) else []
    ensures next.Some? ==> |Above(ids, next)| < |Above(ids, cursor)|
  {
    hide Ascending, Above, PageOf;
    PageSplits(ids, cursor, limit);
    IdsConcat(whole, page);
    if next.Some? { FewerAbove(ids, cursor, next.value); }
  }

  lemma AllVisibleOnce(st: Store, p: Bytes, c: Bytes, access: Rules.Access, whole: seq<Document>)
    requires IsWhole(st, p, c, whole) && Typed(st)
    ensures forall doc :: multiset(Rules.Retain(access, whole, DataOf))[doc] ==
              if DocAt(st, p, c, doc.id) == Some(doc) && Visible(access, doc) then 1 else 0
  {
    hide IsWhole, DocAt, Visible, Rules.Retain;
    forall doc ensures multiset(Rules.Retain(access, whole, DataOf))[doc] ==
      if DocAt(st, p, c, doc.id) == Some(doc) && Visible(access, doc) then 1 else 0
    {
      WholeHoldsEachOnce(st, p, c, whole, doc);
      RetainCounts(access, whole, doc);
    }
  }

  lemma IdsConcat(a: seq<Document>, b: seq<Document>)
    ensures IdsOf(a + b) == IdsOf(a) + IdsOf(b)
  {}

  // ---- Listings of a changing store ----

  /** A listing that ended, page i read from the store of that moment: each page is what `List` answers. */
  ghost predicate IsListing(stores: seq<Store>, p: Bytes, c: Bytes, cursor: Option<Bytes>, limits: seq<Limit>,
                            docs: seq<seq<Document>>, nexts: seq<Option<Bytes>>) {
    && |stores| == |limits| == |docs| == |nexts| > 0
    && Page(IdsOf(docs[0]), nexts[0]) == PageOf(Ids(stores[0], p, c), cursor, limits[0])
    && (forall j | 0 <= j < |docs[0]| :: DocAt(stores[0], p, c, docs[0][j].id) == Some(docs[0][j]))
    && (if nexts[0].None? then |docs| == 1
        else |docs| > 1 && IsListing(stores[1..], p, c, nexts[0], limits[1..], docs[1..], nexts[1..]))
  }

  function SetsOf(stores: seq<Store>, p: Bytes, c: Bytes): (r: seq<set<Bytes>>)
    ensures |r| == |stores|
  {
    seq(|stores|, i requires 0 <= i < |stores| => Ids(stores[i], p, c))
  }

  function PagesOf(docs: seq<seq<Document>>, nexts: seq<Option<Bytes>>): (r: seq<Page>)
    requires |docs| == |nexts|
    ensures |r| == |docs|
  {
    seq(|docs|, i requires 0 <= i < |docs| => Page(IdsOf(docs[i]), nexts[i]))
  }

  /** Its ids are a traversal of the sets of ids present at each page. */
  lemma {:induction false} ListingTraverses(stores: seq<Store>, p: Bytes, c: Bytes, cursor: Option<Bytes>,
                                            limits: seq<Limit>,
                                            docs: seq<seq<Document>>, nexts: seq<Option<Bytes>>)
    requires IsListing(stores, p, c, cursor, limits, docs, nexts)
    ensures IsTraversal(SetsOf(stores, p, c), cursor, limits, PagesOf(docs, nexts))
    ensures Joined(PagesOf(docs, nexts)) == IdsOf(Concat(docs))
    ensures forall doc | doc in Concat(docs) ::
              exists i :: 0 <= i < |stores| && DocAt(stores[i], p, c, doc.id) == Some(doc)
  {
    hide PageOf, Ids, DocAt;
    IdsConcat(docs[0], Concat(docs[1..]));
    assert PagesOf(docs, nexts)[1..] == PagesOf(docs[1..], nexts[1..]);
    if |docs| > 1 {
      ListingTraverses(stores[1..], p, c, nexts[0], limits[1..], docs[1..], nexts[1..]);
      assert SetsOf(stores, p, c)[1..] == SetsOf(stores[1..], p, c);
    } else {
      assert docs[1..] == [];
    }
    forall doc | doc in Concat(docs)
      ensures exists i :: 0 <= i < |stores| && DocAt(stores[i], p, c, doc.id) == Some(doc)
    {
      if doc in docs[0] {
        var j :| 0 <= j < |docs[0]| && docs[0][j] == doc;
        assert DocAt(stores[0], p, c, doc.id) == Some(doc);
      } else {
        var i :| 0 <= i < |stores| - 1 && DocAt(stores[1..][i], p, c, doc.id) == Some(doc);
        assert stores[1..][i] == stores[i + 1];
      }
    }
  }

  /** Whatever is inserted, changed or deleted between pages, a document present throughout a listing is returned
      exactly once, and ids come in ascending order. */
  lemma ListedExactlyOnce(stores: seq<Store>, p: Bytes, c: Bytes, limits: seq<Limit>, docs: seq<seq<Document>>,
                          nexts: seq<Option<Bytes>>, id: Bytes)
    requires IsListing(stores, p, c, None, limits, docs, nexts)
    requires forall i | 0 <= i < |stores| :: DocAt(stores[i], p, c, id).Some?
    ensures multiset(IdsOf(Concat(docs)))[id] == 1 && Up(IdsOf(Concat(docs)))
  {
    hide DocAt, Ids;
    ListingTraverses(stores, p, c, None, limits, docs, nexts);
    var sets := SetsOf(stores, p, c);
    forall i | 0 <= i < |sets| ensures id in sets[i] { IdsAreDocs(stores[i], p, c, id); }
    ReturnedExactlyOnce(sets, limits, PagesOf(docs, nexts), id);
    JoinedAscends(sets, None, limits, PagesOf(docs, nexts));
  }

  /** The same of owner-filtered pages, with cursors taken before the filter: a document present and visible throughout
      comes exactly once, and whatever comes is visible as returned. */
  lemma FilteredPages(stores: seq<Store>, p: Bytes, c: Bytes, limits: seq<Limit>, docs: seq<seq<Document>>,
                      nexts: seq<Option<Bytes>>, access: Rules.Access, id: Bytes)
    requires IsListing(stores, p, c, None, limits, docs, nexts)
    requires forall i | 0 <= i < |stores| ::
               DocAt(stores[i], p, c, id).Some? && Visible(access, DocAt(stores[i], p, c, id).value)
    ensures multiset(IdsOf(Concat(RetainEach(access, docs, DataOf))))[id] == 1
    ensures forall doc | doc in Concat(RetainEach(access, docs, DataOf)) :: Visible(access, doc)
  {
    hide DocAt, Visible, Rules.Retain;
    ListedExactlyOnce(stores, p, c, limits, docs, nexts, id);
    ListingTraverses(stores, p, c, None, limits, docs, nexts);
    var all := Concat(docs);
    RetainPages(access, docs, DataOf);
    forall doc | doc in all && doc.id == id ensures Visible(access, doc) {
      var i :| 0 <= i < |stores| && DocAt(stores[i], p, c, doc.id) == Some(doc);
    }
    RetainKeepsId(access, all, id);
    forall doc | doc in Rules.Retain(access, all, DataOf) ensures Visible(access, doc) {
      RetainCounts(access, all, doc);
      assert multiset(Rules.Retain(access, all, DataOf))[doc] > 0;
    }
  }

  lemma {:induction false} RetainKeepsId(access: Rules.Access, docs: seq<Document>, id: Bytes)
    requires forall doc | doc in docs && doc.id == id :: Visible(access, doc)
    ensures multiset(IdsOf(Rules.Retain(access, docs, DataOf)))[id] == multiset(IdsOf(docs))[id]
  {
    hide Rules.Retain, Visible;
    if docs == [] {
      NothingRetained(access);
    } else {
      RetainKeepsId(access, docs[1..], id);
      RetainFirst(access, docs);
      var first := [docs[0]];
      assert docs == first + docs[1..] && docs[0] in docs;
      IdsConcat(first, docs[1..]);
      IdsConcat(if Visible(access, docs[0]) then first else [], Rules.Retain(access, docs[1..], DataOf));
      assert IdsOf(first) == [docs[0].id];
    }
  }
}
