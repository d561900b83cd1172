/** The key space: six kinds of key, their byte layout, and what each prefix scan can see. */
module Keys {
  import opened ByteStrings
  import opened Values
  import opened Encoding

  datatype Key =
    | MetaKey(p: Bytes)
    | DocKey(p: Bytes, c: Bytes, id: Bytes)
    | IdxKey(p: Bytes, c: Bytes, name: Bytes, vals: seq<Bytes>, id: Bytes)
    | StatsKey(p: Bytes, c: Bytes, name: Bytes)
    | PostKey(p: Bytes, c: Bytes, name: Bytes, term: Bytes, id: Bytes)
    | VecKey(p: Bytes, c: Bytes, name: Bytes, id: Bytes)

  const META: Bytes := [95, 109, 101, 116, 97]  // "_meta"
  const FTS: Bytes := [95, 102, 116, 115]       // "_fts"
  const VEC: Bytes := [95, 118, 101, 99]        // "_vec"
  const SCHEMA: Bytes := [115, 99, 104, 101, 109, 97]
  const T: Bytes := [116]

  predicate Lower(b: byte) { 97 <= b <= 122 }
  predicate Digit(b: byte) { 48 <= b <= 57 }

  /** `[a-z0-9][a-z0-9_-]{0,63}` */
  predicate ValidName(name: Bytes) {
    && 0 < |name| <= 64
    && (Lower(name[0]) || Digit(name[0]))
    && forall i | 0 <= i < |name| :: Lower(name[i]) || Digit(name[i]) || name[i] == 45 || name[i] == 95
  }

  predicate ValidId(id: Bytes) {
    && 0 < |id| <= 64
    && forall i | 0 <= i < |id| :: Lower(id[i]) || 65 <= id[i] <= 90 || Digit(id[i]) || id[i] == 45 || id[i] == 95
  }

  predicate ValidIndexName(name: Bytes) {
    && 0 < |name| <= 64
    && forall i | 0 <= i < |name| :: name[i] >= 32 && name[i] != 127 && name[i] != COLON
  }

  /** The names again, by their characters. */
  lemma WhichNames(name: Bytes)
    ensures ValidName(name) <==>
              && 1 <= |name| < 65 && name[0] as char != '-' && name[0] as char != '_'
              && forall i | 0 <= i < |name| :: var ch := name[i] as char;
                   'a' <= ch <= 'z' || '0' <= ch <= '9' || ch == '-' || ch == '_'
    ensures ValidId(name) <==>
              && 1 <= |name| < 65
              && forall i | 0 <= i < |name| :: var ch := name[i] as char;
                   'a' <= ch <= 'z' || 'A' <= ch <= 'Z' || '0' <= ch <= '9' || ch == '-' || ch == '_'
    ensures ValidIndexName(name) <==>
              && 1 <= |name| < 65
              && forall i | 0 <= i < |name| :: var ch := name[i] as char;
                   !(ch < ' ') && ch != ':' && name[i] != 0x7f
  {}

  datatype IndexKind = EqualityIndex | TextIndex | VectorIndex

  /** All index names of a collection with their kinds, in the order the push checks them. */
  function KindNames(cs: CollectionSchema): seq<(IndexKind, Bytes)> {
    seq(|cs.indexes|, i requires 0 <= i < |cs.indexes| => (EqualityIndex, cs.indexes[i].name))
    + seq(|cs.searchIndexes|, i requires 0 <= i < |cs.searchIndexes| => (TextIndex, cs.searchIndexes[i].name))
    + seq(|cs.vectorIndexes|, i requires 0 <= i < |cs.vectorIndexes| => (VectorIndex, cs.vectorIndexes[i].name))
  }

  predicate AllDistinct<T(==)>(s: seq<T>) { forall i, j | 0 <= i < j < |s| :: s[i] != s[j] }

  predicate ValidIndexNames(cs: CollectionSchema) {
    && (forall i | 0 <= i < |cs.indexes| :: ValidIndexName(cs.indexes[i].name))
    && (forall i | 0 <= i < |cs.searchIndexes| :: ValidIndexName(cs.searchIndexes[i].name))
    && (forall i | 0 <= i < |cs.vectorIndexes| :: ValidIndexName(cs.vectorIndexes[i].name))
  }

  /** Every name a schema contributes to the key space is valid, and index names are unique within their kind. */
  predicate NamesAccepted(schema: ProjectSchema) {
    forall c | c in schema.collections ::
             ValidName(c) && ValidIndexNames(schema.collections[c]) && UniqueNames(schema.collections[c])
  }

  /** The push's name check, collection by collection. */
  method ComputeNameCheck(schema: ProjectSchema) returns (ok: bool)
    ensures ok <==> NamesAccepted(schema)
  {
    hide ValidName, ValidIndexNames, UniqueNames;
    var left := schema.collections.Keys;
    while left != {}
      invariant left <= schema.collections.Keys
      invariant forall c | c in schema.collections && c !in left ::
                  ValidName(c) && ValidIndexNames(schema.collections[c]) && UniqueNames(schema.collections[c])
      decreases left
    {
      var c :| c in left;
      if !ValidName(c) { return false; }
      var good := CheckIndexNames(schema.collections[c]);
      if !good { return false; }
      left := left - {c};
    }
    return true;
  }

  /** One pass over all index names of a collection with a set of those seen. */
  method CheckIndexNames(cs: CollectionSchema) returns (ok: bool)
    ensures ok <==> ValidIndexNames(cs) && UniqueNames(cs)
  {
    var names := KindNames(cs);
    NamesByKind(cs);
    var seen: set<(IndexKind, Bytes)> := {};
    for i := 0 to |names|
      invariant forall x :: x in seen <==> x in names[..i]
      invariant AllDistinct(names[..i]) && forall j | 0 <= j < i :: ValidIndexName(names[j].1)
    {
      if !ValidIndexName(names[i].1) { return false; }
      if names[i] in seen {
        var j :| 0 <= j < i && names[..i][j] == names[i];
        assert names[j] == names[i];
        return false;
      }
      seen := seen + {names[i]};
      assert names[..i + 1] == names[..i] + [names[i]];
    }
    assert names[..|names|] == names;
    return true;
  }

  lemma NamesByKind(cs: CollectionSchema)
    ensures AllDistinct(KindNames(cs)) <==> UniqueNames(cs)
    ensures (forall j | 0 <= j < |KindNames(cs)| :: ValidIndexName(KindNames(cs)[j].1)) <==> ValidIndexNames(cs)
  {
    hide ValidIndexName;
    var names, a, b := KindNames(cs), |cs.indexes|, |cs.indexes| + |cs.searchIndexes|;
    forall i | 0 <= i < |cs.indexes| ensures names[i] == (EqualityIndex, cs.indexes[i].name) {}
    forall i | 0 <= i < |cs.searchIndexes| ensures names[a + i] == (TextIndex, cs.searchIndexes[i].name) {}
    forall i | 0 <= i < |cs.vectorIndexes| ensures names[b + i] == (VectorIndex, cs.vectorIndexes[i].name) {}
    if AllDistinct(names) {
      forall i, j | 0 <= i < j < |cs.indexes| ensures cs.indexes[i].name != cs.indexes[j].name {
        assert names[i] != names[j];
      }
      forall i, j | 0 <= i < j < |cs.searchIndexes| ensures cs.searchIndexes[i].name != cs.searchIndexes[j].name {
        assert names[a + i] != names[a + j];
      }
      forall i, j | 0 <= i < j < |cs.vectorIndexes| ensures cs.vectorIndexes[i].name != cs.vectorIndexes[j].name {
        assert names[b + i] != names[b + j];
      }
    }
    if forall j | 0 <= j < |names| :: ValidIndexName(names[j].1) {
      forall i | 0 <= i < |cs.indexes| ensures ValidIndexName(cs.indexes[i].name) { assert ValidIndexName(names[i].1); }
      forall i | 0 <= i < |cs.searchIndexes| ensures ValidIndexName(cs.searchIndexes[i].name) {
        assert ValidIndexName(names[a + i].1);
      }
      forall i | 0 <= i < |cs.vectorIndexes| ensures ValidIndexName(cs.vectorIndexes[i].name) {
        assert ValidIndexName(names[b + i].1);
      }
    }
  }

  /** A key built from names that passed the request checks. */
  predicate ValidKey(k: Key) {
    && ValidName(k.p)
    && (!k.MetaKey? ==> ValidName(k.c))
    && (!k.MetaKey? && !k.DocKey? ==> ValidIndexName(k.name))
    && (!k.MetaKey? && !k.StatsKey? ==> ValidId(k.id))
    && (k.IdxKey? ==> forall v | v in k.vals :: Free(v, SEP))
  }

  function Segments(k: Key): seq<Bytes> {
    match k
    case MetaKey(p) => [META, p]
    case DocKey(p, c, _) => [p, c]
    case IdxKey(p, c, name, _, _) => [IDX, p, c, name]
    case StatsKey(p, c, name) => [FTS, p, c, name]
    case PostKey(p, c, name, _, _) => [FTS, p, c, name, T]
    case VecKey(p, c, name, _) => [VEC, p, c, name]
  }

  function Tail(k: Key): Bytes {
    match k
    case MetaKey(_) => SCHEMA
    case DocKey(_, _, id) => id
    case IdxKey(_, _, _, vals, id) => Terminated(vals, SEP) + id
    case StatsKey(_, _, _) => [115]
    case PostKey(_, _, _, term, id) => Escape(term) + [SEP] + id
    case VecKey(_, _, _, id) => id
  }

  /** Colon-closed segments, then what is left of the key. */
  function KeyBytes(k: Key): Bytes {
    Terminated(Segments(k), COLON) + Tail(k)
  }

  /** The layout of each kind of key. */
  lemma KeyLayout(k: Key)
    ensures var sep := Spell(":");
            KeyBytes(k) ==
            match k
            case MetaKey(p) => Spell("_meta:") + p + Spell(":schema")
            case DocKey(p, c, id) => p + sep + c + sep + id
            case IdxKey(p, c, name, vals, id) =>
              Spell("_idx:") + p + sep + c + sep + name + sep + Terminated(vals, 0) + id
            case StatsKey(p, c, name) => Spell("_fts:") + p + sep + c + sep + name + Spell(":s")
            case PostKey(p, c, name, term, id) =>
              Spell("_fts:") + p + sep + c + sep + name + Spell(":t:") + Escape(term) + [0] + id
            case VecKey(p, c, name, id) => Spell("_vec:") + p + sep + c + sep + name + sep + id
  {
    hide Terminated, Spell, Escape;
    Prefixes();
    match k
    case MetaKey(p) => TwoSegments(META, p, SCHEMA);
    case DocKey(p, c, id) => TwoSegments(p, c, id);
    case IdxKey(p, c, name, vals, id) => FourSegments(IDX, p, c, name, Terminated(vals, SEP) + id);
    case StatsKey(p, c, name) => FourSegments(FTS, p, c, name, [115]);
    case PostKey(p, c, name, term, id) => PostingSegments(p, c, name, Escape(term) + [SEP] + id);
    case VecKey(p, c, name, id) => FourSegments(VEC, p, c, name, id);
  }

  lemma Prefixes()
    ensures Spell(":") == [COLON] && Spell("_meta:") == META + [COLON] && Spell(":schema") == [COLON] + SCHEMA
    ensures Spell("_idx:") == IDX + [COLON] && Spell("_fts:") == FTS + [COLON] && Spell("_vec:") == VEC + [COLON]
    ensures Spell(":s") == [COLON, 115] && Spell(":t:") == [COLON] + T + [COLON]
  {}

  lemma TwoSegments(a: Bytes, b: Bytes, tail: Bytes)
    ensures Terminated([a, b], COLON) + tail == a + [COLON] + b + [COLON] + tail
  {
    var two, one := [a, b], [b];
    assert two[1..] == one && one[1..] == [];
    assert Terminated(one, COLON) == b + [COLON] + Terminated([], COLON);
    assert Terminated(two, COLON) == a + [COLON] + Terminated(one, COLON);
  }

  lemma FourSegments(a: Bytes, b: Bytes, c: Bytes, d: Bytes, tail: Bytes)
    ensures Terminated([a, b, c, d], COLON) + tail
         == a + [COLON] + b + [COLON] + c + [COLON] + d + [COLON] + tail
  {
    var four := [a, b, c, d];
    assert four[1..][1..] == [c, d] && four[1..][0] == b;
    TwoSegments(c, d, tail);
    assert Terminated(four, COLON) == a + [COLON] + (b + [COLON] + Terminated([c, d], COLON));
    assert Terminated(four, COLON) + tail == a + [COLON] + b + [COLON] + (Terminated([c, d], COLON) + tail);
  }

  lemma PostingSegments(p: Bytes, c: Bytes, name: Bytes, tail: Bytes)
    ensures Terminated([FTS, p, c, name, T], COLON) + tail
         == FTS + [COLON] + p + [COLON] + c + [COLON] + name + [COLON] + T + [COLON] + tail
  {
    var four := [FTS, p, c, name];
    TerminatedSnoc(four, T, COLON);
    assert four + [T] == [FTS, p, c, name, T];
    assert Terminated(four + [T], COLON) + tail == Terminated(four, COLON) + (T + [COLON] + tail);
    FourSegments(FTS, p, c, name, T + [COLON] + tail);
  }

  lemma SegmentsFree(k: Key)
    requires ValidKey(k)
    ensures forall s | s in Segments(k) :: Free(s, COLON)
  {
  }

  lemma EntryKeyIsIdxKey(e: Env, p: Bytes, c: Bytes, index: IndexDef, data: Data, id: Bytes)
    ensures EntryKey(e, p, c, index, data, id)
         == KeyBytes(IdxKey(p, c, index.name, EncodedFields(e, index.fields, data), id))
  {
    var base, mid := IndexBase(p, c, index.name), Terminated(EncodedFields(e, index.fields, data), SEP);
    assert base + (mid + id) == base + mid + id;
  }

  /** Distinct valid keys have distinct bytes: no namespace, project, collection, index, term or id can
      spell another's key, so the ordered byte map behaves as a map over structured keys. */
  lemma KeyBytesInjective(j: Key, k: Key)
    requires ValidKey(j) && ValidKey(k)
    requires KeyBytes(j) == KeyBytes(k)
    ensures j == k
  {
    SegmentsFree(j);
    SegmentsFree(k);
    PeelSegment(Segments(j), Tail(j), Segments(k), Tail(k), COLON);
    assert Segments(j)[0] == Segments(k)[0];
    if j.StatsKey? && k.PostKey? {
      StatsIsNotPosting(j, k);
    } else if j.PostKey? && k.StatsKey? {
      StatsIsNotPosting(k, j);
    } else {
      TerminatedSame(Segments(j), Tail(j), Segments(k), Tail(k), COLON);
      if j.IdxKey? {
        TerminatedInjective(j.vals, j.id, k.vals, k.id, SEP);
      } else if j.PostKey? {
        EscapeFree(j.term);
        EscapeFree(k.term);
        SplitEqual(Escape(j.term), Escape(k.term), j.id, k.id, SEP);
        EscapeInjective(j.term, k.term);
      }
      assert j.p == Segments(j)[if j.DocKey? then 0 else 1] == k.p;
    }
  }

  lemma StatsIsNotPosting(j: Key, k: Key)
    requires j.StatsKey? && k.PostKey? && ValidKey(j) && ValidKey(k)
    ensures KeyBytes(j) != KeyBytes(k)
  {
    assert Tail(j)[0] != (T + [COLON] + Tail(k))[0];
    if KeyBytes(j) == KeyBytes(k) {
      SegmentsFree(j);
      SegmentsFree(k);
      TerminatedSnoc([FTS, k.p, k.c, k.name], T, COLON);
      assert Segments(k) == [FTS, k.p, k.c, k.name] + [T];
      assert KeyBytes(k) == Terminated([FTS, k.p, k.c, k.name], COLON) + (T + [COLON] + Tail(k));
      TerminatedSame(Segments(j), Tail(j), [FTS, k.p, k.c, k.name], T + [COLON] + Tail(k), COLON);
    }
  }

  // ---- What a prefix scan sees ----

  lemma {:induction false} SegmentScan(xs: seq<Bytes>, k: Key)
    requires ValidKey(k) && 0 < |xs| <= |Segments(k)|
    requires forall x | x in xs :: Free(x, COLON)
    ensures Terminated(xs, COLON) <= KeyBytes(k) <==> xs <= Segments(k)
  {
    SegmentsFree(k);
    TerminatedPrefix(xs, Segments(k), Tail(k), COLON);
  }

  lemma HeadDiffers(xs: seq<Bytes>, k: Key)
    requires ValidKey(k) && xs != [] && Free(xs[0], COLON) && xs[0] != Segments(k)[0]
    ensures !(Terminated(xs, COLON) <= KeyBytes(k))
  {
    SegmentsFree(k);
    hide ValidKey, Segments, Tail;
    FirstSegmentDiffers(xs, Segments(k), Tail(k));
  }

  lemma FirstSegmentDiffers(xs: seq<Bytes>, ys: seq<Bytes>, tail: Bytes)
    requires xs != [] && ys != [] && Free(xs[0], COLON) && Free(ys[0], COLON) && xs[0] != ys[0]
    ensures !(Terminated(xs, COLON) <= Terminated(ys, COLON) + tail)
  {
    var r, s := Terminated(xs[1..], COLON), Terminated(ys[1..], COLON);
    SplitPrefix(xs[0], ys[0], r, s + tail, COLON);
    assert Terminated(ys, COLON) + tail == ys[0] + [COLON] + (s + tail);
  }

  /** The three clean-up scans of a schema push see exactly the project's index entries, and its document
      scan sees exactly the project's documents. */
  lemma ProjectScans(p: Bytes, k: Key)
    requires ValidName(p) && ValidKey(k)
    ensures Terminated([IDX, p], COLON) <= KeyBytes(k) <==> k.IdxKey? && k.p == p
    ensures Terminated([FTS, p], COLON) <= KeyBytes(k) <==> (k.StatsKey? || k.PostKey?) && k.p == p
    ensures Terminated([VEC, p], COLON) <= KeyBytes(k) <==> k.VecKey? && k.p == p
    ensures Terminated([p], COLON) <= KeyBytes(k) <==> k.DocKey? && k.p == p
  {
    SegmentScan([IDX, p], k);
    SegmentScan([FTS, p], k);
    SegmentScan([VEC, p], k);
    SegmentScan([p], k);
    var ys := Segments(k);
    assert ys[0] == IDX <==> k.IdxKey?;
    assert [IDX, p] <= ys <==> IDX == ys[0] && p == ys[1];
    assert [FTS, p] <= ys <==> FTS == ys[0] && p == ys[1];
    assert [VEC, p] <= ys <==> VEC == ys[0] && p == ys[1];
    assert [p] <= ys <==> p == ys[0];
  }

  /** A collection listing, a term's postings and one vector index are each exactly one prefix. */
  lemma CollectionScans(p: Bytes, c: Bytes, name: Bytes, k: Key)
    requires ValidName(p) && ValidName(c) && ValidIndexName(name) && ValidKey(k)
    ensures Terminated([p, c], COLON) <= KeyBytes(k) <==> k.DocKey? && k.p == p && k.c == c
    ensures Terminated([VEC, p, c, name], COLON) <= KeyBytes(k)
       <==> k.VecKey? && k.p == p && k.c == c && k.name == name
    ensures Terminated([IDX, p, c, name], COLON) <= KeyBytes(k)
       <==> k.IdxKey? && k.p == p && k.c == c && k.name == name
  {
    var ys := Segments(k);
    SegmentScan([p, c], k);
    assert [p, c] <= ys <==> p == ys[0] && c == ys[1];
    if k.VecKey? {
      SegmentScan([VEC, p, c, name], k);
      assert [VEC, p, c, name] <= ys <==> p == ys[1] && c == ys[2] && name == ys[3];
    } else {
      HeadDiffers([VEC, p, c, name], k);
    }
    if k.IdxKey? {
      SegmentScan([IDX, p, c, name], k);
      assert [IDX, p, c, name] <= ys <==> p == ys[1] && c == ys[2] && name == ys[3];
    } else {
      HeadDiffers([IDX, p, c, name], k);
    }
  }

  function TermPrefix(p: Bytes, c: Bytes, name: Bytes, term: Bytes): Bytes {
    Terminated([FTS, p, c, name, T], COLON) + Escape(term) + [SEP]
  }

  /** A term's posting scan sees that term's postings and no longer term's, nor the statistics entry. */
  lemma TermScan(p: Bytes, c: Bytes, name: Bytes, term: Bytes, k: Key)
    requires ValidName(p) && ValidName(c) && ValidIndexName(name) && ValidKey(k)
    ensures TermPrefix(p, c, name, term) <= KeyBytes(k)
       <==> k.PostKey? && k.p == p && k.c == c && k.name == name && k.term == term
  {
    var xs := [FTS, p, c, name, T];
    var prefix, rest := TermPrefix(p, c, name, term), Escape(term) + [SEP];
    assert prefix == Terminated(xs, COLON) + rest;
    if k.PostKey? {
      SegmentScan(xs, k);
      var ys := Segments(k);
      assert xs <= ys <==> p == ys[1] && c == ys[2] && name == ys[3];
      assert Terminated(xs, COLON) <= prefix;
      if xs <= Segments(k) {
        assert xs == Segments(k);
        CommonPrefix(Terminated(xs, COLON), rest, Tail(k));
        EscapeFree(term);
        EscapeFree(k.term);
        SplitPrefix(Escape(term), Escape(k.term), [], k.id, SEP);
        assert Escape(term) + [SEP] + [] == rest;
        if Escape(term) == Escape(k.term) { EscapeInjective(term, k.term); }
      }
    } else if k.StatsKey? {
      var four := [FTS, p, c, name];
      TerminatedSnoc(four, T, COLON);
      assert xs == four + [T];
      assert prefix == Terminated(four, COLON) + (T + [COLON] + rest);
      SegmentScan(four, k);
      if four == Segments(k) {
        CommonPrefix(Terminated(four, COLON), T + [COLON] + rest, Tail(k));
        assert (T + [COLON] + rest)[0] != Tail(k)[0];
      } else {
        assert Terminated(four, COLON) <= prefix;
      }
    } else {
      HeadDiffers(xs, k);
      assert Terminated(xs, COLON) <= prefix;
    }
  }

  // ---- Splitting a document key ----

  function SplitOnce(s: Bytes): Option<(Bytes, Bytes)> {
    if s == [] then None
    else if s[0] == COLON then Some(([], s[1..]))
    else match SplitOnce(s[1..])
      case None => None
      case Some((head, rest)) => Some(([s[0]] + head, rest))
  }

  /** Back to (project, collection, id): split at the first two colons. */
  function ParseKey(key: Bytes): Option<(Bytes, Bytes, Bytes)> {
    match SplitOnce(key)
    case None => None
    case Some((p, rest)) =>
      match SplitOnce(rest)
      case None => None
      case Some((c, id)) => Some((p, c, id))
  }

  lemma {:induction false} SplitOnceAt(head: Bytes, rest: Bytes)
    requires Free(head, COLON)
    ensures SplitOnce(head + [COLON] + rest) == Some((head, rest))
  {
    var s := head + [COLON] + rest;
    if head == [] {
      assert s[1..] == rest;
    } else {
      SplitOnceAt(head[1..], rest);
      assert s[1..] == head[1..] + [COLON] + rest;
      assert head == [head[0]] + head[1..];
    }
  }

  lemma ParseKeyRoundTrip(p: Bytes, c: Bytes, id: Bytes)
    requires ValidName(p) && ValidName(c)
    ensures ParseKey(KeyBytes(DocKey(p, c, id))) == Some((p, c, id))
  {
    var two, one := [p, c], [c];
    assert two[1..] == one && one[1..] == [];
    assert Terminated(one, COLON) == c + [COLON];
    assert Terminated(two, COLON) == p + [COLON] + Terminated(one, COLON);
    assert KeyBytes(DocKey(p, c, id)) == p + [COLON] + (c + [COLON] + id);
    SplitOnceAt(p, c + [COLON] + id);
    SplitOnceAt(c, id);
  }
}
