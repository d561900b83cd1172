/** The store as one map, write batches, and what every index must hold for the documents present. */
module Stores {
  import opened ByteStrings
  import opened Values
  import opened Encoding
  import opened Keys
  import opened Fts
  import Vectors

  datatype Val =
    | SchemaVal(schema: ProjectSchema)
    | DocVal(doc: Document)
    | IdVal(id: Bytes)
    | PostVal(tf: nat, len: nat)
    | StatsVal(stats: Stats)
    | VecVal(v: seq<bits32>)

  type Store = map<Key, Val>

  function Look(st: Store, k: Key): Option<Val> {
    if k in st then Some(st[k]) else None
  }

  function SchemaAt(st: Store, p: Bytes): Option<ProjectSchema> {
    match Look(st, MetaKey(p))
    case Some(SchemaVal(schema)) => Some(schema)
    case _ => None
  }

  function DocAt(st: Store, p: Bytes, c: Bytes, id: Bytes): Option<Document> {
    match Look(st, DocKey(p, c, id))
    case Some(DocVal(doc)) => Some(doc)
    case _ => None
  }

  function CollectionAt(st: Store, p: Bytes, c: Bytes): Option<CollectionSchema> {
    Collection(SchemaAt(st, p), c)
  }

  /** Corpus statistics as a writer reads them: an absent entry is an empty corpus. */
  function StatsAt(st: Store, p: Bytes, c: Bytes, name: Bytes): Stats {
    match Look(st, StatsKey(p, c, name))
    case Some(StatsVal(stats)) => stats
    case _ => Stats(0, 0)
  }

  function VecAt(st: Store, p: Bytes, c: Bytes, name: Bytes, id: Bytes): Option<seq<bits32>> {
    match Look(st, VecKey(p, c, name, id))
    case Some(VecVal(v)) => Some(v)
    case _ => None
  }

  // ---- Batches ----

  datatype BatchOp = Put(key: Key, val: Val) | Delete(key: Key)

  /** What a batch does to each key it names: the value it leaves, or `None` for a deletion. */
  type Effect = map<Key, Option<Val>>

  /** The last operation on a key wins. */
  function EffectOf(ops: seq<BatchOp>): Effect {
    if ops == [] then map[]
    else
      var last := ops[|ops| - 1];
      EffectOf(ops[..|ops| - 1])[last.key := if last.Put? then Some(last.val) else None]
  }

  function Apply(st: Store, eff: Effect): Store {
    map k | k in st.Keys + eff.Keys && (k in eff ==> eff[k].Some?) :: if k in eff then eff[k].value else st[k]
  }

  /** Operations one at a time. */
  function Play(st: Store, ops: seq<BatchOp>): Store {
    if ops == [] then st
    else
      var before := Play(st, ops[..|ops| - 1]);
      match ops[|ops| - 1]
      case Put(k, v) => before[k := v]
      case Delete(k) => before - {k}
  }

  /** Applying a batch atomically is playing its operations in order. */
  lemma {:induction false} BatchIsLastWins(st: Store, ops: seq<BatchOp>)
    ensures Apply(st, EffectOf(ops)) == Play(st, ops)
  {
    if ops == [] {
      assert Apply(st, EffectOf(ops)) == st;
    } else {
      var n := |ops| - 1;
      BatchIsLastWins(st, ops[..n]);
      ApplySnoc(st, EffectOf(ops[..n]), ops[n]);
    }
  }

  lemma ApplySnoc(st: Store, eff: Effect, last: BatchOp)
    ensures Apply(st, eff[last.key := if last.Put? then Some(last.val) else None])
         == match last
            case Put(k, v) => Apply(st, eff)[k := v]
            case Delete(k) => Apply(st, eff) - {k}
  {
  }

  // ---- Index entries a document owns ----

  predicate PerDocument(k: Key) { k.IdxKey? || k.PostKey? || k.VecKey? }

  /** The value an index key of this document's collection and id must hold, if any. */
  function EntryAt(e: Env, cs: CollectionSchema, doc: Document, k: Key): Option<Val> {
    match k
    case IdxKey(_, _, name, vals, _) =>
      (match FindIndex(cs.indexes, name)
       case Some(index) => if vals == EncodedFields(e, index.fields, doc.data) then Some(IdVal(doc.id)) else None
       case None => None)
    case PostKey(_, _, name, term, _) =>
      (match FindSearch(cs.searchIndexes, name)
       case Some(index) =>
         var terms := TermsIn(e, index, doc.data);
         if term in terms.tf then Some(PostVal(terms.tf[term], terms.len)) else None
       case None => None)
    case VecKey(_, _, name, _) =>
      (match FindVector(cs.vectorIndexes, name)
       case Some(index) =>
         (match Vectors.DocVector(e, doc.data, index.field, index.dims)
          case Some(v) => Some(VecVal(v))
          case None => None)
       case None => None)
    case _ => None
  }

  function IdxKeys(e: Env, p: Bytes, c: Bytes, defs: seq<IndexDef>, doc: Document): set<Key> {
    set i | 0 <= i < |defs| :: IdxKey(p, c, defs[i].name, EncodedFields(e, defs[i].fields, doc.data), doc.id)
  }

  function PostKeys(e: Env, p: Bytes, c: Bytes, defs: seq<SearchIndexDef>, doc: Document): set<Key> {
    set i, t | 0 <= i < |defs| && t in TermsIn(e, defs[i], doc.data).tf :: PostKey(p, c, defs[i].name, t, doc.id)
  }

  /** A write puts or deletes the vector entry of every declared vector index. */
  function VecKeys(p: Bytes, c: Bytes, defs: seq<VectorIndexDef>, id: Bytes): set<Key> {
    set i | 0 <= i < |defs| :: VecKey(p, c, defs[i].name, id)
  }

  function OwnedKeys(e: Env, p: Bytes, c: Bytes, cs: CollectionSchema, doc: Document): set<Key> {
    IdxKeys(e, p, c, cs.indexes, doc) + PostKeys(e, p, c, cs.searchIndexes, doc)
  }

  function OptOwned(e: Env, p: Bytes, c: Bytes, cs: CollectionSchema, doc: Option<Document>): set<Key> {
    if doc.Some? then OwnedKeys(e, p, c, cs, doc.value) else {}
  }

  function OptEntry(e: Env, cs: CollectionSchema, doc: Option<Document>, k: Key): Option<Val> {
    if doc.Some? then EntryAt(e, cs, doc.value, k) else None
  }

  predicate Concerns(k: Key, p: Bytes, c: Bytes, id: Bytes) {
    PerDocument(k) && k.p == p && k.c == c && k.id == id
  }

  // With unique names, lookup by name finds each definition.

  lemma {:induction false} FindsIndex(defs: seq<IndexDef>, i: nat)
    requires i < |defs| && forall i, j | 0 <= i < j < |defs| :: defs[i].name != defs[j].name
    ensures FindIndex(defs, defs[i].name) == Some(defs[i])
  {
    if i > 0 { FindsIndex(defs[1..], i - 1); }
  }

  lemma {:induction false} FindsSearch(defs: seq<SearchIndexDef>, i: nat)
    requires i < |defs| && forall i, j | 0 <= i < j < |defs| :: defs[i].name != defs[j].name
    ensures FindSearch(defs, defs[i].name) == Some(defs[i])
  {
    if i > 0 { FindsSearch(defs[1..], i - 1); }
  }

  lemma {:induction false} FindsVector(defs: seq<VectorIndexDef>, i: nat)
    requires i < |defs| && forall i, j | 0 <= i < j < |defs| :: defs[i].name != defs[j].name
    ensures FindVector(defs, defs[i].name) == Some(defs[i])
  {
    if i > 0 { FindsVector(defs[1..], i - 1); }
  }

  lemma {:induction false} FoundIndex(defs: seq<IndexDef>, name: Bytes)
    ensures FindIndex(defs, name).Some? ==>
              exists i :: 0 <= i < |defs| && defs[i] == FindIndex(defs, name).value && defs[i].name == name
  {
    if defs != [] && defs[0].name != name {
      FoundIndex(defs[1..], name);
      if FindIndex(defs, name).Some? {
        var i :| 0 <= i < |defs| - 1 && defs[1..][i] == FindIndex(defs, name).value && defs[1..][i].name == name;
        assert defs[i + 1] == FindIndex(defs, name).value;
      }
    }
  }

  lemma {:induction false} FoundSearch(defs: seq<SearchIndexDef>, name: Bytes)
    ensures FindSearch(defs, name).Some? ==>
              exists i :: 0 <= i < |defs| && defs[i] == FindSearch(defs, name).value && defs[i].name == name
  {
    if defs != [] && defs[0].name != name {
      FoundSearch(defs[1..], name);
      if FindSearch(defs, name).Some? {
        var i :| 0 <= i < |defs| - 1 && defs[1..][i] == FindSearch(defs, name).value && defs[1..][i].name == name;
        assert defs[i + 1] == FindSearch(defs, name).value;
      }
    }
  }

  lemma {:induction false} FoundVector(defs: seq<VectorIndexDef>, name: Bytes)
    ensures FindVector(defs, name).Some? ==>
              exists i :: 0 <= i < |defs| && defs[i] == FindVector(defs, name).value && defs[i].name == name
  {
    if defs != [] && defs[0].name != name {
      FoundVector(defs[1..], name);
      if FindVector(defs, name).Some? {
        var i :| 0 <= i < |defs| - 1 && defs[1..][i] == FindVector(defs, name).value && defs[1..][i].name == name;
        assert defs[i + 1] == FindVector(defs, name).value;
      }
    }
  }

  /** A document's entries live under its own keys: an index key it does not own holds nothing for it. */
  lemma EntriesAreOwned(e: Env, p: Bytes, c: Bytes, cs: CollectionSchema, doc: Document, k: Key)
    requires Concerns(k, p, c, doc.id) && EntryAt(e, cs, doc, k).Some?
    ensures k in OwnedKeys(e, p, c, cs, doc) + VecKeys(p, c, cs.vectorIndexes, doc.id)
  {
    match k
    case IdxKey(_, _, name, vals, _) => FoundIndex(cs.indexes, name);
    case PostKey(_, _, name, term, _) => FoundSearch(cs.searchIndexes, name);
    case VecKey(_, _, name, _) => FoundVector(cs.vectorIndexes, name);
    case _ =>
  }

  // ---- The effect of one document write ----

  function Touched(e: Env, p: Bytes, c: Bytes, cs: CollectionSchema, id: Bytes, was: Option<Document>,
                   now: Option<Document>): set<Key> {
    OptOwned(e, p, c, cs, was) + OptOwned(e, p, c, cs, now) + VecKeys(p, c, cs.vectorIndexes, id)
  }

  /** Retire what the old document owned, store what the new one owns. */
  function IndexEffect(e: Env, p: Bytes, c: Bytes, cs: CollectionSchema, id: Bytes, was: Option<Document>,
                       now: Option<Document>): Effect {
    map k | k in Touched(e, p, c, cs, id, was, now) :: OptEntry(e, cs, now, k)
  }

  function StepStats(e: Env, index: SearchIndexDef, stats: Stats, was: Option<Document>, now: Option<Document>): Stats {
    var removed := if was.Some? then stats.RemoveDoc(TermsIn(e, index, was.value.data).len) else stats;
    if now.Some? then removed.AddDoc(TermsIn(e, index, now.value.data).len) else removed
  }

  /** New statistics for each search index, from the values read for them. */
  function StatsEffect(e: Env, p: Bytes, c: Bytes, defs: seq<SearchIndexDef>, read: seq<Stats>, was: Option<Document>,
                       now: Option<Document>): Effect
    requires |read| == |defs|
  {
    if defs == [] then map[]
    else
      var n := |defs| - 1;
      StatsEffect(e, p, c, defs[..n], read[..n], was, now)
        [StatsKey(p, c, defs[n].name) := Some(StatsVal(StepStats(e, defs[n], read[n], was, now)))]
  }

  function DocEffect(p: Bytes, c: Bytes, id: Bytes, now: Option<Document>): Effect {
    map[DocKey(p, c, id) := if now.Some? then Some(DocVal(now.value)) else None]
  }

  function ReadStats(st: Store, p: Bytes, c: Bytes, defs: seq<SearchIndexDef>): seq<Stats> {
    seq(|defs|, i requires 0 <= i < |defs| => StatsAt(st, p, c, defs[i].name))
  }

  function SearchDefs(cs: Option<CollectionSchema>): seq<SearchIndexDef> {
    if cs.Some? then cs.value.searchIndexes else []
  }

  /** The whole batch of a document write, from the schema and statistics the writer read. */
  function WriteEffectWith(e: Env, p: Bytes, c: Bytes, cs: Option<CollectionSchema>, read: seq<Stats>, id: Bytes,
                           was: Option<Document>, now: Option<Document>): Effect
    requires |read| == |SearchDefs(cs)|
  {
    if cs.None? then DocEffect(p, c, id, now)
    else
      (DocEffect(p, c, id, now) + IndexEffect(e, p, c, cs.value, id, was, now)
       + StatsEffect(e, p, c, cs.value.searchIndexes, read, was, now))
  }

  /** The same batch when everything is read from one store: the atomic version of the write. */
  function WriteEffect(e: Env, st: Store, p: Bytes, c: Bytes, id: Bytes, was: Option<Document>,
                       now: Option<Document>): Effect {
    var cs := CollectionAt(st, p, c);
    WriteEffectWith(e, p, c, cs, ReadStats(st, p, c, SearchDefs(cs)), id, was, now)
  }

  lemma {:induction false} StatsEffectKeys(e: Env, p: Bytes, c: Bytes, defs: seq<SearchIndexDef>, read: seq<Stats>,
                                           was: Option<Document>, now: Option<Document>, k: Key)
    requires |read| == |defs|
    requires forall i, j | 0 <= i < j < |defs| :: defs[i].name != defs[j].name
    ensures k in StatsEffect(e, p, c, defs, read, was, now) <==>
              k.StatsKey? && k.p == p && k.c == c && exists i :: 0 <= i < |defs| && defs[i].name == k.name
    ensures forall i | 0 <= i < |defs| && k == StatsKey(p, c, defs[i].name) ::
              k in StatsEffect(e, p, c, defs, read, was, now)
              && StatsEffect(e, p, c, defs, read, was, now)[k]
                   == Some(StatsVal(StepStats(e, defs[i], read[i], was, now)))
  {
    hide StepStats;
    if defs != [] {
      var n := |defs| - 1;
      StatsEffectKeys(e, p, c, defs[..n], read[..n], was, now, k);
      if k == StatsKey(p, c, defs[n].name) {
        assert defs[n].name == k.name;
      } else {
        assert forall i | 0 <= i < n :: defs[..n][i] == defs[i];
        if k.StatsKey? && exists i :: 0 <= i < |defs| && defs[i].name == k.name {
          var i :| 0 <= i < |defs| && defs[i].name == k.name;
          if i < n { assert defs[..n][i].name == k.name; }
        }
      }
    }
  }

  // ---- What the indexes must hold ----

  function Ids(st: Store, p: Bytes, c: Bytes): set<Bytes> {
    set k | k in st && k.DocKey? && k.p == p && k.c == c && st[k].DocVal? :: k.id
  }

  lemma IdsAreDocs(st: Store, p: Bytes, c: Bytes, id: Bytes)
    ensures id in Ids(st, p, c) <==> DocAt(st, p, c, id).Some?
  {
    if DocAt(st, p, c, id).Some? { assert DocKey(p, c, id) in st; }
  }

  function Lengths(e: Env, st: Store, p: Bytes, c: Bytes, index: SearchIndexDef): map<Bytes, nat> {
    map id | id in Ids(st, p, c) ::
      if DocAt(st, p, c, id).Some? then TermsIn(e, index, DocAt(st, p, c, id).value.data).len else 0
  }

  ghost function Sum(m: map<Bytes, nat>): nat {
    if m == map[] then 0 else var k :| k in m; m[k] + Sum(m - {k})
  }

  lemma {:induction false} SumWithout(m: map<Bytes, nat>, k: Bytes)
    requires k in m
    ensures Sum(m) == m[k] + Sum(m - {k})
  {
    var j :| j in m && Sum(m) == m[j] + Sum(m - {j});
    if j != k {
      SumWithout(m - {j}, k);
      SumWithout(m - {k}, j);
      assert m - {j} - {k} == m - {k} - {j};
    }
  }

  /** How many documents the collection holds, and the sum of their lengths. */
  ghost function ExactStats(e: Env, st: Store, p: Bytes, c: Bytes, index: SearchIndexDef): Stats {
    Stats(|Ids(st, p, c)|, Sum(Lengths(e, st, p, c, index)))
  }

  function Clamp(stats: Stats): Stats {
    Stats(Min(stats.nDocs, MAX64), Min(stats.totalLen, MAX64))
  }

  predicate FitsStats(stats: Stats) { stats.nDocs <= MAX64 && stats.totalLen <= MAX64 }

  predicate Derived(k: Key) { PerDocument(k) || k.StatsKey? }

  /** The value of an index key, recomputed from the stored documents and schema alone. */
  ghost function Expected(e: Env, st: Store, k: Key): Option<Val>
    requires Derived(k)
  {
    var cs := CollectionAt(st, k.p, k.c);
    if cs.None? then None
    else if k.StatsKey? then
      match FindSearch(cs.value.searchIndexes, k.name)
      case Some(index) => Some(StatsVal(Clamp(ExactStats(e, st, k.p, k.c, index))))
      case None => None
    else OptEntry(e, cs.value, DocAt(st, k.p, k.c, k.id), k)
  }

  /** Documents and schemas are stored as such, ids match keys, and schemas passed their name checks. */
  predicate Typed(st: Store) {
    forall k | k in st ::
      && (k.DocKey? ==> st[k].DocVal? && st[k].doc.id == k.id)
      && (k.MetaKey? ==> st[k].SchemaVal? && WellNamed(st[k].schema))
  }

  /** Every index, posting, vector and statistics entry is the recomputed one: none missing, none stale. */
  ghost predicate Agrees(e: Env, st: Store) {
    Typed(st) && forall k | Derived(k) :: Look(st, k) == Expected(e, st, k)
  }

  /** The same of equality entries, postings and vectors, whatever the statistics hold. */
  ghost predicate EntriesAgree(e: Env, st: Store) {
    Typed(st) && forall k | PerDocument(k) :: Look(st, k) == Expected(e, st, k)
  }

  /** One statistics entry is the recomputed one. */
  ghost predicate StatsCurrent(e: Env, st: Store, p: Bytes, c: Bytes, name: Bytes) {
    Look(st, StatsKey(p, c, name)) == Expected(e, st, StatsKey(p, c, name))
  }

  /** Every entry and statistic of one project is the recomputed one. */
  ghost predicate ProjectAgrees(e: Env, st: Store, p: Bytes) {
    forall k | Derived(k) && k.p == p :: Look(st, k) == Expected(e, st, k)
  }

  /** No corpus total of the collection exceeds 64 bits. */
  ghost predicate Fits(e: Env, st: Store, p: Bytes, c: Bytes) {
    forall index :: FitsStats(ExactStats(e, st, p, c, index))
  }

  lemma EmptyAgrees(e: Env)
    ensures Agrees(e, map[])
  {
  }

  /** Documents and schemas determine the whole store. */
  lemma AgreementUnique(e: Env, a: Store, b: Store)
    requires Agrees(e, a) && Agrees(e, b)
    requires forall k: Key | k.DocKey? || k.MetaKey? :: Look(a, k) == Look(b, k)
    ensures a == b
  {
    forall k ensures Look(a, k) == Look(b, k) {
      if Derived(k) { SameDocsSameExpected(e, a, b, k); }
    }
    assert forall k | k in a :: Look(a, k) == Look(b, k);
    assert forall k | k in b :: Look(a, k) == Look(b, k);
  }

  lemma SameDocsSameExpected(e: Env, a: Store, b: Store, k: Key)
    requires Derived(k)
    requires Look(a, MetaKey(k.p)) == Look(b, MetaKey(k.p))
    requires forall id :: Look(a, DocKey(k.p, k.c, id)) == Look(b, DocKey(k.p, k.c, id))
    ensures Expected(e, a, k) == Expected(e, b, k)
  {
    if k.StatsKey? && CollectionAt(a, k.p, k.c).Some? {
      match FindSearch(CollectionAt(a, k.p, k.c).value.searchIndexes, k.name)
      case None =>
      case Some(index) => SameDocsSameStats(e, a, b, k.p, k.c, index);
    } else if PerDocument(k) {
      assert Look(a, DocKey(k.p, k.c, k.id)) == Look(b, DocKey(k.p, k.c, k.id));
    }
  }

  lemma SameDocsSameStats(e: Env, a: Store, b: Store, p: Bytes, c: Bytes, index: SearchIndexDef)
    requires forall id :: DocAt(a, p, c, id) == DocAt(b, p, c, id)
    ensures ExactStats(e, a, p, c, index) == ExactStats(e, b, p, c, index)
  {
    forall id ensures id in Ids(a, p, c) <==> id in Ids(b, p, c) {
      IdsAreDocs(a, p, c, id);
      IdsAreDocs(b, p, c, id);
      assert DocAt(a, p, c, id) == DocAt(b, p, c, id);
    }
    assert Ids(a, p, c) == Ids(b, p, c);
    assert Lengths(e, a, p, c, index) == Lengths(e, b, p, c, index);
  }
}
