/** The drop-and-rebuild loops of a schema push (server/src/db/schemas.rs), and that they meet the pointwise
    recomputation whatever the scan order. */
module Rebuild {
  import opened ByteStrings
  import opened Values
  import opened Keys
  import opened Fts
  import opened Stores
  import opened Agreement
  import opened Batches
  import Vectors

  /** The project's document keys. */
  function DocKeys(st: Store, p: Bytes): set<Key> {
    set k | k in st && k.DocKey? && k.p == p && st[k].DocVal?
  }

  /** What an index key must hold once the documents in `done` have been indexed. */
  function RebuiltAt(e: Env, st: Store, p: Bytes, schema: ProjectSchema, done: set<Key>, k: Key): Option<Val>
    requires PerDocument(k)
  {
    if k.p == p && k.c in schema.collections && DocKey(p, k.c, k.id) in done && DocAt(st, p, k.c, k.id).Some?
    then EntryAt(e, schema.collections[k.c], DocAt(st, p, k.c, k.id).value, k) else None
  }

  /** The batch so far: the schema, every old entry deleted, and the entries of the documents in `done`. */
  ghost predicate BuiltSoFar(e: Env, st: Store, p: Bytes, schema: ProjectSchema, done: set<Key>, eff: Effect) {
    && At(eff, MetaKey(p)) == Some(Some(SchemaVal(schema)))
    && (forall k: Key | (k.MetaKey? && k.p != p) || k.DocKey? :: At(eff, k) == None)
    && (forall k: Key | k.StatsKey? :: At(eff, k) == if k in OldKeys(st, p) then Some(None) else None)
    && (forall k: Key | PerDocument(k) :: At(eff, k) ==
          if RebuiltAt(e, st, p, schema, done, k).Some? then Some(RebuiltAt(e, st, p, schema, done, k))
          else if k in OldKeys(st, p) then Some(None) else None)
  }

  function DoneLens(e: Env, st: Store, p: Bytes, c: Bytes, index: SearchIndexDef, done: set<Key>): map<Bytes, nat> {
    map id | id in (set k | k in done && k.DocKey? && k.p == p && k.c == c && DocAt(st, p, c, k.id).Some? :: k.id)
      :: if DocAt(st, p, c, id).Some? then TermsIn(e, index, DocAt(st, p, c, id).value.data).len else 0
  }

  ghost function StatsOver(e: Env, st: Store, p: Bytes, c: Bytes, index: SearchIndexDef, done: set<Key>): Stats {
    var lens := DoneLens(e, st, p, c, index, done);
    Stats(|lens.Keys|, Sum(lens))
  }

  /** The statistics so far: one entry per declared search index, counting the documents in `done`. */
  ghost predicate CountedSoFar(e: Env, st: Store, p: Bytes, schema: ProjectSchema, done: set<Key>, stats: map<Key,
                               Stats>) {
    && stats.Keys == DeclaredStats(p, schema)
    && forall c, i | c in schema.collections && 0 <= i < |schema.collections[c].searchIndexes| ::
         var index := schema.collections[c].searchIndexes[i];
         && StatsKey(p, c, index.name) in stats
         && stats[StatsKey(p, c, index.name)] == Clamp(StatsOver(e, st, p, c, index, done))
  }

  // ---- Dropping ----

  method DropOld(batch: WriteBatch, e: Env, st: Store, p: Bytes, schema: ProjectSchema)
    requires EffectOf(batch.ops) == map[MetaKey(p) := Some(SchemaVal(schema))]
    modifies batch
    ensures BuiltSoFar(e, st, p, schema, {}, EffectOf(batch.ops))
  {
    hide EffectOf;
    // The three prefix scans see exactly these keys: see Keys.ProjectScans.
    var left := set k | k in st && Derived(k) && k.p == p;
    ghost var seen: set<Key> := {};
    while left != {}
      invariant seen + left == OldKeys(st, p) && seen !! left
      invariant forall k: Key :: At(EffectOf(batch.ops), k) ==
                  if k == MetaKey(p) then Some(Some(SchemaVal(schema))) else if k in seen then Some(None) else None
      decreases left
    {
      var stale :| stale in left;
      assert stale in OldKeys(st, p) && stale != MetaKey(p);
      ghost var before := EffectOf(batch.ops);
      batch.Delete(stale);
      forall k: Key ensures At(EffectOf(batch.ops), k) == if k == stale then Some(None) else At(before, k) {}
      left, seen := left - {stale}, seen + {stale};
    }
    assert seen == OldKeys(st, p);
  }

  // ---- Counting ----

  method SeedStats(e: Env, st: Store, p: Bytes, schema: ProjectSchema) returns (stats: map<Key, Stats>)
    ensures CountedSoFar(e, st, p, schema, {}, stats)
  {
    stats := map[];
    var left := schema.collections.Keys;
    ghost var seen: set<Bytes> := {};
    while left != {}
      invariant seen + left == schema.collections.Keys && seen !! left
      invariant forall k: Key :: k in stats <==> k in DeclaredStats(p, schema) && k.StatsKey? && k.c in seen
      invariant forall k | k in stats :: stats[k] == Stats(0, 0)
      decreases left
    {
      var c :| c in left;
      var defs := schema.collections[c].searchIndexes;
      for i := 0 to |defs|
        invariant forall k: Key :: k in stats <==>
                    k in DeclaredStats(p, schema) && k.StatsKey?
                      && (k.c in seen || (k.c == c && exists j :: 0 <= j < i && k == StatsKey(p, c, defs[j].name)))
        invariant forall k | k in stats :: stats[k] == Stats(0, 0)
      {
        stats := stats[StatsKey(p, c, defs[i].name) := Stats(0, 0)];
      }
      left, seen := left - {c}, seen + {c};
    }
    SeededIsCounted(e, st, p, schema, stats);
  }

  lemma SeededIsCounted(e: Env, st: Store, p: Bytes, schema: ProjectSchema, stats: map<Key, Stats>)
    requires forall k: Key :: k in stats <==> k in DeclaredStats(p, schema)
    requires forall k | k in stats :: stats[k] == Stats(0, 0)
    ensures CountedSoFar(e, st, p, schema, {}, stats)
  {
    assert stats.Keys == DeclaredStats(p, schema);
    forall c, i | c in schema.collections && 0 <= i < |schema.collections[c].searchIndexes|
      ensures var index := schema.collections[c].searchIndexes[i];
        StatsKey(p, c, index.name) in stats && Clamp(StatsOver(e, st, p, c, index, {})) == Stats(0, 0)
    {
      var index := schema.collections[c].searchIndexes[i];
      assert DoneLens(e, st, p, c, index, {}) == map[];
      assert StatsKey(p, c, index.name) in DeclaredStats(p, schema);
    }
  }

  /** One more document moves its collection's totals by itself, and no other collection's. */
  lemma StatsOverMore(e: Env, st: Store, p: Bytes, c: Bytes, index: SearchIndexDef, done: set<Key>, d: Key)
    requires d in DocKeys(st, p) && d !in done && Typed(st)
    ensures DocAt(st, p, d.c, d.id).Some?
    ensures var less, more := StatsOver(e, st, p, c, index, done), StatsOver(e, st, p, c, index, done + {d});
            Clamp(more)
              == if d.c == c then Clamp(less).AddDoc(TermsIn(e, index, DocAt(st, p, c, d.id).value.data).len)
                else Clamp(less)
  {
    hide TermsIn;
    var a, b := DoneLens(e, st, p, c, index, done), DoneLens(e, st, p, c, index, done + {d});
    assert DocKey(p, d.c, d.id) == d;
    forall id ensures id in a <==> DocKey(p, c, id) in done && DocAt(st, p, c, id).Some? {
      DoneAt(e, st, p, c, index, done, id);
    }
    forall id ensures id in b <==> DocKey(p, c, id) in done + {d} && DocAt(st, p, c, id).Some? {
      DoneAt(e, st, p, c, index, done + {d}, id);
    }
    if d.c == c {
      var len := TermsIn(e, index, DocAt(st, p, c, d.id).value.data).len;
      MapMove(a, b, d.id, None, Some(len));
      StepClamped(Stats(|a.Keys|, Sum(a)), Stats(|b.Keys|, Sum(b)), None, Some(len));
    } else {
      assert a == b;
    }
  }

  lemma DoneAt(e: Env, st: Store, p: Bytes, c: Bytes, index: SearchIndexDef, done: set<Key>, id: Bytes)
    ensures id in DoneLens(e, st, p, c, index, done) <==> DocKey(p, c, id) in done && DocAt(st, p, c, id).Some?
  {
    if DocKey(p, c, id) in done && DocAt(st, p, c, id).Some? {
      var k := DocKey(p, c, id);
      assert k in done && k.DocKey? && k.p == p && k.c == c && k.id == id;
    }
  }

  // ---- One document ----

  lemma IdxIsEntry(e: Env, p: Bytes, c: Bytes, cs: CollectionSchema, doc: Document, k: Key)
    requires UniqueNames(cs) && Concerns(k, p, c, doc.id) && k.IdxKey?
    ensures EntryAt(e, cs, doc, k) == if k in IdxKeys(e, p, c, cs.indexes, doc) then Some(IdVal(doc.id)) else None
  {
    if k in IdxKeys(e, p, c, cs.indexes, doc) {
      var i := IdxKeyIndex(e, p, c, cs.indexes, doc, k);
      FindsIndex(cs.indexes, i);
    } else {
      FoundIndex(cs.indexes, k.name);
      if FindIndex(cs.indexes, k.name).Some? {
        var i :| 0 <= i < |cs.indexes| && cs.indexes[i] == FindIndex(cs.indexes, k.name).value
            && cs.indexes[i].name == k.name;
        OwnIdxKey(e, p, c, cs.indexes, doc, i);
      }
    }
  }

  /** What indexing one document does to a key. */
  ghost predicate Indexed(e: Env, p: Bytes, c: Bytes, cs: CollectionSchema, doc: Document, before: Effect,
                          after: Effect) {
    forall k: Key :: At(after, k) ==
      if Concerns(k, p, c, doc.id) && EntryAt(e, cs, doc, k).Some? then Some(EntryAt(e, cs, doc, k)) else At(before, k)
  }

  ghost predicate IndexedKind(e: Env, p: Bytes, c: Bytes, cs: CollectionSchema, doc: Document, before: Effect,
                              after: Effect, kind: Key -> bool) {
    forall k: Key :: At(after, k) ==
      if kind(k) && Concerns(k, p, c, doc.id) && EntryAt(e, cs, doc, k).Some? then Some(EntryAt(e, cs, doc, k))
      else At(before, k)
  }

  lemma IndexedByKinds(e: Env, p: Bytes, c: Bytes, cs: CollectionSchema, doc: Document, a: Effect, b: Effect, d: Effect,
                       f: Effect)
    requires IndexedKind(e, p, c, cs, doc, a, b, (k: Key) => k.IdxKey?)
    requires IndexedKind(e, p, c, cs, doc, b, d, (k: Key) => k.PostKey?)
    requires IndexedKind(e, p, c, cs, doc, d, f, (k: Key) => k.VecKey?)
    ensures Indexed(e, p, c, cs, doc, a, f)
  {
    hide EntryAt, At;
  }

  method IndexDocument(batch: WriteBatch, e: Env, p: Bytes, c: Bytes, cs: CollectionSchema, doc: Document,
                       stats: map<Key, Stats>)
    returns (counted: map<Key, Stats>)
    requires UniqueNames(cs)
    requires forall i | 0 <= i < |cs.searchIndexes| :: StatsKey(p, c, cs.searchIndexes[i].name) in stats
    modifies batch
    ensures Indexed(e, p, c, cs, doc, old(EffectOf(batch.ops)), EffectOf(batch.ops))
    ensures Counts(e, p, c, cs.searchIndexes, doc, stats, counted)
  {
    hide EffectOf, IndexedKind, Indexed, Counts;
    ghost var e0 := EffectOf(batch.ops);
    ApplyIndexOps(batch, e, p, c, Some(cs), None, Some(doc));
    ghost var e1 := EffectOf(batch.ops);
    IndexedEntries(e, p, c, cs, doc, e0, e1);
    counted := PostAndCount(batch, e, p, c, cs, doc, stats);
    ghost var e2 := EffectOf(batch.ops);
    PutVectors(batch, e, p, c, cs, doc);
    IndexedByKinds(e, p, c, cs, doc, e0, e1, e2, EffectOf(batch.ops));
  }

  lemma IndexedEntries(e: Env, p: Bytes, c: Bytes, cs: CollectionSchema, doc: Document, before: Effect, after: Effect)
    requires UniqueNames(cs) && after == before + IdxEffect(e, p, c, cs.indexes, None, Some(doc))
    ensures IndexedKind(e, p, c, cs, doc, before, after, (k: Key) => k.IdxKey?)
  {
    hide EntryAt, IdxEffect, IdxKeys;
    forall k: Key ensures At(after, k) ==
      if k.IdxKey? && Concerns(k, p, c, doc.id) && EntryAt(e, cs, doc, k).Some? then Some(EntryAt(e, cs, doc, k))
      else At(before, k)
    {
      IdxEffectAt(e, p, c, cs.indexes, None, Some(doc), k);
      if k in IdxKeys(e, p, c, cs.indexes, doc) { var i := IdxKeyIndex(e, p, c, cs.indexes, doc, k); }
      if Concerns(k, p, c, doc.id) && k.IdxKey? { IdxIsEntry(e, p, c, cs, doc, k); }
    }
  }

  /** Each declared search index of the collection has counted the document once. */
  ghost predicate Counts(e: Env, p: Bytes, c: Bytes, defs: seq<SearchIndexDef>, doc: Document, before: map<Key, Stats>,
                         after: map<Key, Stats>) {
    && after.Keys == before.Keys
    && (forall i | 0 <= i < |defs| :: StatsKey(p, c, defs[i].name) in before
          && after[StatsKey(p, c, defs[i].name)]
               == before[StatsKey(p, c, defs[i].name)].AddDoc(TermsIn(e, defs[i], doc.data).len))
    && (forall k: Key | k in before && !(k.StatsKey? && k.p == p && k.c == c) :: after[k] == before[k])
  }

  predicate PostingOf(e: Env, p: Bytes, c: Bytes, defs: seq<SearchIndexDef>, doc: Document, k: Key) {
    exists i :: 0 <= i < |defs| && IsPosting(e, p, c, defs[i], doc, k)
  }

  lemma PostingIsEntry(e: Env, p: Bytes, c: Bytes, cs: CollectionSchema, doc: Document, i: nat, k: Key)
    requires UniqueNames(cs) && i < |cs.searchIndexes| && IsPosting(e, p, c, cs.searchIndexes[i], doc, k)
    ensures var terms := TermsIn(e, cs.searchIndexes[i], doc.data);
            EntryAt(e, cs, doc, k) == Some(PostVal(terms.tf[k.term], terms.len)) && Concerns(k, p, c, doc.id)
  {
    FindsSearch(cs.searchIndexes, i);
  }

  lemma EntryIsPosting(e: Env, p: Bytes, c: Bytes, cs: CollectionSchema, doc: Document, k: Key)
    requires k.PostKey? && Concerns(k, p, c, doc.id) && EntryAt(e, cs, doc, k).Some?
    ensures PostingOf(e, p, c, cs.searchIndexes, doc, k)
  {
    FoundSearch(cs.searchIndexes, k.name);
    var i :| 0 <= i < |cs.searchIndexes| && cs.searchIndexes[i] == FindSearch(cs.searchIndexes, k.name).value
        && cs.searchIndexes[i].name == k.name;
    assert IsPosting(e, p, c, cs.searchIndexes[i], doc, k);
  }

  lemma PostAt(e: Env, p: Bytes, c: Bytes, index: SearchIndexDef, doc: Document, k: Key)
    ensures var terms := TermsIn(e, index, doc.data);
            At(Post(p, c, index.name, doc.id, terms, terms.tf.Keys), k) ==
            if IsPosting(e, p, c, index, doc, k) then Some(Some(PostVal(terms.tf[k.term], terms.len))) else None
  {}

  method PostAndCount(batch: WriteBatch, e: Env, p: Bytes, c: Bytes, cs: CollectionSchema, doc: Document,
                      stats: map<Key, Stats>)
    returns (counted: map<Key, Stats>)
    requires UniqueNames(cs)
    requires forall i | 0 <= i < |cs.searchIndexes| :: StatsKey(p, c, cs.searchIndexes[i].name) in stats
    modifies batch
    ensures IndexedKind(e, p, c, cs, doc, old(EffectOf(batch.ops)), EffectOf(batch.ops), (k: Key) => k.PostKey?)
    ensures Counts(e, p, c, cs.searchIndexes, doc, stats, counted)
  {
    hide EffectOf, EntryAt, IsPosting, Post, TermsIn;
    var defs := cs.searchIndexes;
    counted := stats;
    for i := 0 to |defs|
      invariant counted.Keys == stats.Keys
      invariant forall j | 0 <= j < |defs| :: StatsKey(p, c, defs[j].name) in stats
      invariant forall j | 0 <= j < |defs| :: counted[StatsKey(p, c, defs[j].name)] ==
                  if j < i then stats[StatsKey(p, c, defs[j].name)].AddDoc(TermsIn(e, defs[j], doc.data).len)
                  else stats[StatsKey(p, c, defs[j].name)]
      invariant forall k: Key | k in stats && !(k.StatsKey? && k.p == p && k.c == c) :: counted[k] == stats[k]
      invariant forall k: Key :: At(EffectOf(batch.ops), k) ==
                  if PostingOf(e, p, c, defs[..i], doc, k) then Some(EntryAt(e, cs, doc, k))
                  else At(old(EffectOf(batch.ops)), k)
    {
      ghost var before := EffectOf(batch.ops);
      var terms := ComputeTerms(e, defs[i], doc.data);
      PutPostings(batch, p, c, defs[i].name, doc.id, terms);
      var key := StatsKey(p, c, defs[i].name);
      counted := counted[key := counted[key].AddDoc(terms.len)];
      forall k: Key ensures At(EffectOf(batch.ops), k) ==
        if PostingOf(e, p, c, defs[..i + 1], doc, k) then Some(EntryAt(e, cs, doc, k))
        else At(old(EffectOf(batch.ops)), k)
      {
        PostAt(e, p, c, defs[i], doc, k);
        AtPlus(before, Post(p, c, defs[i].name, doc.id, terms, terms.tf.Keys), k);
        PostingOfMore(e, p, c, defs, i, doc, k);
        if IsPosting(e, p, c, defs[i], doc, k) { PostingIsEntry(e, p, c, cs, doc, i, k); }
      }
    }
    assert defs[..|defs|] == defs;
    PostingsIndexed(e, p, c, cs, doc, old(EffectOf(batch.ops)), EffectOf(batch.ops));
  }

  lemma PostingOfMore(e: Env, p: Bytes, c: Bytes, defs: seq<SearchIndexDef>, i: nat, doc: Document, k: Key)
    requires i < |defs|
    ensures PostingOf(e, p, c, defs[..i + 1], doc, k) <==>
              PostingOf(e, p, c, defs[..i], doc, k) || IsPosting(e, p, c, defs[i], doc, k)
  {
    hide IsPosting;
    if PostingOf(e, p, c, defs[..i], doc, k) {
      var j :| 0 <= j < i && IsPosting(e, p, c, defs[..i][j], doc, k);
      assert defs[..i + 1][j] == defs[..i][j];
    }
    if IsPosting(e, p, c, defs[i], doc, k) { assert defs[..i + 1][i] == defs[i]; }
    if PostingOf(e, p, c, defs[..i + 1], doc, k) && !IsPosting(e, p, c, defs[i], doc, k) {
      var j :| 0 <= j < i + 1 && IsPosting(e, p, c, defs[..i + 1][j], doc, k);
      assert j < i && defs[..i][j] == defs[..i + 1][j];
    }
  }

  lemma PostingsIndexed(e: Env, p: Bytes, c: Bytes, cs: CollectionSchema, doc: Document, before: Effect, after: Effect)
    requires UniqueNames(cs)
    requires forall k: Key ::
               At(after, k) == if PostingOf(e, p, c, cs.searchIndexes, doc, k) then Some(EntryAt(e, cs, doc, k))
                 else At(before, k)
    ensures IndexedKind(e, p, c, cs, doc, before, after, (k: Key) => k.PostKey?)
  {
    hide EntryAt, IsPosting, At;
    forall k: Key
      ensures PostingOf(e, p, c, cs.searchIndexes, doc, k) <==>
                k.PostKey? && Concerns(k, p, c, doc.id) && EntryAt(e, cs, doc, k).Some?
    {
      if PostingOf(e, p, c, cs.searchIndexes, doc, k) {
        var i :| 0 <= i < |cs.searchIndexes| && IsPosting(e, p, c, cs.searchIndexes[i], doc, k);
        PostingIsEntry(e, p, c, cs, doc, i, k);
        PostingIsPost(e, p, c, cs.searchIndexes[i], doc, k);
      } else if k.PostKey? && Concerns(k, p, c, doc.id) && EntryAt(e, cs, doc, k).Some? {
        EntryIsPosting(e, p, c, cs, doc, k);
      }
    }
  }

  lemma PostingIsPost(e: Env, p: Bytes, c: Bytes, index: SearchIndexDef, doc: Document, k: Key)
    ensures IsPosting(e, p, c, index, doc, k) ==> k.PostKey?
  {}

  predicate VectorEntryOf(e: Env, p: Bytes, c: Bytes, defs: seq<VectorIndexDef>, doc: Document, k: Key) {
    exists i :: 0 <= i < |defs| && k == VecKey(p, c, defs[i].name, doc.id)
      && Batches.VecVal(e, defs[i], Some(doc)).Some?
  }

  /** A document whose field is absent or the wrong width stays out of the index. */
  method PutVectors(batch: WriteBatch, e: Env, p: Bytes, c: Bytes, cs: CollectionSchema, doc: Document)
    requires UniqueNames(cs)
    modifies batch
    ensures IndexedKind(e, p, c, cs, doc, old(EffectOf(batch.ops)), EffectOf(batch.ops), (k: Key) => k.VecKey?)
  {
    hide EffectOf, EntryAt;
    var defs := cs.vectorIndexes;
    for i := 0 to |defs|
      invariant forall k: Key :: At(EffectOf(batch.ops), k) ==
                  if VectorEntryOf(e, p, c, defs[..i], doc, k) then Some(EntryAt(e, cs, doc, k))
                  else At(old(EffectOf(batch.ops)), k)
    {
      ghost var before := EffectOf(batch.ops);
      var v := Vectors.ComputeDocVector(e, doc.data, defs[i].field, defs[i].dims);
      if v.Some? {
        batch.Put(VecKey(p, c, defs[i].name, doc.id), Val.VecVal(v.value));
      }
      VectorEntryIs(e, p, c, cs, doc, i);
      forall k: Key ensures VectorEntryOf(e, p, c, defs[..i + 1], doc, k) <==>
        VectorEntryOf(e, p, c, defs[..i], doc, k) || (k == VecKey(p, c, defs[i].name, doc.id) && v.Some?)
      {
        VectorEntryOfMore(e, p, c, defs, i, doc, k);
      }
    }
    assert defs[..|defs|] == defs;
    VectorsIndexed(e, p, c, cs, doc, old(EffectOf(batch.ops)), EffectOf(batch.ops));
  }

  lemma VectorEntryIs(e: Env, p: Bytes, c: Bytes, cs: CollectionSchema, doc: Document, i: nat)
    requires UniqueNames(cs) && i < |cs.vectorIndexes|
    ensures EntryAt(e, cs, doc, VecKey(p, c, cs.vectorIndexes[i].name, doc.id))
              == Batches.VecVal(e, cs.vectorIndexes[i], Some(doc))
  {
    FindsVector(cs.vectorIndexes, i);
  }

  lemma VectorEntryOfMore(e: Env, p: Bytes, c: Bytes, defs: seq<VectorIndexDef>, i: nat, doc: Document, k: Key)
    requires i < |defs|
    ensures VectorEntryOf(e, p, c, defs[..i + 1], doc, k) <==>
      VectorEntryOf(e, p, c, defs[..i], doc, k)
      || (k == VecKey(p, c, defs[i].name, doc.id) && Batches.VecVal(e, defs[i], Some(doc)).Some?)
  {
    if VectorEntryOf(e, p, c, defs[..i], doc, k) {
      var j :| 0 <= j < i && k == VecKey(p, c, defs[..i][j].name, doc.id)
          && Batches.VecVal(e, defs[..i][j], Some(doc)).Some?;
      assert defs[..i + 1][j] == defs[..i][j];
    }
    assert defs[..i + 1][i] == defs[i];
    if VectorEntryOf(e, p, c, defs[..i + 1], doc, k) {
      var j :| 0 <= j < i + 1 && k == VecKey(p, c, defs[..i + 1][j].name, doc.id)
          && Batches.VecVal(e, defs[..i + 1][j], Some(doc)).Some?;
      if j < i { assert defs[..i][j] == defs[..i + 1][j]; }
    }
  }

  lemma EntryIsVector(e: Env, p: Bytes, c: Bytes, cs: CollectionSchema, doc: Document, k: Key)
    requires UniqueNames(cs) && k.VecKey? && Concerns(k, p, c, doc.id) && EntryAt(e, cs, doc, k).Some?
    ensures VectorEntryOf(e, p, c, cs.vectorIndexes, doc, k)
  {
    FoundVector(cs.vectorIndexes, k.name);
    var i :| 0 <= i < |cs.vectorIndexes| && cs.vectorIndexes[i] == FindVector(cs.vectorIndexes, k.name).value
        && cs.vectorIndexes[i].name == k.name;
    VectorEntryIs(e, p, c, cs, doc, i);
  }

  lemma VectorsIndexed(e: Env, p: Bytes, c: Bytes, cs: CollectionSchema, doc: Document, before: Effect, after: Effect)
    requires UniqueNames(cs)
    requires forall k: Key ::
               At(after, k)
                 == if VectorEntryOf(e, p, c, cs.vectorIndexes, doc, k) then Some(EntryAt(e, cs, doc, k))
                   else At(before, k)
    ensures IndexedKind(e, p, c, cs, doc, before, after, (k: Key) => k.VecKey?)
  {
    hide At;
    forall k: Key
      ensures VectorEntryOf(e, p, c, cs.vectorIndexes, doc, k) <==>
                k.VecKey? && Concerns(k, p, c, doc.id) && EntryAt(e, cs, doc, k).Some?
    {
      if VectorEntryOf(e, p, c, cs.vectorIndexes, doc, k) {
        var i :| 0 <= i < |cs.vectorIndexes| && k == VecKey(p, c, cs.vectorIndexes[i].name, doc.id)
            && Batches.VecVal(e, cs.vectorIndexes[i], Some(doc)).Some?;
        VectorEntryIs(e, p, c, cs, doc, i);
      } else if k.VecKey? && Concerns(k, p, c, doc.id) && EntryAt(e, cs, doc, k).Some? {
        EntryIsVector(e, p, c, cs, doc, k);
      }
    }
  }

  // ---- All documents ----

  lemma DocConcerns(st: Store, p: Bytes, d: Key)
    requires d in DocKeys(st, p) && Typed(st)
    ensures DocAt(st, p, d.c, d.id).Some? && DocAt(st, p, d.c, d.id).value == st[d].doc && st[d].doc.id == d.id
    ensures d == DocKey(p, d.c, d.id)
  {}

  /** Indexing one more document extends what has been built by exactly its entries. */
  lemma BuiltMore(e: Env, st: Store, p: Bytes, schema: ProjectSchema, done: set<Key>, d: Key, before: Effect,
                  after: Effect)
    requires d in DocKeys(st, p) && d !in done && Typed(st) && d.c in schema.collections
    requires BuiltSoFar(e, st, p, schema, done, before)
    requires Indexed(e, p, d.c, schema.collections[d.c], st[d].doc, before, after)
    ensures BuiltSoFar(e, st, p, schema, done + {d}, after)
  {
    hide EntryAt, At;
    DocConcerns(st, p, d);
  }

  /** A document in a collection the schema does not declare is skipped. */
  lemma BuiltSkip(e: Env, st: Store, p: Bytes, schema: ProjectSchema, done: set<Key>, d: Key, eff: Effect,
                  stats: map<Key, Stats>)
    requires d in DocKeys(st, p) && d !in done && Typed(st) && d.c !in schema.collections
    requires BuiltSoFar(e, st, p, schema, done, eff) && CountedSoFar(e, st, p, schema, done, stats)
    ensures BuiltSoFar(e, st, p, schema, done + {d}, eff) && CountedSoFar(e, st, p, schema, done + {d}, stats)
  {
    hide EntryAt, At, StatsOver;
    DocConcerns(st, p, d);
    forall c, i | c in schema.collections && 0 <= i < |schema.collections[c].searchIndexes|
      ensures var index := schema.collections[c].searchIndexes[i];
        Clamp(StatsOver(e, st, p, c, index, done + {d})) == Clamp(StatsOver(e, st, p, c, index, done))
    {
      StatsOverMore(e, st, p, c, schema.collections[c].searchIndexes[i], done, d);
    }
    forall k: Key | PerDocument(k)
      ensures RebuiltAt(e, st, p, schema, done + {d}, k) == RebuiltAt(e, st, p, schema, done, k)
    {
    }
  }

  lemma CountedMore(e: Env, st: Store, p: Bytes, schema: ProjectSchema, done: set<Key>, d: Key, before: map<Key, Stats>,
                    after: map<Key, Stats>)
    requires d in DocKeys(st, p) && d !in done && Typed(st) && d.c in schema.collections && WellNamed(schema)
    requires CountedSoFar(e, st, p, schema, done, before)
    requires Counts(e, p, d.c, schema.collections[d.c].searchIndexes, st[d].doc, before, after)
    ensures CountedSoFar(e, st, p, schema, done + {d}, after)
  {
    hide StatsOver, TermsIn;
    DocConcerns(st, p, d);
    forall c, i | c in schema.collections && 0 <= i < |schema.collections[c].searchIndexes|
      ensures var index := schema.collections[c].searchIndexes[i];
        StatsKey(p, c, index.name) in after
        && after[StatsKey(p, c, index.name)] == Clamp(StatsOver(e, st, p, c, index, done + {d}))
    {
      var index := schema.collections[c].searchIndexes[i];
      StatsOverMore(e, st, p, c, index, done, d);
      assert StatsKey(p, c, index.name) in before;
    }
  }

  /** Re-index every document of every declared collection, in whatever order the scan yields them. */
  method IndexAll(batch: WriteBatch, e: Env, st: Store, p: Bytes, schema: ProjectSchema, seeded: map<Key,
                  Stats>) returns (stats: map<Key, Stats>)
    requires Typed(st) && WellNamed(schema)
    requires BuiltSoFar(e, st, p, schema, {}, EffectOf(batch.ops)) && CountedSoFar(e, st, p, schema, {}, seeded)
    modifies batch
    ensures BuiltSoFar(e, st, p, schema, DocKeys(st, p), EffectOf(batch.ops))
    ensures CountedSoFar(e, st, p, schema, DocKeys(st, p), stats)
  {
    hide EffectOf, BuiltSoFar, Indexed, Counts, CountedSoFar;
    stats := seeded;
    var left := DocKeys(st, p);
    ghost var done: set<Key> := {};
    while left != {}
      invariant done + left == DocKeys(st, p) && done !! left
      invariant BuiltSoFar(e, st, p, schema, done, EffectOf(batch.ops)) && CountedSoFar(e, st, p, schema, done, stats)
      decreases left
    {
      var d :| d in left;
      if d.c !in schema.collections {
        BuiltSkip(e, st, p, schema, done, d, EffectOf(batch.ops), stats);
      } else {
        ghost var before, counted := EffectOf(batch.ops), stats;
        CountedKeys(e, st, p, schema, done, stats, d.c);
        stats := IndexDocument(batch, e, p, d.c, schema.collections[d.c], st[d].doc, stats);
        BuiltMore(e, st, p, schema, done, d, before, EffectOf(batch.ops));
        CountedMore(e, st, p, schema, done, d, counted, stats);
      }
      left, done := left - {d}, done + {d};
    }
    assert done == DocKeys(st, p);
  }

  lemma CountedKeys(e: Env, st: Store, p: Bytes, schema: ProjectSchema, done: set<Key>, stats: map<Key, Stats>,
                    c: Bytes)
    requires CountedSoFar(e, st, p, schema, done, stats) && c in schema.collections
    ensures forall i | 0 <= i < |schema.collections[c].searchIndexes| ::
              StatsKey(p, c, schema.collections[c].searchIndexes[i].name) in stats
  {}

  /** What a finished batch must do to each key. */
  ghost predicate Rebuilds(e: Env, st: Store, p: Bytes, schema: ProjectSchema, stats: map<Key, Stats>, eff: Effect) {
    && At(eff, MetaKey(p)) == Some(Some(SchemaVal(schema)))
    && (forall k: Key | (k.MetaKey? && k.p != p) || k.DocKey? :: At(eff, k) == None)
    && (forall k: Key | k.StatsKey? :: At(eff, k) ==
          if k in stats then Some(Some(StatsVal(stats[k]))) else if k in OldKeys(st, p) then Some(None) else None)
    && (forall k: Key | PerDocument(k) :: At(eff, k) ==
          if RebuiltAt(e, st, p, schema, DocKeys(st, p), k).Some? then
            Some(RebuiltAt(e, st, p, schema, DocKeys(st, p), k))
          else if k in OldKeys(st, p) then Some(None) else None)
  }

  method PutStats(batch: WriteBatch, e: Env, st: Store, p: Bytes, schema: ProjectSchema, stats: map<Key, Stats>)
    requires BuiltSoFar(e, st, p, schema, DocKeys(st, p), EffectOf(batch.ops)) && stats.Keys == DeclaredStats(p, schema)
    modifies batch
    ensures Rebuilds(e, st, p, schema, stats, EffectOf(batch.ops))
  {
    hide EffectOf, RebuiltAt;
    var left := stats.Keys;
    ghost var seen: set<Key> := {};
    while left != {}
      invariant seen + left == stats.Keys && seen !! left
      invariant forall k: Key :: At(EffectOf(batch.ops), k) ==
                  if k in seen then Some(Some(StatsVal(stats[k]))) else At(old(EffectOf(batch.ops)), k)
      decreases left
    {
      var key :| key in left;
      ghost var before := EffectOf(batch.ops);
      batch.Put(key, StatsVal(stats[key]));
      forall k: Key ensures At(EffectOf(batch.ops), k) == if k == key then Some(Some(StatsVal(stats[key])))
               else At(before, k) {}
      left, seen := left - {key}, seen + {key};
    }
    assert seen == stats.Keys;
    assert forall k | k in stats :: k.StatsKey?;
  }

  // ---- The whole push ----

  lemma AllDone(e: Env, st: Store, p: Bytes, schema: ProjectSchema, k: Key)
    requires Typed(st) && PerDocument(k) && k.p == p
    ensures RebuiltAt(e, st, p, schema, DocKeys(st, p), k) == Expected(e, WithSchema(st, p, schema), k)
  {
    hide EntryAt;
    var with := WithSchema(st, p, schema);
    assert DocAt(with, p, k.c, k.id) == DocAt(st, p, k.c, k.id);
    assert CollectionAt(with, p, k.c) == Collection(Some(schema), k.c);
    if DocAt(st, p, k.c, k.id).Some? { assert DocKey(p, k.c, k.id) in DocKeys(st, p); }
  }

  lemma AllCounted(e: Env, st: Store, p: Bytes, c: Bytes, schema: ProjectSchema, index: SearchIndexDef)
    requires Typed(st)
    ensures StatsOver(e, st, p, c, index, DocKeys(st, p)) == ExactStats(e, WithSchema(st, p, schema), p, c, index)
  {
    hide TermsIn;
    var with := WithSchema(st, p, schema);
    var a, b := DoneLens(e, st, p, c, index, DocKeys(st, p)), Lengths(e, with, p, c, index);
    forall id ensures id in a <==> id in b {
      DoneAt(e, st, p, c, index, DocKeys(st, p), id);
      IdsAreDocs(with, p, c, id);
      assert DocAt(with, p, c, id) == DocAt(st, p, c, id);
      if DocAt(st, p, c, id).Some? { assert DocKey(p, c, id) in DocKeys(st, p); }
    }
    forall id | id in a ensures a[id] == b[id] { assert DocAt(with, p, c, id) == DocAt(st, p, c, id); }
    assert a == b;
    assert b.Keys == Ids(with, p, c);
  }

  lemma StatsDone(e: Env, st: Store, p: Bytes, schema: ProjectSchema, stats: map<Key, Stats>, k: Key)
    requires Typed(st) && WellNamed(schema) && CountedSoFar(e, st, p, schema, DocKeys(st, p), stats) && k.StatsKey?
    requires k.p == p
    ensures Expected(e, WithSchema(st, p, schema), k) == if k in stats then Some(StatsVal(stats[k])) else None
  {
    hide StatsOver, ExactStats;
    var with := WithSchema(st, p, schema);
    assert CollectionAt(with, p, k.c) == Collection(Some(schema), k.c);
    if k.c in schema.collections {
      var defs := schema.collections[k.c].searchIndexes;
      FoundSearch(defs, k.name);
      if k in stats {
        var i :| 0 <= i < |defs| && k == StatsKey(p, k.c, defs[i].name);
        FindsSearch(defs, i);
        AllCounted(e, st, p, k.c, schema, defs[i]);
      }
    }
  }

  /** The finished batch leaves the store the pointwise push leaves. */
  lemma RebuildIsPush(e: Env, st: Store, p: Bytes, schema: ProjectSchema, stats: map<Key, Stats>, eff: Effect)
    requires Typed(st) && WellNamed(schema) && CountedSoFar(e, st, p, schema, DocKeys(st, p), stats)
    requires Rebuilds(e, st, p, schema, stats, eff)
    ensures Apply(st, eff) == AfterPush(e, st, p, schema)
  {
    var a, b := Apply(st, eff), AfterPush(e, st, p, schema);
    forall k ensures Look(a, k) == Look(b, k) { RebuildLook(e, st, p, schema, stats, eff, k); }
    assert forall k | k in a :: Look(a, k) == Look(b, k);
    assert forall k | k in b :: Look(a, k) == Look(b, k);
  }

  lemma RebuildLook(e: Env, st: Store, p: Bytes, schema: ProjectSchema, stats: map<Key, Stats>, eff: Effect, k: Key)
    requires Typed(st) && WellNamed(schema) && CountedSoFar(e, st, p, schema, DocKeys(st, p), stats)
    requires Rebuilds(e, st, p, schema, stats, eff)
    ensures Look(Apply(st, eff), k) == Look(AfterPush(e, st, p, schema), k)
  {
    hide AfterPush, RebuiltAt, CountedSoFar, Expected, Apply;
    PushLook(e, st, p, schema, k);
    ApplyLook(st, eff, k);
    if k.StatsKey? && k.p == p {
      StatsDone(e, st, p, schema, stats, k);
    } else if PerDocument(k) && k.p == p {
      AllDone(e, st, p, schema, k);
    } else if PerDocument(k) || k.StatsKey? {
      ElsewhereUnbuilt(e, st, p, schema, stats, k);
    }
  }

  lemma ElsewhereUnbuilt(e: Env, st: Store, p: Bytes, schema: ProjectSchema, stats: map<Key, Stats>, k: Key)
    requires CountedSoFar(e, st, p, schema, DocKeys(st, p), stats) && k.p != p
    ensures PerDocument(k) ==> RebuiltAt(e, st, p, schema, DocKeys(st, p), k) == None
    ensures k !in stats
  {}

  /** The rebuild: put the schema, drop every old entry, re-index every document, write the statistics. The
      store this batch leaves is the one where each index key of the project holds its recomputed value. */
  method BuildPush(e: Env, st: Store, p: Bytes, schema: ProjectSchema) returns (batch: WriteBatch)
    requires Typed(st) && WellNamed(schema)
    ensures fresh(batch) && Apply(st, EffectOf(batch.ops)) == AfterPush(e, st, p, schema)
  {
    hide Apply, AfterPush, BuiltSoFar, Rebuilds;
    batch := new WriteBatch();
    batch.Put(MetaKey(p), SchemaVal(schema));
    DropOld(batch, e, st, p, schema);
    var seeded := SeedStats(e, st, p, schema);
    var stats := IndexAll(batch, e, st, p, schema, seeded);
    PutStats(batch, e, st, p, schema, stats);
    RebuildIsPush(e, st, p, schema, stats, EffectOf(batch.ops));
  }
}
