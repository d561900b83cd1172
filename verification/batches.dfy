/** Write batches built operation by operation, as the helpers in server/src/db/indexes.rs build them, and the
    pointwise effect each helper has. */
module Batches {
  import opened ByteStrings
  import opened Values
  import opened Encoding
  import opened Keys
  import opened Fts
  import opened Stores
  import Vectors

  class WriteBatch {
    var ops: seq<BatchOp>

    constructor ()
      ensures ops == [] && EffectOf(ops) == map[]
    {
      ops := [];
    }

    method Put(key: Key, val: Val)
      modifies this
      ensures ops == old(ops) + [BatchOp.Put(key, val)]
      ensures EffectOf(ops) == old(EffectOf(ops))[key := Some(val)]
    {
      ops := ops + [BatchOp.Put(key, val)];
      assert ops[..|ops| - 1] == old(ops);
    }

    method Delete(key: Key)
      modifies this
      ensures ops == old(ops) + [BatchOp.Delete(key)]
      ensures EffectOf(ops) == old(EffectOf(ops))[key := None]
    {
      ops := ops + [BatchOp.Delete(key)];
      assert ops[..|ops| - 1] == old(ops);
    }
  }

  // ---- What each helper adds, in its own order ----

  function IdxKeyOf(e: Env, p: Bytes, c: Bytes, index: IndexDef, doc: Document): Key {
    IdxKey(p, c, index.name, EncodedFields(e, index.fields, doc.data), doc.id)
  }

  function IdxStep(e: Env, p: Bytes, c: Bytes, index: IndexDef, was: Option<Document>, now: Option<Document>): Effect {
    (if was.Some? then map[IdxKeyOf(e, p, c, index, was.value) := None] else map[])
    + (if now.Some? then map[IdxKeyOf(e, p, c, index, now.value) := Some(IdVal(now.value.id))] else map[])
  }

  function IdxEffect(e: Env, p: Bytes, c: Bytes, defs: seq<IndexDef>, was: Option<Document>,
                     now: Option<Document>): Effect {
    if defs == [] then map[]
    else IdxEffect(e, p, c, defs[..|defs| - 1], was, now) + IdxStep(e, p, c, defs[|defs| - 1], was, now)
  }

  function VecVal(e: Env, index: VectorIndexDef, now: Option<Document>): Option<Val> {
    if now.None? then None
    else match Vectors.DocVector(e, now.value.data, index.field, index.dims)
      case Some(v) => Some(Val.VecVal(v))
      case None => None
  }

  function VecEffect(e: Env, p: Bytes, c: Bytes, defs: seq<VectorIndexDef>, id: Bytes, now: Option<Document>): Effect {
    if defs == [] then map[]
    else
      var n := |defs| - 1;
      VecEffect(e, p, c, defs[..n], id, now)[VecKey(p, c, defs[n].name, id) := VecVal(e, defs[n], now)]
  }

  /** Deletions for the terms of a document. */
  function Unpost(p: Bytes, c: Bytes, name: Bytes, id: Bytes, terms: set<Bytes>): Effect {
    map t | t in terms :: PostKey(p, c, name, t, id) := None
  }

  /** Postings for some of a document's terms. */
  function Post(p: Bytes, c: Bytes, name: Bytes, id: Bytes, all: DocTerms, terms: set<Bytes>): Effect {
    map t | t in terms && t in all.tf :: PostKey(p, c, name, t, id) := Some(PostVal(all.tf[t], all.len))
  }

  function FtsStep(e: Env, p: Bytes, c: Bytes, index: SearchIndexDef, stats: Stats, was: Option<Document>,
                   now: Option<Document>): Effect {
    (if was.Some? then Unpost(p, c, index.name, was.value.id, TermsIn(e, index, was.value.data).tf.Keys) else map[])
    + (if now.Some? then
         var terms := TermsIn(e, index, now.value.data);
         Post(p, c, index.name, now.value.id, terms, terms.tf.Keys)
       else map[])
    + map[StatsKey(p, c, index.name) := Some(StatsVal(StepStats(e, index, stats, was, now)))]
  }

  function FtsEffect(e: Env, p: Bytes, c: Bytes, defs: seq<SearchIndexDef>, read: seq<Stats>, was: Option<Document>,
                     now: Option<Document>): Effect
    requires |read| == |defs|
  {
    if defs == [] then map[]
    else
      var n := |defs| - 1;
      FtsEffect(e, p, c, defs[..n], read[..n], was, now) + FtsStep(e, p, c, defs[n], read[n], was, now)
  }

  // ---- The same, key by key ----

  /** What an effect does to a key: nothing, or the value it leaves. */
  function At(eff: Effect, k: Key): Option<Option<Val>> {
    if k in eff then Some(eff[k]) else None
  }

  lemma AtPlus(a: Effect, b: Effect, k: Key)
    ensures At(a + b, k) == if k in b then At(b, k) else At(a, k)
  {}

  predicate DistinctIdx(defs: seq<IndexDef>) { forall i, j | 0 <= i < j < |defs| :: defs[i].name != defs[j].name }
  predicate DistinctVec(defs: seq<VectorIndexDef>) { forall i, j | 0 <= i < j < |defs| :: defs[i].name != defs[j].name }
  predicate DistinctFts(defs: seq<SearchIndexDef>) { forall i, j | 0 <= i < j < |defs| :: defs[i].name != defs[j].name }

  /** A delete of the old entry never undoes a put: with distinct names the entry loop leaves each new key
      holding the id, and each old key that is not new deleted. */
  lemma {:induction false} IdxEffectAt(e: Env, p: Bytes, c: Bytes, defs: seq<IndexDef>, was: Option<Document>,
                                       now: Option<Document>, k: Key)
    requires DistinctIdx(defs)
    ensures At(IdxEffect(e, p, c, defs, was, now), k) ==
            if now.Some? && k in IdxKeys(e, p, c, defs, now.value) then Some(Some(IdVal(now.value.id)))
            else if was.Some? && k in IdxKeys(e, p, c, defs, was.value) then Some(None)
            else None
  {
    if defs != [] {
      var n := |defs| - 1;
      var less := defs[..n];
      IdxEffectAt(e, p, c, less, was, now, k);
      AtPlus(IdxEffect(e, p, c, less, was, now), IdxStep(e, p, c, defs[n], was, now), k);
      if now.Some? { IdxKeysSnoc(e, p, c, defs, now.value, k); }
      if was.Some? { IdxKeysSnoc(e, p, c, defs, was.value, k); }
    }
  }

  lemma IdxKeysSnoc(e: Env, p: Bytes, c: Bytes, defs: seq<IndexDef>, doc: Document, k: Key)
    requires defs != [] && DistinctIdx(defs)
    ensures k in IdxKeys(e, p, c, defs, doc) <==>
              k in IdxKeys(e, p, c, defs[..|defs| - 1], doc) || k == IdxKeyOf(e, p, c, defs[|defs| - 1], doc)
    ensures k in IdxKeys(e, p, c, defs[..|defs| - 1], doc) ==> k.IdxKey? && k.name != defs[|defs| - 1].name
  {
    var n := |defs| - 1;
    if k in IdxKeys(e, p, c, defs, doc) {
      var i :| 0 <= i < |defs| && k == IdxKeyOf(e, p, c, defs[i], doc);
      if i < n { assert defs[..n][i] == defs[i]; }
    }
    if k in IdxKeys(e, p, c, defs[..n], doc) {
      var i :| 0 <= i < n && k == IdxKeyOf(e, p, c, defs[..n][i], doc);
      assert k == IdxKeyOf(e, p, c, defs[i], doc);
    }
  }

  lemma {:induction false} VecEffectAt(e: Env, p: Bytes, c: Bytes, defs: seq<VectorIndexDef>, id: Bytes,
                                       now: Option<Document>, k: Key)
    requires DistinctVec(defs)
    ensures k in VecEffect(e, p, c, defs, id, now) <==> k in VecKeys(p, c, defs, id)
    ensures forall i | 0 <= i < |defs| && k == VecKey(p, c, defs[i].name, id) ::
              At(VecEffect(e, p, c, defs, id, now), k) == Some(VecVal(e, defs[i], now))
  {
    if defs != [] {
      var n := |defs| - 1;
      VecEffectAt(e, p, c, defs[..n], id, now, k);
      assert forall i | 0 <= i < n :: defs[..n][i] == defs[i];
      if k in VecKeys(p, c, defs, id) {
        var i :| 0 <= i < |defs| && k == VecKey(p, c, defs[i].name, id);
        if i < n { assert k in VecKeys(p, c, defs[..n], id); }
      }
      if k in VecKeys(p, c, defs[..n], id) {
        var i :| 0 <= i < n && k == VecKey(p, c, defs[..n][i].name, id);
        assert k == VecKey(p, c, defs[i].name, id);
      }
    }
  }

  /** Postings: deletes first, so a term the new document keeps is put back and stays. */
  lemma FtsStepAt(e: Env, p: Bytes, c: Bytes, index: SearchIndexDef, stats: Stats, was: Option<Document>,
                  now: Option<Document>, k: Key)
    ensures At(FtsStep(e, p, c, index, stats, was, now), k) ==
            if k == StatsKey(p, c, index.name) then Some(Some(StatsVal(StepStats(e, index, stats, was, now))))
            else if now.Some? && IsPosting(e, p, c, index, now.value, k) then
              Some(Some(PostVal(TermsIn(e, index, now.value.data).tf[k.term], TermsIn(e, index, now.value.data).len)))
            else if was.Some? && IsPosting(e, p, c, index, was.value, k) then Some(None)
            else None
  {
  }

  predicate IsPosting(e: Env, p: Bytes, c: Bytes, index: SearchIndexDef, doc: Document, k: Key) {
    k.PostKey? && k.term in TermsIn(e, index, doc.data).tf && k == PostKey(p, c, index.name, k.term, doc.id)
  }

  lemma {:induction false} FtsEffectAt(e: Env, p: Bytes, c: Bytes, defs: seq<SearchIndexDef>, read: seq<Stats>,
                                       was: Option<Document>, now: Option<Document>, k: Key, i: nat)
    requires |read| == |defs| && DistinctFts(defs) && i < |defs|
    requires (k.PostKey? || k.StatsKey?) && k.name == defs[i].name
    ensures At(FtsEffect(e, p, c, defs, read, was, now), k) == At(FtsStep(e, p, c, defs[i], read[i], was, now), k)
  {
    hide FtsStep;
    var n := |defs| - 1;
    AtPlus(FtsEffect(e, p, c, defs[..n], read[..n], was, now), FtsStep(e, p, c, defs[n], read[n], was, now), k);
    FtsStepAt(e, p, c, defs[n], read[n], was, now, k);
    if i < n {
      FtsEffectAt(e, p, c, defs[..n], read[..n], was, now, k, i);
    } else {
      FtsEffectElse(e, p, c, defs[..n], read[..n], was, now, k);
    }
  }

  lemma {:induction false} FtsEffectElse(e: Env, p: Bytes, c: Bytes, defs: seq<SearchIndexDef>, read: seq<Stats>,
                                         was: Option<Document>, now: Option<Document>, k: Key)
    requires |read| == |defs|
    requires !(k.PostKey? || k.StatsKey?) || forall i | 0 <= i < |defs| :: defs[i].name != k.name
    ensures k !in FtsEffect(e, p, c, defs, read, was, now)
  {
    if defs != [] {
      var n := |defs| - 1;
      FtsEffectElse(e, p, c, defs[..n], read[..n], was, now, k);
      FtsStepAt(e, p, c, defs[n], read[n], was, now, k);
    }
  }

  // ---- The batch of a document write ----

  /** The order the code builds it in: the document, equality entries, vectors, then postings and statistics. */
  function BuiltEffect(e: Env, p: Bytes, c: Bytes, cs: Option<CollectionSchema>, read: seq<Stats>, id: Bytes,
                       was: Option<Document>, now: Option<Document>): Effect
    requires |read| == |SearchDefs(cs)|
  {
    if cs.None? then DocEffect(p, c, id, now)
    else
      (DocEffect(p, c, id, now) + IdxEffect(e, p, c, cs.value.indexes, was, now)
       + VecEffect(e, p, c, cs.value.vectorIndexes, id, now)
       + FtsEffect(e, p, c, cs.value.searchIndexes, read, was, now))
  }

  predicate OwnIds(id: Bytes, was: Option<Document>, now: Option<Document>) {
    (was.Some? ==> was.value.id == id) && (now.Some? ==> now.value.id == id)
  }

  lemma BuiltIdx(e: Env, p: Bytes, c: Bytes, cs: CollectionSchema, read: seq<Stats>, id: Bytes, was: Option<Document>,
                 now: Option<Document>, k: Key)
    requires |read| == |cs.searchIndexes| && UniqueNames(cs) && OwnIds(id, was, now) && k.IdxKey?
    ensures At(BuiltEffect(e, p, c, Some(cs), read, id, was, now), k)
              == At(WriteEffectWith(e, p, c, Some(cs), read, id, was, now), k)
  {
    hide IdxEffect, FtsEffect, VecEffect, StatsEffect;
    IdxEffectAt(e, p, c, cs.indexes, was, now, k);
    VecEffectAt(e, p, c, cs.vectorIndexes, id, now, k);
    FtsEffectElse(e, p, c, cs.searchIndexes, read, was, now, k);
    StatsEffectKeys(e, p, c, cs.searchIndexes, read, was, now, k);
    if k in Touched(e, p, c, cs, id, was, now) { IdxEntry(e, p, c, cs, id, was, now, k); }
  }

  /** The pointwise value of an equality entry is the loop's. */
  lemma IdxEntry(e: Env, p: Bytes, c: Bytes, cs: CollectionSchema, id: Bytes, was: Option<Document>,
                 now: Option<Document>, k: Key)
    requires UniqueNames(cs) && OwnIds(id, was, now) && k.IdxKey? && k in Touched(e, p, c, cs, id, was, now)
    ensures OptEntry(e, cs, now, k) ==
            if now.Some? && k in IdxKeys(e, p, c, cs.indexes, now.value) then Some(IdVal(id)) else None
  {
    var doc := if was.Some? && k in IdxKeys(e, p, c, cs.indexes, was.value) then was.value else now.value;
    var i := IdxKeyIndex(e, p, c, cs.indexes, doc, k);
    FindsIndex(cs.indexes, i);
    if now.Some? && k in IdxKeys(e, p, c, cs.indexes, now.value) {
      var j := IdxKeyIndex(e, p, c, cs.indexes, now.value, k);
      assert cs.indexes[i].name == cs.indexes[j].name;
      assert i == j;
    } else if now.Some? {
      OwnIdxKey(e, p, c, cs.indexes, now.value, i);
    }
  }

  lemma IdxKeyIndex(e: Env, p: Bytes, c: Bytes, defs: seq<IndexDef>, doc: Document, k: Key) returns (i: nat)
    requires k in IdxKeys(e, p, c, defs, doc)
    ensures i < |defs| && k == IdxKeyOf(e, p, c, defs[i], doc)
  {
    i :| 0 <= i < |defs| && k == IdxKey(p, c, defs[i].name, EncodedFields(e, defs[i].fields, doc.data), doc.id);
  }

  lemma OwnIdxKey(e: Env, p: Bytes, c: Bytes, defs: seq<IndexDef>, doc: Document, i: nat)
    requires i < |defs|
    ensures IdxKeyOf(e, p, c, defs[i], doc) in IdxKeys(e, p, c, defs, doc)
  {}

  lemma KeyKinds(e: Env, p: Bytes, c: Bytes, cs: CollectionSchema, id: Bytes, doc: Document, k: Key)
    ensures k in IdxKeys(e, p, c, cs.indexes, doc) ==> k.IdxKey?
    ensures k in PostKeys(e, p, c, cs.searchIndexes, doc) ==> k.PostKey?
    ensures k in VecKeys(p, c, cs.vectorIndexes, id) ==> k.VecKey?
  {}

  lemma BuiltVec(e: Env, p: Bytes, c: Bytes, cs: CollectionSchema, read: seq<Stats>, id: Bytes, was: Option<Document>,
                 now: Option<Document>, k: Key)
    requires |read| == |cs.searchIndexes| && UniqueNames(cs) && OwnIds(id, was, now) && k.VecKey?
    ensures At(BuiltEffect(e, p, c, Some(cs), read, id, was, now), k)
              == At(WriteEffectWith(e, p, c, Some(cs), read, id, was, now), k)
  {
    hide IdxEffect, FtsEffect, VecEffect, StatsEffect, IdxKeys, PostKeys;
    if was.Some? { KeyKinds(e, p, c, cs, id, was.value, k); }
    if now.Some? { KeyKinds(e, p, c, cs, id, now.value, k); }
    IdxEffectAt(e, p, c, cs.indexes, was, now, k);
    VecEffectAt(e, p, c, cs.vectorIndexes, id, now, k);
    FtsEffectElse(e, p, c, cs.searchIndexes, read, was, now, k);
    StatsEffectKeys(e, p, c, cs.searchIndexes, read, was, now, k);
    if k in VecKeys(p, c, cs.vectorIndexes, id) {
      var i :| 0 <= i < |cs.vectorIndexes| && k == VecKey(p, c, cs.vectorIndexes[i].name, id);
      FindsVector(cs.vectorIndexes, i);
    }
  }

  lemma BuiltPost(e: Env, p: Bytes, c: Bytes, cs: CollectionSchema, read: seq<Stats>, id: Bytes, was: Option<Document>,
                  now: Option<Document>, k: Key)
    requires |read| == |cs.searchIndexes| && UniqueNames(cs) && OwnIds(id, was, now) && k.PostKey?
    ensures At(BuiltEffect(e, p, c, Some(cs), read, id, was, now), k)
              == At(WriteEffectWith(e, p, c, Some(cs), read, id, was, now), k)
  {
    hide IdxEffect, FtsEffect, VecEffect, StatsEffect, FtsStep, IdxKeys, PostKeys, VecKeys, TermsIn;
    var defs := cs.searchIndexes;
    if was.Some? { KeyKinds(e, p, c, cs, id, was.value, k); }
    if now.Some? { KeyKinds(e, p, c, cs, id, now.value, k); }
    NotVec(p, c, cs.vectorIndexes, id, k);
    IdxEffectAt(e, p, c, cs.indexes, was, now, k);
    VecEffectAt(e, p, c, cs.vectorIndexes, id, now, k);
    StatsEffectKeys(e, p, c, defs, read, was, now, k);
    if i :| 0 <= i < |defs| && defs[i].name == k.name {
      FtsEffectAt(e, p, c, defs, read, was, now, k, i);
      FtsStepAt(e, p, c, defs[i], read[i], was, now, k);
      FindsSearch(defs, i);
      if was.Some? { PostKeysAt(e, p, c, defs, was.value, k, i); }
      if now.Some? { PostKeysAt(e, p, c, defs, now.value, k, i); }
    } else {
      FtsEffectElse(e, p, c, defs, read, was, now, k);
      if was.Some? { PostKeysElse(e, p, c, defs, was.value, k); }
      if now.Some? { PostKeysElse(e, p, c, defs, now.value, k); }
    }
  }

  lemma PostKeysElse(e: Env, p: Bytes, c: Bytes, defs: seq<SearchIndexDef>, doc: Document, k: Key)
    requires k.PostKey? && forall i | 0 <= i < |defs| :: defs[i].name != k.name
    ensures k !in PostKeys(e, p, c, defs, doc)
  {}

  lemma NotVec(p: Bytes, c: Bytes, defs: seq<VectorIndexDef>, id: Bytes, k: Key)
    ensures k in VecKeys(p, c, defs, id) ==> k.VecKey?
  {}

  lemma PostKeysAt(e: Env, p: Bytes, c: Bytes, defs: seq<SearchIndexDef>, doc: Document, k: Key, i: nat)
    requires DistinctFts(defs) && i < |defs| && k.PostKey? && k.name == defs[i].name
    ensures k in PostKeys(e, p, c, defs, doc) <==> IsPosting(e, p, c, defs[i], doc, k)
  {
  }

  lemma BuiltStats(e: Env, p: Bytes, c: Bytes, cs: CollectionSchema, read: seq<Stats>, id: Bytes, was: Option<Document>,
                   now: Option<Document>, k: Key)
    requires |read| == |cs.searchIndexes| && UniqueNames(cs) && OwnIds(id, was, now)
    requires (k.StatsKey? || k.DocKey? || k.MetaKey?)
    ensures At(BuiltEffect(e, p, c, Some(cs), read, id, was, now), k)
              == At(WriteEffectWith(e, p, c, Some(cs), read, id, was, now), k)
  {
    hide IdxEffect, FtsEffect, VecEffect, StatsEffect, FtsStep;
    var defs := cs.searchIndexes;
    IdxEffectAt(e, p, c, cs.indexes, was, now, k);
    VecEffectAt(e, p, c, cs.vectorIndexes, id, now, k);
    StatsEffectKeys(e, p, c, defs, read, was, now, k);
    if k.StatsKey? {
      if i :| 0 <= i < |defs| && defs[i].name == k.name {
        FtsEffectAt(e, p, c, defs, read, was, now, k, i);
        FtsStepAt(e, p, c, defs[i], read[i], was, now, k);
      } else {
        FtsEffectElse(e, p, c, defs, read, was, now, k);
      }
    } else {
      FtsEffectElse(e, p, c, defs, read, was, now, k);
    }
  }

  lemma SameEffects(a: Effect, b: Effect)
    requires forall k: Key :: At(a, k) == At(b, k)
    ensures a == b
  {
    forall k ensures k in a <==> k in b { assert At(a, k) == At(b, k); }
    forall k | k in a ensures a[k] == b[k] { assert At(a, k) == At(b, k); }
  }

  /** The batch the loops build, last operation on a key winning, is the pointwise effect of the write. */
  lemma BuiltIsWriteEffect(e: Env, p: Bytes, c: Bytes, cs: Option<CollectionSchema>, read: seq<Stats>, id: Bytes,
                           was: Option<Document>, now: Option<Document>)
    requires |read| == |SearchDefs(cs)| && OwnIds(id, was, now) && (cs.Some? ==> UniqueNames(cs.value))
    ensures BuiltEffect(e, p, c, cs, read, id, was, now) == WriteEffectWith(e, p, c, cs, read, id, was, now)
  {
    if cs.Some? {
      hide BuiltEffect, WriteEffectWith, At;
      forall k: Key
        ensures At(BuiltEffect(e, p, c, cs, read, id, was, now), k)
                  == At(WriteEffectWith(e, p, c, cs, read, id, was, now), k)
      {
        if k.IdxKey? { BuiltIdx(e, p, c, cs.value, read, id, was, now, k); }
        else if k.VecKey? { BuiltVec(e, p, c, cs.value, read, id, was, now, k); }
        else if k.PostKey? { BuiltPost(e, p, c, cs.value, read, id, was, now, k); }
        else { BuiltStats(e, p, c, cs.value, read, id, was, now, k); }
      }
      SameEffects(BuiltEffect(e, p, c, cs, read, id, was, now), WriteEffectWith(e, p, c, cs, read, id, was, now));
    }
  }

  // ---- The helpers ----

  lemma PlusAssoc(a: Effect, b: Effect, c: Effect)
    ensures a + b + c == a + (b + c)
  {}

  lemma PlusOne(a: Effect, k: Key, v: Option<Val>)
    ensures a[k := v] == a + map[k := v]
  {}

  lemma IdxEffectSnoc(e: Env, p: Bytes, c: Bytes, defs: seq<IndexDef>, i: nat, was: Option<Document>,
                      now: Option<Document>)
    requires i < |defs|
    ensures IdxEffect(e, p, c, defs[..i + 1], was, now)
              == IdxEffect(e, p, c, defs[..i], was, now) + IdxStep(e, p, c, defs[i], was, now)
  {
    assert defs[..i + 1][..i] == defs[..i];
  }

  /** Delete the old entry and put the new one, index by index. A delete of a document passes no new one. */
  method ApplyIndexOps(batch: WriteBatch, e: Env, p: Bytes, c: Bytes, cs: Option<CollectionSchema>,
                       was: Option<Document>, now: Option<Document>)
    modifies batch
    ensures EffectOf(batch.ops)
              == old(EffectOf(batch.ops)) + (if cs.Some? then IdxEffect(e, p, c, cs.value.indexes, was, now) else map[])
  {
    hide EffectOf, IdxStep;
    if cs.None? { return; }
    var defs := cs.value.indexes;
    for i := 0 to |defs|
      invariant EffectOf(batch.ops) == old(EffectOf(batch.ops)) + IdxEffect(e, p, c, defs[..i], was, now)
    {
      IdxEffectSnoc(e, p, c, defs, i, was, now);
      PlusAssoc(old(EffectOf(batch.ops)), IdxEffect(e, p, c, defs[..i], was, now), IdxStep(e, p, c, defs[i], was, now));
      ApplyIndexStep(batch, e, p, c, defs[i], was, now);
    }
    assert defs[..|defs|] == defs;
  }

  method ApplyIndexStep(batch: WriteBatch, e: Env, p: Bytes, c: Bytes, index: IndexDef, was: Option<Document>,
                        now: Option<Document>)
    modifies batch
    ensures EffectOf(batch.ops) == old(EffectOf(batch.ops)) + IdxStep(e, p, c, index, was, now)
  {
    hide EffectOf, IdxKeyOf;
    if was.Some? {
      batch.Delete(IdxKeyOf(e, p, c, index, was.value));
    }
    if now.Some? {
      batch.Put(IdxKeyOf(e, p, c, index, now.value), IdVal(now.value.id));
    }
  }

  lemma VecEffectSnoc(e: Env, p: Bytes, c: Bytes, defs: seq<VectorIndexDef>, i: nat, id: Bytes, now: Option<Document>)
    requires i < |defs|
    ensures VecEffect(e, p, c, defs[..i + 1], id, now) ==
            VecEffect(e, p, c, defs[..i], id, now) + map[VecKey(p, c, defs[i].name, id) := VecVal(e, defs[i], now)]
  {
    assert defs[..i + 1][..i] == defs[..i];
  }

  /** Put the new vector, or delete the key when the document no longer has one. */
  method ApplyVecOps(batch: WriteBatch, e: Env, p: Bytes, c: Bytes, cs: Option<CollectionSchema>, id: Bytes,
                     now: Option<Document>)
    modifies batch
    ensures EffectOf(batch.ops)
              == old(EffectOf(batch.ops))
                + (if cs.Some? then VecEffect(e, p, c, cs.value.vectorIndexes, id, now) else map[])
  {
    hide EffectOf, VecVal;
    if cs.None? { return; }
    var defs := cs.value.vectorIndexes;
    for i := 0 to |defs|
      invariant EffectOf(batch.ops) == old(EffectOf(batch.ops)) + VecEffect(e, p, c, defs[..i], id, now)
    {
      VecEffectSnoc(e, p, c, defs, i, id, now);
      ghost var one: Effect := map[VecKey(p, c, defs[i].name, id) := VecVal(e, defs[i], now)];
      PlusAssoc(old(EffectOf(batch.ops)), VecEffect(e, p, c, defs[..i], id, now), one);
      ApplyVecStep(batch, e, p, c, defs[i], id, now);
    }
    assert defs[..|defs|] == defs;
  }

  method ApplyVecStep(batch: WriteBatch, e: Env, p: Bytes, c: Bytes, index: VectorIndexDef, id: Bytes,
                      now: Option<Document>)
    modifies batch
    ensures EffectOf(batch.ops) == old(EffectOf(batch.ops)) + map[VecKey(p, c, index.name, id) := VecVal(e, index, now)]
  {
    hide EffectOf;
    var key := VecKey(p, c, index.name, id);
    var vector: Option<seq<bits32>> := None;
    if now.Some? {
      vector := Vectors.ComputeDocVector(e, now.value.data, index.field, index.dims);
    }
    PlusOne(EffectOf(batch.ops), key, VecVal(e, index, now));
    match vector
    case Some(v) => batch.Put(key, Val.VecVal(v));
    case None => batch.Delete(key);
  }

  /** Delete a posting for each term, in whatever order the map yields them. */
  method DeletePostings(batch: WriteBatch, p: Bytes, c: Bytes, name: Bytes, id: Bytes, terms: DocTerms)
    modifies batch
    ensures EffectOf(batch.ops) == old(EffectOf(batch.ops)) + Unpost(p, c, name, id, terms.tf.Keys)
  {
    var left := terms.tf.Keys;
    ghost var seen: set<Bytes> := {};
    while left != {}
      invariant seen + left == terms.tf.Keys && seen !! left
      invariant EffectOf(batch.ops) == old(EffectOf(batch.ops)) + Unpost(p, c, name, id, seen)
      decreases left
    {
      var t :| t in left;
      UnpostMore(p, c, name, id, seen, t);
      batch.Delete(PostKey(p, c, name, t, id));
      left, seen := left - {t}, seen + {t};
    }
    assert seen == terms.tf.Keys;
  }

  lemma UnpostMore(p: Bytes, c: Bytes, name: Bytes, id: Bytes, seen: set<Bytes>, t: Bytes)
    ensures Unpost(p, c, name, id, seen + {t}) == Unpost(p, c, name, id, seen)[PostKey(p, c, name, t, id) := None]
  {
    var a, b := Unpost(p, c, name, id, seen + {t}), Unpost(p, c, name, id, seen)[PostKey(p, c, name, t, id) := None];
    forall k ensures k in a <==> k in b {
      if k in a { assert k.term in seen + {t} && k == PostKey(p, c, name, k.term, id); }
    }
    assert a.Keys == b.Keys;
  }

  method PutPostings(batch: WriteBatch, p: Bytes, c: Bytes, name: Bytes, id: Bytes, terms: DocTerms)
    modifies batch
    ensures EffectOf(batch.ops) == old(EffectOf(batch.ops)) + Post(p, c, name, id, terms, terms.tf.Keys)
  {
    var left := terms.tf.Keys;
    ghost var seen: set<Bytes> := {};
    while left != {}
      invariant seen + left == terms.tf.Keys && seen !! left
      invariant EffectOf(batch.ops) == old(EffectOf(batch.ops)) + Post(p, c, name, id, terms, seen)
      decreases left
    {
      var t :| t in left;
      PostMore(p, c, name, id, terms, seen, t);
      batch.Put(PostKey(p, c, name, t, id), PostVal(terms.tf[t], terms.len));
      left, seen := left - {t}, seen + {t};
    }
    assert seen == terms.tf.Keys;
  }

  lemma PostMore(p: Bytes, c: Bytes, name: Bytes, id: Bytes, all: DocTerms, seen: set<Bytes>, t: Bytes)
    requires t in all.tf
    ensures Post(p, c, name, id, all, seen + {t}) ==
            Post(p, c, name, id, all, seen)[PostKey(p, c, name, t, id) := Some(PostVal(all.tf[t], all.len))]
  {
    var a := Post(p, c, name, id, all, seen + {t});
    var b := Post(p, c, name, id, all, seen)[PostKey(p, c, name, t, id) := Some(PostVal(all.tf[t], all.len))];
    forall k ensures k in a <==> k in b {
      if k in a { assert k.term in seen + {t} && k == PostKey(p, c, name, k.term, id); }
    }
    assert a.Keys == b.Keys;
  }

  lemma FtsEffectSnoc(e: Env, p: Bytes, c: Bytes, defs: seq<SearchIndexDef>, read: seq<Stats>, i: nat,
                      was: Option<Document>, now: Option<Document>)
    requires |read| == |defs| && i < |defs|
    ensures FtsEffect(e, p, c, defs[..i + 1], read[..i + 1], was, now) ==
            FtsEffect(e, p, c, defs[..i], read[..i], was, now) + FtsStep(e, p, c, defs[i], read[i], was, now)
  {
    hide FtsStep;
    assert defs[..i + 1][..i] == defs[..i] && read[..i + 1][..i] == read[..i];
  }

  /** Per search index: read its statistics, retire the old postings, put the new ones, write the statistics
      back. The caller holds the statistics lock. */
  method ApplyFtsOps(batch: WriteBatch, e: Env, st: Store, p: Bytes, c: Bytes, cs: Option<CollectionSchema>,
                     was: Option<Document>, now: Option<Document>)
    modifies batch
    ensures EffectOf(batch.ops) == old(EffectOf(batch.ops))
              + (if cs.Some? then FtsEffect(e, p, c, cs.value.searchIndexes,
                                            Stores.ReadStats(st, p, c, cs.value.searchIndexes), was, now) else map[])
  {
    hide EffectOf, FtsStep;
    if cs.None? { return; }
    var defs := cs.value.searchIndexes;
    ghost var read := Stores.ReadStats(st, p, c, defs);
    for i := 0 to |defs|
      invariant EffectOf(batch.ops) == old(EffectOf(batch.ops)) + FtsEffect(e, p, c, defs[..i], read[..i], was, now)
    {
      FtsEffectSnoc(e, p, c, defs, read, i, was, now);
      PlusAssoc(old(EffectOf(batch.ops)), FtsEffect(e, p, c, defs[..i], read[..i], was, now),
                FtsStep(e, p, c, defs[i], read[i], was, now));
      ApplyFtsStep(batch, e, st, p, c, defs[i], was, now);
    }
    assert defs[..|defs|] == defs && read[..|defs|] == read;
  }

  method ApplyFtsStep(batch: WriteBatch, e: Env, st: Store, p: Bytes, c: Bytes, index: SearchIndexDef,
                      was: Option<Document>, now: Option<Document>)
    modifies batch
    ensures EffectOf(batch.ops)
              == old(EffectOf(batch.ops)) + FtsStep(e, p, c, index, StatsAt(st, p, c, index.name), was, now)
  {
    hide EffectOf, Unpost, Post, TermsIn, StatsAt;
    ghost var base := EffectOf(batch.ops);
    var stats := StatsAt(st, p, c, index.name);
    // Deletes first: a term the document keeps is put back below.
    ghost var gone: Effect := map[];
    if was.Some? {
      var terms := ComputeTerms(e, index, was.value.data);
      DeletePostings(batch, p, c, index.name, was.value.id, terms);
      gone := Unpost(p, c, index.name, was.value.id, terms.tf.Keys);
      stats := stats.RemoveDoc(terms.len);
    }
    ghost var come: Effect := map[];
    if now.Some? {
      var terms := ComputeTerms(e, index, now.value.data);
      PutPostings(batch, p, c, index.name, now.value.id, terms);
      come := Post(p, c, index.name, now.value.id, terms, terms.tf.Keys);
      stats := stats.AddDoc(terms.len);
    }
    PlusAssoc(base, gone, come);
    PlusAssoc(base, gone + come, map[StatsKey(p, c, index.name) := Some(StatsVal(stats))]);
    PlusOne(EffectOf(batch.ops), StatsKey(p, c, index.name), Some(StatsVal(stats)));
    batch.Put(StatsKey(p, c, index.name), StatsVal(stats));
  }
}
