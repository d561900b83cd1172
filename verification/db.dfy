/** The database object: reads, document writes and schema pushes as the methods of server/src/db run when
    nothing else is in flight, each proved to take exactly the atomic step the machine's theorems speak of. */
module Database {
  import opened ByteStrings
  import opened Values
  import opened Keys
  import opened Stores
  import opened Agreement
  import opened Machine
  import opened Safety
  import opened Consistency
  import opened Coherence
  import opened Batches
  import Embed
  import Filling
  import Rebuild
  import Shapes
  import Validation

  /** `NotDurable` is an internal error like `Unavailable` to a client; here it tells that the batch was applied. */
  datatype Failure = NotFound | Forbidden | Invalid | Unavailable | NotDurable
  datatype Result<+T> = Ok(value: T) | Err(error: Failure)

  /** What storage does with the one batch of an operation: takes it and makes it durable, refuses it, or applies
      it and then fails the wait for durability. */
  datatype Disk = Works | RefusesBatch | FailsFlush

  /** Data ready to be stored, and whether a vector was computed for it. */
  datatype Embedding = Embedding(data: Data, embedded: bool)

  type Precondition = Option<Ctx -> bool>

  predicate Lets(pre: Precondition, ctx: Ctx) { pre.Some? ==> pre.value(ctx) }

  function Judgement(pre: Precondition): Ctx -> bool { ctx => Lets(pre, ctx) }

  class Db {
    const e: Env
    const embedder: Option<Embed.Provider>
    var store: Store
    var vecCache: map<CacheKey, VectorSet>
    var vecGeneration: nat

    /** Index entries agree with the documents, and every cached set is what a scan would answer. */
    ghost predicate Valid()
      reads this
    {
      EntriesAgree(e, store) && forall k | k in vecCache :: IsScan(store, k, vecCache[k])
    }

    constructor (e: Env, embedder: Option<Embed.Provider>)
      ensures Valid() && store == map[] && vecCache == map[] && this.e == e && this.embedder == embedder
    {
      this.e, this.embedder, store, vecCache, vecGeneration := e, embedder, map[], map[], 0;
      new;
      EmptyAgrees(e);
    }

    // ---- Vectors ----

    /** Drop cached vectors: one collection, or the whole project. */
    method InvalidateVectors(p: Bytes, c: Option<Bytes>)
      modifies this`vecCache, this`vecGeneration
      ensures vecCache == map k | k in old(vecCache) && !(k.p == p && (c.None? || k.c == c.value)) :: old(vecCache)[k]
      ensures vecGeneration == old(vecGeneration) + 1
    {
      vecCache := map k | k in vecCache && !(k.p == p && (c.None? || k.c == c.value)) :: vecCache[k];
      vecGeneration := vecGeneration + 1;
    }

    /** Vectors of one index, from the cache or by scanning it; a scan under an unchanged generation is kept. */
    method Vectors(p: Bytes, c: Bytes, name: Bytes) returns (vectors: VectorSet)
      requires Valid()
      modifies this`vecCache
      ensures Valid() && IsScan(store, CacheKey(p, c, name), vectors)
      ensures vecCache == old(vecCache)[CacheKey(p, c, name) := vectors]
    {
      var key := CacheKey(p, c, name);
      if key in vecCache { return vecCache[key]; }
      var generation := vecGeneration;
      vectors := map[];
      var left := set k | k in store && k.VecKey? && k.p == p && k.c == c && k.name == name;
      ghost var seen: set<Key> := {};
      while left != {}
        invariant forall k: Key :: k in seen + left <==>
                    k in store && k.VecKey? && k.p == p && k.c == c && k.name == name
        invariant seen !! left
        invariant forall id ::
                    Entry(vectors, id) == if VecKey(p, c, name, id) in seen then VectorOf(store, key, id) else None
        decreases left
      {
        var k :| k in left;
        if store[k].VecVal? { vectors := vectors[k.id := store[k].v]; }
        assert k == VecKey(p, c, name, k.id);
        left, seen := left - {k}, seen + {k};
      }
      forall id ensures Entry(vectors, id) == VectorOf(store, key, id) {
        if VectorOf(store, key, id).Some? { assert VecKey(p, c, name, id) in seen; }
      }
      if generation == vecGeneration { vecCache := vecCache[key := vectors]; }
    }

    // ---- Document writes ----

    /** Add the postings and statistics, apply the batch, drop the collection's cached vectors whether or not the
        flush succeeds. */
    method CommitWrite(batch: WriteBatch, cs: Option<CollectionSchema>, p: Bytes, c: Bytes, ghost id: Bytes,
                       was: Option<Document>, now: Option<Document>, disk: Disk) returns (r: Result<()>)
      requires Valid() && cs == CollectionAt(store, p, c) && OwnIds(id, was, now)
      requires EffectOf(batch.ops) == Unposted(e, p, c, cs, id, was, now)
      modifies this, batch
      ensures disk.RefusesBatch? ==> r == Err(Unavailable) && store == old(store) && vecCache == old(vecCache)
      ensures !disk.RefusesBatch? ==>
                && r == (if disk.Works? then Ok(()) else Err(NotDurable))
                && store == AfterWrite(e, old(store), p, c, id, was, now)
                && vecCache == map k | k in old(vecCache) && !(k.p == p && k.c == c) :: old(vecCache)[k]
    {
      hide EffectOf, IdxEffect, VecEffect, FtsEffect, WriteEffectWith, Apply;
      ApplyFtsOps(batch, e, store, p, c, cs, was, now);
      ghost var read := Stores.ReadStats(store, p, c, SearchDefs(cs));
      BuiltIsWriteEffect(e, p, c, cs, read, id, was, now) by { TypedSchema(store, p, c); }
      assert EffectOf(batch.ops) == BuiltEffect(e, p, c, cs, read, id, was, now);
      if disk.RefusesBatch? { return Err(Unavailable); }
      store := Stores.Apply(store, EffectOf(batch.ops));
      InvalidateVectors(p, Some(c));
      return if disk.Works? then Ok(()) else Err(NotDurable);
    }

    /** The batch of a stored document: the document, its equality entries and its vectors. */
    method StoreBatch(cs: Option<CollectionSchema>, p: Bytes, c: Bytes, was: Option<Document>,
                      doc: Document) returns (batch: WriteBatch)
      ensures fresh(batch) && EffectOf(batch.ops) == Unposted(e, p, c, cs, doc.id, was, Some(doc))
    {
      hide IdxEffect, VecEffect;
      batch := new WriteBatch();
      batch.Put(DocKey(p, c, doc.id), DocVal(doc));
      ApplyIndexOps(batch, e, p, c, cs, was, Some(doc));
      ApplyVecOps(batch, e, p, c, cs, doc.id, Some(doc));
    }

    /** Data that passes the rule and the schema as sent, is embedded, and passes both again as it will be stored. */
    predicate Accepted(cs: Option<CollectionSchema>, was: Option<Data>, data: Data, pre: Precondition) {
      var out := Embed.ApplyEmbeddings(e, embedder, cs, data, None);
      && Lets(pre, Ctx(cs, was, Some(data))) && Validation.SchemaAccepts(e, cs, data) && out.Done?
      && Lets(pre, Ctx(cs, was, Some(out.data))) && Validation.SchemaAccepts(e, cs, out.data)
    }

    function Embedded(cs: Option<CollectionSchema>, was: Option<Data>, data: Data, pre: Precondition): Data
      requires Accepted(cs, was, data, pre)
    {
      Embed.ApplyEmbeddings(e, embedder, cs, data, None).data
    }

    /** Filling in keeps valid data valid, so the second check of the shapes never fails; and with nothing to fill in
        the data is accepted exactly if it has the declared shapes and the rule lets it through. */
    lemma AcceptedMeans(cs: Option<CollectionSchema>, was: Option<Data>, data: Data, pre: Precondition)
      ensures var out := Embed.ApplyEmbeddings(e, embedder, cs, data, None);
              Accepted(cs, was, data, pre) <==>
                && Lets(pre, Ctx(cs, was, Some(data))) && Shapes.Conforms(e, cs, data) && out.Done?
                && Lets(pre, Ctx(cs, was, Some(out.data)))
      ensures Accepted(cs, was, data, pre) ==> Shapes.Conforms(e, cs, Embedded(cs, was, data, pre))
      ensures var out := Embed.ApplyEmbeddings(e, embedder, cs, data, None);
              && (Validation.SchemaAccepts(e, cs, data) <==> Shapes.Conforms(e, cs, data))
              && (Shapes.Conforms(e, cs, data) && out.Done? ==> Validation.SchemaAccepts(e, cs, out.data))
      ensures Filling.NothingDue(e, embedder, cs, data, None) ==>
                && (Accepted(cs, was, data, pre) <==>
                      Lets(pre, Ctx(cs, was, Some(data))) && Shapes.Conforms(e, cs, data))
                && (Accepted(cs, was, data, pre) ==> Embedded(cs, was, data, pre) == data)
    {
      hide Embed.ApplyEmbeddings, Shapes.Conforms, Validation.SchemaAccepts, Filling.NothingDue;
      var out := Embed.ApplyEmbeddings(e, embedder, cs, data, None);
      Shapes.AcceptsIsConforms(e, cs, data);
      if out.Done? {
        Shapes.AcceptsIsConforms(e, cs, out.data);
        if Shapes.Conforms(e, cs, data) { Filling.FillingConforms(e, embedder, cs, data, None); }
      }
      if Filling.NothingDue(e, embedder, cs, data, None) {
        Filling.NothingDueChangesNothing(e, embedder, cs, data, None);
      }
    }

    /** Insert: checked and embedded, then checked again as it will be stored. What is stored has the declared shapes;
        data that needs no filling in is stored exactly if it has them and the rule lets it through. */
    method InsertChecked(p: Bytes, c: Bytes, data: Data, pre: Precondition, time: nat, newId: Bytes,
                         disk: Disk) returns (r: Result<Document>)
      requires Valid() && DocAt(store, p, c, newId) == None
      modifies this
      ensures Valid()
      ensures var cs := CollectionAt(old(store), p, c);
              if disk.RefusesBatch? || !Accepted(cs, None, data, pre) then
                r.Err? && r != Err(NotDurable) && store == old(store) && vecCache == old(vecCache)
              else
                var doc := Document(newId, time, time, Embedded(cs, None, data, pre));
                var commit :=
                  WriteCommit(0, Insert(p, c, data, Judgement(pre)), newId, None, doc.data, Some(doc),
                              SchemaAt(old(store), p));
                && r == (if disk.Works? then Ok(doc) else Err(NotDurable))
                && AtomicStep(e, old(store), commit, store)
                && StatsFollow(e, old(store), store, p, c, false)
      ensures var cs := CollectionAt(old(store), p, c);
              var out := Embed.ApplyEmbeddings(e, embedder, cs, data, None);
              r == Err(Forbidden) ==>
                !Lets(pre, Ctx(cs, None, Some(data))) || (out.Done? && !Lets(pre, Ctx(cs, None, Some(out.data))))
      ensures r == Err(Invalid) <==>
                var cs := CollectionAt(old(store), p, c);
                Lets(pre, Ctx(cs, None, Some(data))) && !Shapes.Conforms(e, cs, data)
      ensures var cs := CollectionAt(old(store), p, c);
              && (r.Ok? ==> Shapes.Conforms(e, cs, data) && Shapes.Conforms(e, cs, r.value.data))
              && (r.Ok? ==> Embed.ApplyEmbeddings(e, embedder, cs, data, None).Done?
                            && r.value.data == Embed.ApplyEmbeddings(e, embedder, cs, data, None).data)
              && (disk.Works? && Filling.NothingDue(e, embedder, cs, data, None) ==>
                    && (r.Ok? <==> Shapes.Conforms(e, cs, data) && Lets(pre, Ctx(cs, None, Some(data))))
                    && (pre.None? ==> (r.Ok? <==> Shapes.Conforms(e, cs, data)))
                    && (r.Ok? ==> r.value == Document(newId, time, time, data)))
    {
      hide EffectOf, Unposted, EntriesAgree, Embed.ApplyEmbeddings, Validation.SchemaAccepts, StatsFollow;
      hide Shapes.Conforms, Filling.NothingDue;
      var cs := CollectionAt(store, p, c);
      AcceptedMeans(cs, None, data, pre);
      if !Lets(pre, Ctx(cs, None, Some(data))) { return Err(Forbidden); }
      if !Validation.SchemaAccepts(e, cs, data) { return Err(Invalid); }
      var out := Embed.ApplyEmbeddings(e, embedder, cs, data, None);
      if out.Failed? { return Err(Unavailable); }
      if !Lets(pre, Ctx(cs, None, Some(out.data))) { return Err(Forbidden); }
      if !Validation.SchemaAccepts(e, cs, out.data) { return Err(Invalid); }
      var doc := Document(newId, time, time, out.data);
      var batch := StoreBatch(cs, p, c, None, doc);
      ghost var st, cache := store, vecCache;
      var written := CommitWrite(batch, cs, p, c, newId, None, Some(doc), disk);
      if !disk.RefusesBatch? {
        EmbeddingFollows(e, embedder, cs, data, None);
        FollowsSelf(e, cs, out.data);
        ghost var commit :=
          WriteCommit(0, Insert(p, c, data, Judgement(pre)), newId, None, doc.data, Some(doc), SchemaAt(st, p));
        assert AtomicStep(e, st, commit, store);
        AfterCommit(e, st, commit, store, cache, vecCache);
      }
      return if written.Ok? then Ok(doc) else Err(written.error);
    }

    /** Replace: the stored document keeps its creation time and gets the embedded new data. */
    method ReplaceChecked(p: Bytes, c: Bytes, id: Bytes, data: Data, pre: Precondition, time: nat,
                          disk: Disk) returns (r: Result<Document>)
      requires Valid()
      modifies this
      ensures Valid()
      ensures var cs, was := CollectionAt(old(store), p, c), DocAt(old(store), p, c, id);
              if disk.RefusesBatch? || was.None? || !Accepted(cs, OptData(was), data, pre) then
                r.Err? && r != Err(NotDurable) && store == old(store) && vecCache == old(vecCache)
              else
                var doc := Document(id, was.value.createdAt, time, Embedded(cs, OptData(was), data, pre));
                var commit :=
                  WriteCommit(0, Replace(p, c, id, data, Judgement(pre)), id, was, doc.data, Some(doc),
                              SchemaAt(old(store), p));
                && r == (if disk.Works? then Ok(doc) else Err(NotDurable))
                && AtomicStep(e, old(store), commit, store)
                && StatsFollow(e, old(store), store, p, c, true)
      ensures r == Err(NotFound) ==> DocAt(old(store), p, c, id).None?
      ensures var cs, was := CollectionAt(old(store), p, c), DocAt(old(store), p, c, id);
              && (r == Err(Invalid) <==>
                    && (pre.Some? ==> was.Some? && Lets(pre, Ctx(cs, OptData(was), Some(data))))
                    && !Shapes.Conforms(e, cs, data))
              && (r.Ok? ==> was.Some? && Shapes.Conforms(e, cs, data) && Shapes.Conforms(e, cs, r.value.data))
              && (r.Ok? ==> Embed.ApplyEmbeddings(e, embedder, cs, data, None).Done?
                            && r.value.data == Embed.ApplyEmbeddings(e, embedder, cs, data, None).data)
              && (disk.Works? && was.Some? && Filling.NothingDue(e, embedder, cs, data, None) ==>
                    && (r.Ok? <==> Shapes.Conforms(e, cs, data) && Lets(pre, Ctx(cs, OptData(was), Some(data))))
                    && (pre.None? ==> (r.Ok? <==> Shapes.Conforms(e, cs, data)))
                    && (r.Ok? ==> r.value == Document(id, was.value.createdAt, time, data)))
    {
      hide EffectOf, Unposted, EntriesAgree, Embed.ApplyEmbeddings, Validation.SchemaAccepts, StatsFollow;
      hide Shapes.Conforms, Filling.NothingDue;
      var cs, was := CollectionAt(store, p, c), DocAt(store, p, c, id);
      AcceptedMeans(cs, OptData(was), data, pre);
      if pre.Some? {
        if was.None? { return Err(NotFound); }
        if !Lets(pre, Ctx(cs, OptData(was), Some(data))) { return Err(Forbidden); }
      }
      if !Validation.SchemaAccepts(e, cs, data) { return Err(Invalid); }
      var out := Embed.ApplyEmbeddings(e, embedder, cs, data, None);
      if out.Failed? { return Err(Unavailable); }
      if was.None? { return Err(NotFound); }
      if !Lets(pre, Ctx(cs, OptData(was), Some(out.data))) { return Err(Forbidden); }
      if !Validation.SchemaAccepts(e, cs, out.data) { return Err(Invalid); }
      var doc := Document(id, was.value.createdAt, time, out.data);
      StoredIds(e, store, p, c, id);
      var batch := StoreBatch(cs, p, c, was, doc);
      ghost var st, cache := store, vecCache;
      var written := CommitWrite(batch, cs, p, c, id, was, Some(doc), disk);
      if !disk.RefusesBatch? {
        EmbeddingFollows(e, embedder, cs, data, None);
        FollowsSelf(e, cs, out.data);
        ghost var commit :=
          WriteCommit(0, Replace(p, c, id, data, Judgement(pre)), id, was, doc.data, Some(doc), SchemaAt(st, p));
        assert AtomicStep(e, st, commit, store);
        AfterCommit(e, st, commit, store, cache, vecCache);
      }
      return if written.Ok? then Ok(doc) else Err(written.error);
    }

    /** What other writers leave behind while a patch holds no lock: some other agreeing store, and a cache
        their invalidations emptied. */
    method Meanwhile(others: Store)
      requires EntriesAgree(e, others)
      modifies this`store, this`vecCache
      ensures Valid() && store == others
    {
      store, vecCache := others, map[];
    }

    /** What an attempt embeds from its unlocked read, or `Failed` if it returns before. */
    function EarlyOutcome(before: Store, p: Bytes, c: Bytes, id: Bytes, updates: Data, pre: Precondition,
                          attempt: nat): Embed.Outcome
    {
      var advisory := CollectionAt(before, p, c);
      match DocAt(before, p, c, id)
      case None => Embed.Failed
      case Some(early) =>
        var merged := Embed.Merge(early.data, updates);
        if !Lets(pre, Ctx(advisory, Some(early.data), Some(merged))) then Embed.Failed
        else if attempt == EMBED_RETRIES then Embed.Done(merged, false)
        else Embed.ApplyEmbeddings(e, embedder, advisory, merged, Some(Embed.PatchContext(early.data, updates)))
    }

    /** The attempt's vector was computed from a document that has changed by the time it holds the locks. */
    predicate Wasted(before: Store, at: Store, p: Bytes, c: Bytes, id: Bytes, updates: Data, pre: Precondition,
                     attempt: nat)
    {
      var out := EarlyOutcome(before, p, c, id, updates, pre, attempt);
      && out.Done? && out.embedded && DocAt(before, p, c, id).Some? && DocAt(at, p, c, id).Some?
      && DocAt(at, p, c, id).value.data != DocAt(before, p, c, id).value.data
    }

    /** The document an attempt stores, if it gets that far: the merge with what is stored by then, judged under
        the schema of that moment, with the vector embedded before or, on the last attempt, after. */
    function PatchStores(before: Store, at: Store, p: Bytes, c: Bytes, id: Bytes, updates: Data, pre: Precondition,
                         time: nat, attempt: nat): Option<Document>
    {
      var out, cs := EarlyOutcome(before, p, c, id, updates, pre, attempt), CollectionAt(at, p, c);
      match DocAt(at, p, c, id)
      case None => None
      case Some(existing) =>
        if out.Failed? then None
        else
          var judged := if out.embedded then out.data else Embed.Merge(existing.data, updates);
          var last := if attempt < EMBED_RETRIES then Embed.Done(judged, false)
                      else Embed.ApplyEmbeddings(e, embedder, cs, judged,
                                                 Some(Embed.PatchContext(existing.data, updates)));
          if (&& Lets(pre, Ctx(cs, Some(existing.data), Some(judged))) && Validation.SchemaAccepts(e, cs, judged)
              && last.Done?)
          then Some(existing.(data := last.data, updatedAt := time)) else None
    }

    /** What a patch makes of the document `from` under one moment's schema. */
    function PatchOf(at: Store, p: Bytes, c: Bytes, from: Data, updates: Data): Embed.Outcome {
      Embed.ApplyEmbeddings(e, embedder, CollectionAt(at, p, c), Embed.Merge(from, updates),
                            Some(Embed.PatchContext(from, updates)))
    }

    /** A patch that is not wasted stores the embedding of the merge with the document it finds, whenever that is the
        one it embedded from and on its last attempt always; otherwise it had embedded nothing and stores the plain
        merge. */
    lemma PatchStoresEmbedded(before: Store, at: Store, p: Bytes, c: Bytes, id: Bytes, updates: Data, pre: Precondition,
                              time: nat, attempt: nat)
      ensures var stored := PatchStores(before, at, p, c, id, updates, pre, time, attempt);
              stored.Some? && !Wasted(before, at, p, c, id, updates, pre, attempt) && attempt <= 2 ==>
                && DocAt(before, p, c, id).Some? && DocAt(at, p, c, id).Some?
                && var early, found := DocAt(before, p, c, id).value.data, DocAt(at, p, c, id).value.data;
                   var seen := PatchOf(if attempt == 2 then at else before, p, c, if attempt == 2 then found else early,
                                       updates);
                   && seen.Done?
                   && (attempt == 2 || seen.embedded ==> stored.value.data == seen.data)
                   && (attempt < 2 && seen.embedded ==> early == found)
                   && (attempt < 2 && !seen.embedded ==> stored.value.data == Embed.Merge(found, updates))
    {
      hide Embed.ApplyEmbeddings, Validation.SchemaAccepts;
    }

    /** Whatever a patch stores has the shapes declared by then; and without a provider it stores the merge exactly if
        that has them and the rule lets it through, both by what it read early and by what it finds. */
    lemma PatchStoresMeans(before: Store, at: Store, p: Bytes, c: Bytes, id: Bytes, updates: Data, pre: Precondition,
                           time: nat, attempt: nat)
      ensures var cs, stored := CollectionAt(at, p, c), PatchStores(before, at, p, c, id, updates, pre, time, attempt);
              && (stored.Some? && !Wasted(before, at, p, c, id, updates, pre, attempt) ==>
                    Shapes.Conforms(e, cs, stored.value.data))
              && (embedder.None? ==> !Wasted(before, at, p, c, id, updates, pre, attempt))
              && (embedder.None? && DocAt(before, p, c, id).Some? && DocAt(at, p, c, id).Some? ==>
                    var early, found := DocAt(before, p, c, id).value.data, DocAt(at, p, c, id).value;
                    var merged := Embed.Merge(found.data, updates);
                    && (stored.Some? <==>
                          && Shapes.Conforms(e, cs, merged)
                          && Lets(pre, Ctx(CollectionAt(before, p, c), Some(early), Some(Embed.Merge(early, updates))))
                          && Lets(pre, Ctx(cs, Some(found.data), Some(merged))))
                    && (stored.Some? ==> stored.value == found.(data := merged, updatedAt := time)))
    {
      hide Embed.ApplyEmbeddings, Shapes.Conforms, Validation.SchemaAccepts;
      var cs, out := CollectionAt(at, p, c), EarlyOutcome(before, p, c, id, updates, pre, attempt);
      if DocAt(at, p, c, id).Some? && out.Done? {
        var found := DocAt(at, p, c, id).value;
        var judged := if out.embedded then out.data else Embed.Merge(found.data, updates);
        var ctx := Some(Embed.PatchContext(found.data, updates));
        Shapes.AcceptsIsConforms(e, cs, judged);
        if Shapes.Conforms(e, cs, judged) && Embed.ApplyEmbeddings(e, embedder, cs, judged, ctx).Done? {
          Filling.FillingConforms(e, embedder, cs, judged, ctx);
        }
        if embedder.None? { Filling.NothingToFillWith(e, embedder, cs, judged, ctx); }
      }
      if embedder.None? && DocAt(before, p, c, id).Some? {
        var early := DocAt(before, p, c, id).value.data;
        Filling.NothingToFillWith(e, embedder, CollectionAt(before, p, c), Embed.Merge(early, updates),
                                  Some(Embed.PatchContext(early, updates)));
      }
    }

    /** The store attempt `n` reads before it takes its locks. */
    ghost function FoundBy(first: Store, others: nat -> Store, n: nat): Store {
      if n == 0 then first else others(n - 1)
    }

    lemma EarlyFailed(before: Store, at: Store, p: Bytes, c: Bytes, id: Bytes, updates: Data, pre: Precondition,
                      time: nat, attempt: nat)
      requires EarlyOutcome(before, p, c, id, updates, pre, attempt).Failed?
      ensures PatchStores(before, at, p, c, id, updates, pre, time, attempt).None?
    {
    }

    /** The unlocked half of an attempt: read, ask the rule, embed. */
    method PrepareAttempt(p: Bytes, c: Bytes, id: Bytes, updates: Data, pre: Precondition,
                          attempt: nat) returns (early: Option<Document>, out: Result<Embedding>)
      ensures early == DocAt(store, p, c, id) && (out.Ok? ==> early.Some?)
      ensures var o := EarlyOutcome(store, p, c, id, updates, pre, attempt);
              && (out.Ok? <==> o.Done?) && (out.Ok? ==> out.value == Embedding(o.data, o.embedded))
              && (out.Err? ==> out.error != NotDurable)
    {
      hide Embed.ApplyEmbeddings;
      var advisory := CollectionAt(store, p, c);
      early := DocAt(store, p, c, id);
      if early.None? { return early, Err(NotFound); }
      var merged := Embed.Merge(early.value.data, updates);
      if !Lets(pre, Ctx(advisory, OptData(early), Some(merged))) { return early, Err(Forbidden); }
      if attempt == EMBED_RETRIES { return early, Ok(Embedding(merged, false)); }
      var done := Embed.ApplyEmbeddings(e, embedder, advisory, merged,
                                        Some(Embed.PatchContext(early.value.data, updates)));
      if done.Failed? { return early, Err(Unavailable); }
      return early, Ok(Embedding(done.data, done.embedded));
    }

    /** An embedded patch is the merge with what was read early, apart from vectors. */
    lemma EarlyFollows(before: Store, p: Bytes, c: Bytes, id: Bytes, updates: Data, pre: Precondition, attempt: nat)
      requires DocAt(before, p, c, id).Some?
      ensures var out := EarlyOutcome(before, p, c, id, updates, pre, attempt);
              out.Done? ==>
                && Follows(e, CollectionAt(before, p, c), Embed.Merge(DocAt(before, p, c, id).value.data, updates),
                           out.data)
    {
      hide Embed.ApplyEmbeddings, Follows;
      var early := DocAt(before, p, c, id).value;
      var merged := Embed.Merge(early.data, updates);
      FollowsSelf(e, CollectionAt(before, p, c), merged);
      if EarlyOutcome(before, p, c, id, updates, pre, attempt).Done? && attempt != EMBED_RETRIES {
        EmbeddingFollows(e, embedder, CollectionAt(before, p, c), merged,
                         Some(Embed.PatchContext(early.data, updates)));
      }
    }

    /** Commit a judged patch. */
    method StorePatched(ghost seen: Option<ProjectSchema>, p: Bytes, c: Bytes, id: Bytes, updates: Data,
                        pre: Precondition, existing: Option<Document>, ghost judged: Data, doc: Document,
                        disk: Disk) returns (r: Result<Document>, ghost commit: Commit)
      requires Valid() && existing.Some? && existing == DocAt(store, p, c, id)
      requires doc == existing.value.(data := doc.data, updatedAt := doc.updatedAt)
      requires var cs := CollectionAt(store, p, c);
               && Lets(pre, Ctx(cs, OptData(existing), Some(judged))) && Validation.SchemaAccepts(e, cs, judged)
               && Follows(e, Collection(seen, c), Embed.Merge(existing.value.data, updates), judged)
               && Follows(e, cs, judged, doc.data)
               && (doc.data == judged
                   || (&& judged == Embed.Merge(existing.value.data, updates)
                       && FilledLate(e, cs, existing.value.data, updates, judged, doc.data)))
      modifies this
      ensures Valid()
      ensures disk.RefusesBatch? ==> r == Err(Unavailable) && store == old(store)
      ensures !disk.RefusesBatch? ==>
                && r == (if disk.Works? then Ok(doc) else Err(NotDurable))
                && AtomicStep(e, old(store), commit, store)
                && commit.WriteCommit? && commit.req == Patch(p, c, id, updates, Judgement(pre))
                && commit.now == Some(doc)
                && StatsFollow(e, old(store), store, p, c, true)
    {
      hide EffectOf, Unposted, EntriesAgree, Validation.SchemaAccepts, AtomicStep, StatsFollow, Follows;
      ghost var st, cache := store, vecCache;
      var cs := CollectionAt(store, p, c);
      StoredIds(e, st, p, c, id);
      var batch := StoreBatch(cs, p, c, existing, doc);
      var written := CommitWrite(batch, cs, p, c, id, existing, Some(doc), disk);
      commit := WriteCommit(0, Patch(p, c, id, updates, Judgement(pre)), id, existing, judged, Some(doc), seen);
      if !disk.RefusesBatch? {
        PatchIsAtomic(e, st, commit, store, pre);
        AfterCommit(e, st, commit, store, cache, vecCache);
      }
      r := if written.Ok? then Ok(doc) else Err(written.error);
    }

    /** The locked half: what is stored by now is merged, judged, on the last attempt embedded, and committed. */
    method FinishAttempt(ghost before: Store, p: Bytes, c: Bytes, id: Bytes, updates: Data, pre: Precondition,
                         time: nat,
                         early: Option<Document>, prepared: Embedding, attempt: nat, disk: Disk)
      returns (r: Result<Document>, again: bool, ghost commit: Commit)
      requires Valid() && early == DocAt(before, p, c, id) && early.Some? && attempt <= EMBED_RETRIES
      requires EarlyOutcome(before, p, c, id, updates, pre, attempt) == Embed.Done(prepared.data, prepared.embedded)
      modifies this
      ensures Valid()
      ensures again <==> Wasted(before, old(store), p, c, id, updates, pre, attempt)
      ensures again ==> store == old(store) && attempt < EMBED_RETRIES
      ensures !again ==>
                var stored := PatchStores(before, old(store), p, c, id, updates, pre, time, attempt);
                if disk.RefusesBatch? || stored.None? then
                  r.Err? && r != Err(NotDurable) && store == old(store)
                else
                  && r == (if disk.Works? then Ok(stored.value) else Err(NotDurable))
                  && AtomicStep(e, old(store), commit, store)
                  && commit.WriteCommit? && commit.req == Patch(p, c, id, updates, Judgement(pre))
                  && commit.now == stored
                  && StatsFollow(e, old(store), store, p, c, true)
    {
      hide EntriesAgree, Embed.ApplyEmbeddings, Validation.SchemaAccepts, AtomicStep, StatsFollow, Follows;
      r, again, commit := Err(NotFound), false, PushCommit(0, p, ProjectSchema(map[]), _ => true);
      var cs, existing := CollectionAt(store, p, c), DocAt(store, p, c, id);
      if existing.None? { return; }
      if prepared.embedded && existing.value.data != early.value.data {
        again := true;
        return;
      }
      EarlyFollows(before, p, c, id, updates, pre, attempt);
      var judged := if prepared.embedded then prepared.data else Embed.Merge(existing.value.data, updates);
      if !Lets(pre, Ctx(cs, OptData(existing), Some(judged))) { r := Err(Forbidden); return; }
      if !Validation.SchemaAccepts(e, cs, judged) { r := Err(Invalid); return; }
      var stored := judged;
      FollowsSelf(e, cs, judged);
      FollowsSelf(e, CollectionAt(before, p, c), judged);
      if attempt == EMBED_RETRIES {
        var ctx := Some(Embed.PatchContext(existing.value.data, updates));
        var out := Embed.ApplyEmbeddings(e, embedder, cs, judged, ctx);
        if out.Failed? { r := Err(Unavailable); return; }
        EmbeddingFollows(e, embedder, cs, judged, ctx);
        stored := out.data;
        assert EmbedsTo(e, embedder, cs, judged, ctx, stored);
      }
      var doc := existing.value.(data := stored, updatedAt := time);
      r, commit := StorePatched(SchemaAt(before, p), p, c, id, updates, pre, existing, judged, doc, disk);
    }

    /** Patch: embed from an unlocked read, then merge with what is stored by then. A vector computed from a
        document that has since changed is thrown away and the attempt repeated, at most twice; the third
        attempt embeds under the locks. `others(n)` is what other writers have made of the store by the time
        attempt n takes its locks. Every attempt but the last was wasted, and the last one's outcome decides. */
    method PatchChecked(p: Bytes, c: Bytes, id: Bytes, updates: Data, pre: Precondition, time: nat,
                        others: nat -> Store, disk: Disk)
      returns (r: Result<Document>, attempt: nat, ghost commit: Commit)
      requires Valid() && forall n: nat :: EntriesAgree(e, others(n))
      modifies this
      ensures Valid() && attempt <= EMBED_RETRIES
      ensures forall n | 0 <= n < attempt ::
                Wasted(FoundBy(old(store), others, n), others(n), p, c, id, updates, pre, n)
      ensures var before := FoundBy(old(store), others, attempt);
              var stored := PatchStores(before, others(attempt), p, c, id, updates, pre, time, attempt);
              if disk.RefusesBatch? || stored.None? then
                r.Err? && r != Err(NotDurable) && (store == others(attempt) || store == before)
              else
                && r == (if disk.Works? then Ok(stored.value) else Err(NotDurable))
                && !Wasted(before, others(attempt), p, c, id, updates, pre, attempt)
                && AtomicStep(e, others(attempt), commit, store)
                && commit.WriteCommit? && commit.req == Patch(p, c, id, updates, Judgement(pre)) && commit.now == stored
                && StatsFollow(e, others(attempt), store, p, c, true)
      ensures r.Ok? ==>
                var before := FoundBy(old(store), others, attempt);
                && DocAt(before, p, c, id).Some? && DocAt(others(attempt), p, c, id).Some?
                && var early, found := DocAt(before, p, c, id).value.data, DocAt(others(attempt), p, c, id).value.data;
                   var seen := PatchOf(if attempt == 2 then others(attempt) else before, p, c,
                                       if attempt == 2 then found else early, updates);
                   && seen.Done?
                   && (attempt == 2 || seen.embedded ==> r.value.data == seen.data)
                   && (attempt < 2 && seen.embedded ==> early == found)
                   && (attempt < 2 && !seen.embedded ==> r.value.data == Embed.Merge(found, updates))
      ensures var cs, early, found := CollectionAt(others(attempt), p, c), DocAt(old(store), p, c, id),
                                      DocAt(others(attempt), p, c, id);
              && (r.Ok? ==> Shapes.Conforms(e, cs, r.value.data))
              && (embedder.None? ==> attempt == 0)
              && (embedder.None? && disk.Works? && early.Some? && found.Some? ==>
                    var merged := Embed.Merge(found.value.data, updates);
                    && (r.Ok? <==>
                          && Shapes.Conforms(e, cs, merged)
                          && Lets(pre, Ctx(CollectionAt(old(store), p, c), Some(early.value.data),
                                           Some(Embed.Merge(early.value.data, updates))))
                          && Lets(pre, Ctx(cs, Some(found.value.data), Some(merged))))
                    && (pre.None? ==> (r.Ok? <==> Shapes.Conforms(e, cs, merged)))
                    && (r.Ok? ==> r.value == found.value.(data := merged, updatedAt := time)))
    {
      hide EntriesAgree, EarlyOutcome, PatchStores, Wasted, AtomicStep, StatsFollow, Shapes.Conforms, PatchOf;
      r, attempt, commit := Err(NotFound), 0, PushCommit(0, p, ProjectSchema(map[]), _ => true);
      while attempt <= EMBED_RETRIES
        invariant Valid() && attempt <= EMBED_RETRIES
        invariant store == FoundBy(old(store), others, attempt) && (embedder.None? ==> attempt == 0)
        invariant forall n | 0 <= n < attempt ::
                    Wasted(FoundBy(old(store), others, n), others(n), p, c, id, updates, pre, n)
        decreases EMBED_RETRIES - attempt
      {
        ghost var before := store;
        PatchStoresMeans(before, others(attempt), p, c, id, updates, pre, time, attempt);
        PatchStoresEmbedded(before, others(attempt), p, c, id, updates, pre, time, attempt);
        var early, out := PrepareAttempt(p, c, id, updates, pre, attempt);
        if out.Err? {
          EarlyFailed(before, others(attempt), p, c, id, updates, pre, time, attempt);
          return Err(out.error), attempt, commit;
        }
        Meanwhile(others(attempt));
        var again;
        r, again, commit := FinishAttempt(before, p, c, id, updates, pre, time, early, out.value, attempt, disk);
        assert again <==> Wasted(before, others(attempt), p, c, id, updates, pre, attempt);
        if !again { return r, attempt, commit; }
        assert before == FoundBy(old(store), others, attempt);
        attempt := attempt + 1;
      }
      // The last attempt embeds under the locks, so it returns.
      assert false;
    }

    /** Delete: the document and everything it owns. */
    method DeleteChecked(p: Bytes, c: Bytes, id: Bytes, pre: Precondition, disk: Disk) returns (r: Result<()>)
      requires Valid()
      modifies this
      ensures Valid()
      ensures var cs, was := CollectionAt(old(store), p, c), DocAt(old(store), p, c, id);
              && (r == Err(NotFound) <==> was.None?)
              && (r == Err(Forbidden) <==> was.Some? && pre.Some? && !pre.value(Ctx(cs, OptData(was), None)))
              && if disk.RefusesBatch? || was.None? || !Lets(pre, Ctx(cs, OptData(was), None)) then
                   r.Err? && r != Err(NotDurable) && store == old(store) && vecCache == old(vecCache)
                 else
                   && r == (if disk.Works? then Ok(()) else Err(NotDurable))
                   && AtomicStep(e, old(store),
                                 WriteCommit(0, Remove(p, c, id, Judgement(pre)), id, was, map[], None, None), store)
                   && StatsFollow(e, old(store), store, p, c, true)
    {
      hide EffectOf, EntriesAgree, IdxEffect, VecEffect, StatsFollow;
      var cs, was := CollectionAt(store, p, c), DocAt(store, p, c, id);
      if was.None? { return Err(NotFound); }
      if !Lets(pre, Ctx(cs, OptData(was), None)) { return Err(Forbidden); }
      StoredIds(e, store, p, c, id);
      var batch := new WriteBatch();
      batch.Delete(DocKey(p, c, id));
      ApplyIndexOps(batch, e, p, c, cs, was, None);
      ApplyVecOps(batch, e, p, c, cs, id, None);
      ghost var st, cache := store, vecCache;
      r := CommitWrite(batch, cs, p, c, id, was, None, disk);
      if !disk.RefusesBatch? {
        ghost var commit := WriteCommit(0, Remove(p, c, id, Judgement(pre)), id, was, map[], None, None);
        assert AtomicStep(e, st, commit, store);
        AfterCommit(e, st, commit, store, cache, vecCache);
      }
    }

    /** Push: rebuild every index of the project in one batch, and wait for it to be durable. When that wait fails
        the push returns at once: the rebuilt store is there and the project's cached sets are not dropped. */
    method PutSchemaChecked(p: Bytes, schema: ProjectSchema, spre: Option<Option<ProjectSchema> -> bool>,
                            disk: Disk) returns (r: Result<()>)
      requires Valid() && WellNamed(schema)
      modifies this
      ensures r != Err(NotDurable) ==> Valid()
      ensures r == Err(Forbidden) <==> !(spre.Some? ==> spre.value(SchemaAt(old(store), p)))
      ensures if r == Err(Forbidden) || disk.RefusesBatch? then
                r.Err? && r != Err(NotDurable) && store == old(store) && vecCache == old(vecCache)
              else
                && r == (if disk.Works? then Ok(()) else Err(NotDurable))
                && store == AfterPush(e, old(store), p, schema) && EntriesAgree(e, store)
                && (forall c, name :: StatsCurrent(e, store, p, c, name))
                && (forall p', c, name | StatsCurrent(e, old(store), p', c, name) ::
                      StatsCurrent(e, store, p', c, name))
                && vecCache == if disk.Works? then map k | k in old(vecCache) && k.p != p ::
                     old(vecCache)[k] else old(vecCache)
    {
      hide EffectOf, AfterPush, EntriesAgree, WellNamed, StatsCurrent;
      if spre.Some? && !spre.value(SchemaAt(store, p)) { return Err(Forbidden); }
      EntriesUnfold(e, store, p);
      var batch := Rebuild.BuildPush(e, store, p, schema);
      ghost var st, cache := store, vecCache;
      PushKeepsEntries(e, store, p, schema);
      if disk.RefusesBatch? { return Err(Unavailable); }
      store := Stores.Apply(store, EffectOf(batch.ops));
      ghost var commit := PushCommit(0, p, schema, (_: Option<ProjectSchema>) => true);
      forall p', c, name | p' == p || StatsCurrent(e, st, p', c, name) ensures StatsCurrent(e, store, p', c, name) {
        StepKeepsStats(e, st, commit, store, p', c, name);
      }
      if disk.FailsFlush? { return Err(NotDurable); }
      InvalidateVectors(p, None);
      CacheAfter(e, st, commit, store, cache, vecCache);
      return Ok(());
    }
  }

  /** A write to a collection keeps right statistics right, those of its own collection too unless it took a
      document out of 2^32 or more. */
  ghost predicate StatsFollow(e: Env, before: Store, after: Store, p: Bytes, c: Bytes, taken: bool) {
    forall p', c', name ::
      StatsCurrent(e, before, p', c', name) && (taken && p' == p && c' == c ==> FewDocs(before, p, c)) ==>
        StatsCurrent(e, after, p', c', name)
  }

  /** The batch before its postings and statistics. */
  function Unposted(e: Env, p: Bytes, c: Bytes, cs: Option<CollectionSchema>, id: Bytes, was: Option<Document>,
                    now: Option<Document>): Effect {
    if cs.None? then DocEffect(p, c, id, now)
    else
      (DocEffect(p, c, id, now) + IdxEffect(e, p, c, cs.value.indexes, was, now)
       + VecEffect(e, p, c, cs.value.vectorIndexes, id, now))
  }

  lemma PatchIsAtomic(e: Env, st: Store, commit: Commit, after: Store, pre: Precondition)
    requires commit.WriteCommit? && commit.req.Patch? && commit.req.pre == Judgement(pre) && commit.was.Some?
    requires commit.now.Some?
    requires commit.id == commit.req.id && commit.was == DocAt(st, commit.req.p, commit.req.c, commit.id)
    requires commit.was.value.id == commit.id == commit.now.value.id
    requires commit.now.value.createdAt == commit.was.value.createdAt
    requires var cs := CollectionAt(st, commit.req.p, commit.req.c);
             && Lets(pre, Ctx(cs, OptData(commit.was), Some(commit.judged)))
             && Validation.SchemaAccepts(e, cs, commit.judged)
             && (commit.now.value.data == commit.judged
                 || (&& commit.judged == Embed.Merge(commit.was.value.data, commit.req.updates)
                     && FilledLate(e, cs, commit.was.value.data, commit.req.updates, commit.judged,
                                   commit.now.value.data)))
             && Follows(e, Collection(commit.advisory, commit.req.c),
                        Embed.Merge(commit.was.value.data, commit.req.updates), commit.judged)
             && Follows(e, cs, commit.judged, commit.now.value.data)
    requires after == AfterWrite(e, st, commit.req.p, commit.req.c, commit.id, commit.was, commit.now)
    ensures AtomicStep(e, st, commit, after)
  {
    hide Validation.SchemaAccepts, Follows, AfterWrite;
  }

  lemma StoredIds(e: Env, st: Store, p: Bytes, c: Bytes, id: Bytes)
    requires EntriesAgree(e, st)
    ensures DocAt(st, p, c, id).Some? ==> DocAt(st, p, c, id).value.id == id
  {
    TypedDoc(st, p, c, id);
  }

  /** Sets of collections a commit does not touch still are what a scan answers. */
  lemma CacheAfter(e: Env, before: Store, commit: Commit, after: Store, cache: map<CacheKey, VectorSet>,
                   kept: map<CacheKey, VectorSet>)
    requires AtomicStep(e, before, commit, after) && Typed(before)
    requires forall k | k in cache :: IsScan(before, k, cache[k])
    requires forall k | k in kept :: k in cache && kept[k] == cache[k] && !Touches(commit, k)
    ensures forall k | k in kept :: IsScan(after, k, kept[k])
  {
    hide AtomicStep, VectorOf;
    forall k, id | k in kept ensures Entry(kept[k], id) == VectorOf(after, k, id) {
      UntouchedVector(e, before, commit, after, k, id);
      assert IsScan(before, k, cache[k]);
    }
  }

  lemma AfterCommit(e: Env, before: Store, commit: Commit, after: Store, cache: map<CacheKey, VectorSet>,
                    kept: map<CacheKey, VectorSet>)
    requires AtomicStep(e, before, commit, after) && commit.WriteCommit? && EntriesAgree(e, before)
    requires forall k | k in cache :: IsScan(before, k, cache[k])
    requires forall k | k in kept ::
               k in cache && kept[k] == cache[k]
               && !(k.p == commit.req.p && IsWriteReq(commit.req) && k.c == commit.req.c)
    ensures EntriesAgree(e, after) && forall k | k in kept :: IsScan(after, k, kept[k])
    ensures StatsFollow(e, before, after, commit.req.p, commit.req.c, commit.was.Some?)
  {
    hide AfterWrite, EntriesAgree, FewDocs, IsScan, WriteOk, StatsCurrent;
    EntriesUnfold(e, before, commit.req.p);
    StepKeepsEntries(e, before, commit, after);
    CacheAfter(e, before, commit, after, cache, kept);
    forall p, c, name
      | StatsCurrent(e, before, p, c, name) && (commit.was.Some? && p == commit.req.p && c == commit.req.c ==>
                                                  FewDocs(before, p, c))
      ensures StatsCurrent(e, after, p, c, name)
    {
      StepKeepsStats(e, before, commit, after, p, c, name);
    }
  }
}
