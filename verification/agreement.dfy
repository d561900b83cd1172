/** Index agreement is kept by every document write and re-established by every schema push. */
module Agreement {
  import opened ByteStrings
  import opened Values
  import opened Keys
  import opened Fts
  import opened Stores

  lemma ApplyLook(st: Store, eff: Effect, k: Key)
    ensures Look(Apply(st, eff), k) == if k in eff then eff[k] else Look(st, k)
  {
  }

  // ---- Document writes ----

  lemma TouchedConcerns(e: Env, p: Bytes, c: Bytes, cs: CollectionSchema, id: Bytes, was: Option<Document>,
                        now: Option<Document>, k: Key)
    requires was.Some? ==> was.value.id == id
    requires now.Some? ==> now.value.id == id
    requires k in Touched(e, p, c, cs, id, was, now)
    ensures Concerns(k, p, c, id)
  {
  }

  /** What the batch of a write does to each kind of key. */
  lemma WriteEffectAt(e: Env, st: Store, p: Bytes, c: Bytes, id: Bytes, was: Option<Document>, now: Option<Document>,
                      k: Key)
    requires was.Some? ==> was.value.id == id
    requires now.Some? ==> now.value.id == id
    requires CollectionAt(st, p, c).Some? ==> UniqueNames(CollectionAt(st, p, c).value)
    ensures var eff, cs := WriteEffect(e, st, p, c, id, was, now), CollectionAt(st, p, c);
            && (k.MetaKey? ==> k !in eff)
            && (k.DocKey? ==> (k in eff <==> k == DocKey(p, c, id)))
            && (k == DocKey(p, c, id) ==> eff[k] == if now.Some? then Some(DocVal(now.value)) else None)
            && (PerDocument(k) ==> (k in eff <==> cs.Some? && k in Touched(e, p, c, cs.value, id, was, now)))
            && (PerDocument(k) && k in eff ==> eff[k] == OptEntry(e, cs.value, now, k))
            && (k.StatsKey? && k in eff ==> cs.Some? && k.p == p && k.c == c)
            && (k.StatsKey? && k.p == p && k.c == c && cs.Some? ==>
                  match FindSearch(cs.value.searchIndexes, k.name)
                  case None => k !in eff
                  case Some(index) =>
                    k in eff && eff[k] == Some(StatsVal(StepStats(e, index, StatsAt(st, p, c, k.name), was, now))))
  {
    var cs := CollectionAt(st, p, c);
    if cs.Some? {
      if k.StatsKey? {
        WriteStatsAt(e, st, p, c, cs.value, id, was, now, k);
      } else {
        WriteOthersAt(e, st, p, c, cs.value, id, was, now, k);
      }
    }
  }

  lemma WriteStatsAt(e: Env, st: Store, p: Bytes, c: Bytes, cs: CollectionSchema, id: Bytes, was: Option<Document>,
                     now: Option<Document>, k: Key)
    requires was.Some? ==> was.value.id == id
    requires now.Some? ==> now.value.id == id
    requires CollectionAt(st, p, c) == Some(cs) && UniqueNames(cs) && k.StatsKey?
    ensures var eff := WriteEffect(e, st, p, c, id, was, now);
            && (k in eff ==> k.p == p && k.c == c)
            && (k.p == p && k.c == c ==>
                  match FindSearch(cs.searchIndexes, k.name)
                  case None => k !in eff
                  case Some(index) =>
                    k in eff && eff[k] == Some(StatsVal(StepStats(e, index, StatsAt(st, p, c, k.name), was, now))))
  {
    hide StatsEffect, StepStats, OwnedKeys, VecKeys;
    var defs := cs.searchIndexes;
    var read := ReadStats(st, p, c, defs);
    StatsEffectKeys(e, p, c, defs, read, was, now, k);
    if k in Touched(e, p, c, cs, id, was, now) { TouchedConcerns(e, p, c, cs, id, was, now, k); }
    if k.p == p && k.c == c {
      FoundSearch(defs, k.name);
      if i :| 0 <= i < |defs| && defs[i].name == k.name {
        FindsSearch(defs, i);
        assert read[i] == StatsAt(st, p, c, k.name);
      }
    }
  }

  lemma WriteOthersAt(e: Env, st: Store, p: Bytes, c: Bytes, cs: CollectionSchema, id: Bytes, was: Option<Document>,
                      now: Option<Document>, k: Key)
    requires was.Some? ==> was.value.id == id
    requires now.Some? ==> now.value.id == id
    requires CollectionAt(st, p, c) == Some(cs) && UniqueNames(cs) && !k.StatsKey?
    ensures var eff := WriteEffect(e, st, p, c, id, was, now);
            && (k.MetaKey? ==> k !in eff)
            && (k.DocKey? ==> (k in eff <==> k == DocKey(p, c, id)))
            && (k == DocKey(p, c, id) ==> eff[k] == if now.Some? then Some(DocVal(now.value)) else None)
            && (PerDocument(k) ==> (k in eff <==> k in Touched(e, p, c, cs, id, was, now)))
            && (PerDocument(k) && k in eff ==> eff[k] == OptEntry(e, cs, now, k))
  {
    hide StatsEffect, OwnedKeys, VecKeys, EntryAt;
    StatsEffectKeys(e, p, c, cs.searchIndexes, ReadStats(st, p, c, cs.searchIndexes), was, now, k);
    if k in Touched(e, p, c, cs, id, was, now) { TouchedConcerns(e, p, c, cs, id, was, now, k); }
  }

  /** A typed store's schema passed its name checks. */
  lemma TypedSchema(st: Store, p: Bytes, c: Bytes)
    requires Typed(st)
    ensures CollectionAt(st, p, c).Some? ==> UniqueNames(CollectionAt(st, p, c).value)
  {
  }

  lemma TypedDoc(st: Store, p: Bytes, c: Bytes, id: Bytes)
    requires Typed(st)
    ensures DocAt(st, p, c, id).Some? ==> DocAt(st, p, c, id).value.id == id
  {
  }

  ghost predicate IsWrite(st: Store, p: Bytes, c: Bytes, id: Bytes, was: Option<Document>, now: Option<Document>) {
    was == DocAt(st, p, c, id) && (now.Some? ==> now.value.id == id)
  }

  function AfterWrite(e: Env, st: Store, p: Bytes, c: Bytes, id: Bytes, was: Option<Document>,
                      now: Option<Document>): Store {
    Apply(st, WriteEffect(e, st, p, c, id, was, now))
  }

  lemma WriteDocs(e: Env, st: Store, p: Bytes, c: Bytes, id: Bytes, was: Option<Document>, now: Option<Document>)
    requires Typed(st) && IsWrite(st, p, c, id, was, now)
    ensures var after := AfterWrite(e, st, p, c, id, was, now);
            && Typed(after)
            && (forall p' :: Look(after, MetaKey(p')) == Look(st, MetaKey(p')))
            && (forall p', c', id' :: DocAt(after, p', c', id') ==
                  if p' == p && c' == c && id' == id then now else DocAt(st, p', c', id'))
  {
    var eff := WriteEffect(e, st, p, c, id, was, now);
    TypedSchema(st, p, c);
    TypedDoc(st, p, c, id);
    forall k: Key ensures Look(Apply(st, eff), k) == (if k in eff then eff[k] else Look(st, k))
      && (k.MetaKey? ==> k !in eff)
      && (k.DocKey? ==> (k in eff <==> k == DocKey(p, c, id)))
      && (k == DocKey(p, c, id) ==> eff[k] == if now.Some? then Some(DocVal(now.value)) else None)
    {
      ApplyLook(st, eff, k);
      WriteEffectAt(e, st, p, c, id, was, now, k);
    }
  }

  lemma UntouchedHasNone(e: Env, p: Bytes, c: Bytes, cs: CollectionSchema, id: Bytes, was: Option<Document>,
                         now: Option<Document>, k: Key)
    requires was.Some? ==> was.value.id == id
    requires now.Some? ==> now.value.id == id
    requires Concerns(k, p, c, id) && k !in Touched(e, p, c, cs, id, was, now)
    ensures OptEntry(e, cs, was, k) == None && OptEntry(e, cs, now, k) == None
  {
    hide EntryAt, OwnedKeys, VecKeys;
    if OptEntry(e, cs, was, k).Some? { EntriesAreOwned(e, p, c, cs, was.value, k); }
    if OptEntry(e, cs, now, k).Some? { EntriesAreOwned(e, p, c, cs, now.value, k); }
  }

  lemma EntryAgrees(e: Env, st: Store, k: Key)
    requires EntriesAgree(e, st) && PerDocument(k)
    ensures Typed(st) && Look(st, k) == Expected(e, st, k)
  {}

  lemma WriteEntries(e: Env, st: Store, p: Bytes, c: Bytes, id: Bytes, was: Option<Document>, now: Option<Document>,
                     k: Key)
    requires Typed(st) && IsWrite(st, p, c, id, was, now) && PerDocument(k) && Look(st, k) == Expected(e, st, k)
    ensures Look(AfterWrite(e, st, p, c, id, was, now), k) == Expected(e, AfterWrite(e, st, p, c, id, was, now), k)
  {
    hide WriteEffect, Touched, EntryAt, UniqueNames, Apply;
    WriteDocs(e, st, p, c, id, was, now);
    TypedSchema(st, p, c);
    TypedDoc(st, p, c, id);
    WriteEffectAt(e, st, p, c, id, was, now, k);
    ApplyLook(st, WriteEffect(e, st, p, c, id, was, now), k);
    var cs := CollectionAt(st, p, c);
    if cs.Some? {
      if k in Touched(e, p, c, cs.value, id, was, now) {
        TouchedConcerns(e, p, c, cs.value, id, was, now, k);
      } else if Concerns(k, p, c, id) {
        UntouchedHasNone(e, p, c, cs.value, id, was, now, k);
      }
    }
  }

  function PartAt(m: map<Bytes, nat>, id: Bytes): nat { if id in m then m[id] else 0 }

  lemma SumPart(m: map<Bytes, nat>, id: Bytes)
    ensures Sum(m) == PartAt(m, id) + Sum(m - {id})
    ensures |m.Keys| == (if id in m then 1 else 0) + |(m - {id}).Keys|
  {
    assert (m - {id}).Keys == m.Keys - {id};
    if id in m {
      SumWithout(m, id);
    } else {
      assert m - {id} == m;
    }
  }

  function LenOf(e: Env, index: SearchIndexDef, doc: Option<Document>): Option<nat> {
    if doc.Some? then Some(TermsIn(e, index, doc.value.data).len) else None
  }

  /** One document left, one came: by how much the true statistics differ. */
  predicate Moved(a: Stats, b: Stats, gone: Option<nat>, come: Option<nat>) {
    && a.nDocs - (if gone.Some? then 1 else 0) == b.nDocs - (if come.Some? then 1 else 0) >= 0
    && a.totalLen - (if gone.Some? then gone.value else 0) == b.totalLen - (if come.Some? then come.value else 0) >= 0
  }

  lemma StatsMove(e: Env, st: Store, after: Store, p: Bytes, c: Bytes, id: Bytes, was: Option<Document>,
                  now: Option<Document>, index: SearchIndexDef)
    requires was == DocAt(st, p, c, id)
    requires forall id' :: DocAt(after, p, c, id') == if id' == id then now else DocAt(st, p, c, id')
    ensures Moved(ExactStats(e, st, p, c, index), ExactStats(e, after, p, c, index), LenOf(e, index, was),
                  LenOf(e, index, now))
  {
    hide TermsIn, Sum, DocAt;
    var m, m' := Lengths(e, st, p, c, index), Lengths(e, after, p, c, index);
    forall i | i != id ensures SameAt(m, m', i) {
      LengthAt(e, st, p, c, index, i);
      LengthAt(e, after, p, c, index, i);
      assert DocAt(after, p, c, i) == DocAt(st, p, c, i);
    }
    LengthAt(e, st, p, c, index, id);
    LengthAt(e, after, p, c, index, id);
    assert DocAt(after, p, c, id) == now;
    MapMove(m, m', id, LenOf(e, index, was), LenOf(e, index, now));
    assert m.Keys == Ids(st, p, c) && m'.Keys == Ids(after, p, c);
  }

  predicate SameAt(a: map<Bytes, nat>, b: map<Bytes, nat>, i: Bytes) {
    (i in a <==> i in b) && PartAt(a, i) == PartAt(b, i)
  }

  lemma MapMove(a: map<Bytes, nat>, b: map<Bytes, nat>, id: Bytes, gone: Option<nat>, come: Option<nat>)
    requires forall i | i != id :: SameAt(a, b, i)
    requires (id in a <==> gone.Some?) && PartAt(a, id) == if gone.Some? then gone.value else 0
    requires (id in b <==> come.Some?) && PartAt(b, id) == if come.Some? then come.value else 0
    ensures Moved(Stats(|a.Keys|, Sum(a)), Stats(|b.Keys|, Sum(b)), gone, come)
  {
    SameElsewhere(a, b, id);
    SumPart(a, id);
    SumPart(b, id);
  }

  lemma SameElsewhere(a: map<Bytes, nat>, b: map<Bytes, nat>, id: Bytes)
    requires forall i | i != id :: SameAt(a, b, i)
    ensures a - {id} == b - {id}
  {
    forall i | i in a - {id} ensures i in b - {id} && a[i] == b[i] { assert SameAt(a, b, i); }
    forall i | i in b - {id} ensures i in a - {id} { assert SameAt(a, b, i); }
  }

  lemma LengthAt(e: Env, st: Store, p: Bytes, c: Bytes, index: SearchIndexDef, id: Bytes)
    ensures var m, len := Lengths(e, st, p, c, index), LenOf(e, index, DocAt(st, p, c, id));
            (id in m <==> len.Some?) && PartAt(m, id) == if len.Some? then len.value else 0
  {
    IdsAreDocs(st, p, c, id);
  }

  /** The read-modify-write of saturating statistics tracks the clamped true ones, as long as nothing is
      removed while they are saturated. */
  lemma StepClamped(a: Stats, b: Stats, gone: Option<nat>, come: Option<nat>)
    requires Moved(a, b, gone, come) && (gone.Some? ==> FitsStats(a))
    ensures var r := if gone.Some? then Clamp(a).RemoveDoc(gone.value) else Clamp(a);
            (if come.Some? then r.AddDoc(come.value) else r) == Clamp(b)
  {
  }

  /** Taking a document out of saturating statistics is exact if and only if they had not saturated: the count
      within 64 bits, and the total too unless the document adds nothing to it. */
  lemma RemovalExactIff(a: Stats, b: Stats, len: nat)
    requires Moved(a, b, Some(len), None) && len <= MAX32
    ensures Clamp(a).RemoveDoc(len) == Clamp(b) <==> a.nDocs <= MAX64 && (a.totalLen <= MAX64 || len == 0)
  {
    assert Clamp(a).RemoveDoc(len).nDocs == Clamp(b).nDocs <==> a.nDocs <= MAX64;
  }

  lemma WriteStats(e: Env, st: Store, p: Bytes, c: Bytes, id: Bytes, was: Option<Document>, now: Option<Document>,
                   k: Key)
    requires Typed(st) && IsWrite(st, p, c, id, was, now) && k.StatsKey? && Look(st, k) == Expected(e, st, k)
    requires was.Some? && k.p == p && k.c == c ==> Fits(e, st, p, c)
    ensures Look(AfterWrite(e, st, p, c, id, was, now), k) == Expected(e, AfterWrite(e, st, p, c, id, was, now), k)
  {
    var after := AfterWrite(e, st, p, c, id, was, now);
    WriteDocs(e, st, p, c, id, was, now);
    TypedSchema(st, p, c);
    TypedDoc(st, p, c, id);
    WriteEffectAt(e, st, p, c, id, was, now, k);
    ApplyLook(st, WriteEffect(e, st, p, c, id, was, now), k);
    var cs := CollectionAt(st, k.p, k.c);
    assert CollectionAt(after, k.p, k.c) == cs;
    if cs.Some? && FindSearch(cs.value.searchIndexes, k.name).Some? {
      var index := FindSearch(cs.value.searchIndexes, k.name).value;
      if k.p == p && k.c == c {
        forall id' ensures DocAt(after, p, c, id') == if id' == id then now else DocAt(st, p, c, id') {}
        StatsMove(e, st, after, p, c, id, was, now, index);
        var a, b := ExactStats(e, st, p, c, index), ExactStats(e, after, p, c, index);
        assert was.Some? ==> FitsStats(a);
        StepClamped(a, b, LenOf(e, index, was), LenOf(e, index, now));
        assert StepStats(e, index, Clamp(a), was, now) == Clamp(b);
      } else {
        SameDocsSameStats(e, st, after, k.p, k.c, index);
      }
    }
  }

  /** Any insert, replacement, patch or delete keeps every equality entry, posting and vector entry equal to its
      recomputation, however large the collections. */
  lemma WriteKeepsEntries(e: Env, st: Store, p: Bytes, c: Bytes, id: Bytes, was: Option<Document>,
                          now: Option<Document>)
    requires EntriesAgree(e, st) && IsWrite(st, p, c, id, was, now)
    ensures EntriesAgree(e, AfterWrite(e, st, p, c, id, was, now))
  {
    hide AfterWrite;
    WriteDocs(e, st, p, c, id, was, now);
    forall k | PerDocument(k)
      ensures Look(AfterWrite(e, st, p, c, id, was, now), k) == Expected(e, AfterWrite(e, st, p, c, id, was, now), k)
    {
      EntryAgrees(e, st, k);
      WriteEntries(e, st, p, c, id, was, now, k);
    }
  }

  /** A write leaves every key of every other project alone. */
  lemma WriteElsewhere(e: Env, st: Store, p: Bytes, c: Bytes, id: Bytes, was: Option<Document>, now: Option<Document>,
                       k: Key)
    requires Typed(st) && IsWrite(st, p, c, id, was, now) && k.p != p
    ensures Look(AfterWrite(e, st, p, c, id, was, now), k) == Look(st, k)
  {
    hide WriteEffect, Touched, Apply;
    TypedSchema(st, p, c);
    TypedDoc(st, p, c, id);
    WriteEffectAt(e, st, p, c, id, was, now, k);
    ApplyLook(st, WriteEffect(e, st, p, c, id, was, now), k);
    var cs := CollectionAt(st, p, c);
    if cs.Some? && k in Touched(e, p, c, cs.value, id, was, now) {
      TouchedConcerns(e, p, c, cs.value, id, was, now, k);
    }
  }

  /** And every statistic too: those of other collections always, those of the written collection unless the
      write takes a document out while they are saturated. */
  lemma WriteAgrees(e: Env, st: Store, p: Bytes, c: Bytes, id: Bytes, was: Option<Document>, now: Option<Document>)
    requires Agrees(e, st) && IsWrite(st, p, c, id, was, now)
    requires was.Some? ==> Fits(e, st, p, c)
    ensures Agrees(e, AfterWrite(e, st, p, c, id, was, now))
  {
    hide AfterWrite, Fits;
    assert EntriesAgree(e, st);
    WriteDocs(e, st, p, c, id, was, now);
    forall k | Derived(k)
      ensures Look(AfterWrite(e, st, p, c, id, was, now), k) == Expected(e, AfterWrite(e, st, p, c, id, was, now), k)
    {
      if k.StatsKey? { WriteStats(e, st, p, c, id, was, now, k); } else { WriteEntries(e, st, p, c, id, was, now, k); }
    }
  }

  // ---- Schema pushes ----

  /** The index keys of a project now in the store: what the push deletes first. */
  function OldKeys(st: Store, p: Bytes): set<Key> {
    set k | k in st && Derived(k) && k.p == p
  }

  function DocEntryKeys(e: Env, p: Bytes, c: Bytes, cs: CollectionSchema, doc: Document): set<Key> {
    OwnedKeys(e, p, c, cs, doc)
    + set k | k in VecKeys(p, c, cs.vectorIndexes, doc.id) && EntryAt(e, cs, doc, k).Some?
  }

  /** The project's documents in collections the schema declares. */
  function Indexed(st: Store, p: Bytes, schema: ProjectSchema): set<Key> {
    set k | k in st && k.DocKey? && k.p == p && k.c in schema.collections && st[k].DocVal?
  }

  function RebuiltKeys(e: Env, st: Store, p: Bytes, schema: ProjectSchema): set<Key> {
    set d, k | d in Indexed(st, p, schema) && d in st && d.DocKey? && d.c in schema.collections && st[d].DocVal?
            && k in DocEntryKeys(e, p, d.c, schema.collections[d.c], st[d].doc) :: k
  }

  function DeclaredStats(p: Bytes, schema: ProjectSchema): set<Key> {
    set c, i | c in schema.collections && 0 <= i < |schema.collections[c].searchIndexes|
      :: StatsKey(p, c, schema.collections[c].searchIndexes[i].name)
  }

  function WithSchema(st: Store, p: Bytes, schema: ProjectSchema): Store {
    st[MetaKey(p) := SchemaVal(schema)]
  }

  /** The whole batch of a push: the schema, and every index key old or new set to its recomputed value. */
  ghost function PushEffect(e: Env, st: Store, p: Bytes, schema: ProjectSchema): Effect {
    (map k | k in OldKeys(st, p) + RebuiltKeys(e, st, p, schema) + DeclaredStats(p, schema)
       :: if Derived(k) then Expected(e, WithSchema(st, p, schema), k) else None)
    [MetaKey(p) := Some(SchemaVal(schema))]
  }

  ghost function AfterPush(e: Env, st: Store, p: Bytes, schema: ProjectSchema): Store {
    Apply(st, PushEffect(e, st, p, schema))
  }

  lemma RebuiltAreDerived(e: Env, st: Store, p: Bytes, schema: ProjectSchema, k: Key)
    requires Typed(st)
    requires k in OldKeys(st, p) + RebuiltKeys(e, st, p, schema) + DeclaredStats(p, schema)
    ensures Derived(k) && k.p == p
  {
  }

  lemma OwnedIsRebuilt(e: Env, st: Store, p: Bytes, schema: ProjectSchema, k: Key)
    requires Typed(st) && PerDocument(k) && k.p == p && k.c in schema.collections
    requires DocAt(st, p, k.c, k.id).Some?
    requires EntryAt(e, schema.collections[k.c], DocAt(st, p, k.c, k.id).value, k).Some?
    ensures k in RebuiltKeys(e, st, p, schema)
  {
    var doc := DocAt(st, p, k.c, k.id).value;
    TypedDoc(st, p, k.c, k.id);
    EntriesAreOwned(e, p, k.c, schema.collections[k.c], doc, k);
    assert DocKey(p, k.c, k.id) in Indexed(st, p, schema);
    assert k in DocEntryKeys(e, p, k.c, schema.collections[k.c], doc);
  }

  /** A key the push leaves alone has nothing to hold under the new schema. */
  lemma UnlistedIsEmpty(e: Env, st: Store, p: Bytes, schema: ProjectSchema, k: Key)
    requires Typed(st) && WellNamed(schema) && Derived(k) && k.p == p
    requires k !in RebuiltKeys(e, st, p, schema) && k !in DeclaredStats(p, schema)
    ensures Expected(e, WithSchema(st, p, schema), k) == None
  {
    var with := WithSchema(st, p, schema);
    if k.c in schema.collections {
      var cs := schema.collections[k.c];
      if k.StatsKey? {
        FoundSearch(cs.searchIndexes, k.name);
      } else if DocAt(st, p, k.c, k.id).Some? {
        var doc := DocAt(st, p, k.c, k.id).value;
        TypedDoc(st, p, k.c, k.id);
        assert DocAt(with, p, k.c, k.id) == Some(doc);
        if EntryAt(e, cs, doc, k).Some? {
          OwnedIsRebuilt(e, st, p, schema, k);
        }
      }
    }
  }

  lemma PushLook(e: Env, st: Store, p: Bytes, schema: ProjectSchema, k: Key)
    requires Typed(st) && WellNamed(schema)
    ensures Look(AfterPush(e, st, p, schema), k) ==
            if k == MetaKey(p) then Some(SchemaVal(schema))
            else if Derived(k) && k.p == p then Expected(e, WithSchema(st, p, schema), k)
            else Look(st, k)
  {
    var eff := PushEffect(e, st, p, schema);
    ApplyLook(st, eff, k);
    if k in eff && k != MetaKey(p) {
      RebuiltAreDerived(e, st, p, schema, k);
    } else if k !in eff && Derived(k) && k.p == p {
      UnlistedIsEmpty(e, st, p, schema, k);
    }
  }

  lemma PushTyped(e: Env, st: Store, p: Bytes, schema: ProjectSchema)
    requires Typed(st) && WellNamed(schema)
    ensures Typed(AfterPush(e, st, p, schema))
  {
    var after := AfterPush(e, st, p, schema);
    forall k | k in after && (k.DocKey? || k.MetaKey?) && k != MetaKey(p) ensures k in st && st[k] == after[k] {
      PushLook(e, st, p, schema, k);
    }
    PushLook(e, st, p, schema, MetaKey(p));
  }

  lemma PushDocs(e: Env, st: Store, p: Bytes, schema: ProjectSchema)
    requires Typed(st) && WellNamed(schema)
    ensures var after := AfterPush(e, st, p, schema);
            && (forall p', c, id :: Look(after, DocKey(p', c, id)) == Look(st, DocKey(p', c, id)))
            && (forall p' | p' != p :: Look(after, MetaKey(p')) == Look(st, MetaKey(p')))
            && SchemaAt(after, p) == Some(schema)
  {
    var after := AfterPush(e, st, p, schema);
    forall p', c, id ensures Look(after, DocKey(p', c, id)) == Look(st, DocKey(p', c, id)) {
      PushLook(e, st, p, schema, DocKey(p', c, id));
    }
    forall p' | p' != p ensures Look(after, MetaKey(p')) == Look(st, MetaKey(p')) {
      PushLook(e, st, p, schema, MetaKey(p'));
    }
    PushLook(e, st, p, schema, MetaKey(p));
  }

  /** A push makes each of the project's entries the recomputed one and keeps another project's so. */
  lemma PushCurrent(e: Env, st: Store, p: Bytes, schema: ProjectSchema, k: Key)
    requires Typed(st) && WellNamed(schema) && Derived(k)
    requires k.p == p || Look(st, k) == Expected(e, st, k)
    ensures Look(AfterPush(e, st, p, schema), k) == Expected(e, AfterPush(e, st, p, schema), k)
  {
    hide AfterPush, Expected;
    var after, with := AfterPush(e, st, p, schema), WithSchema(st, p, schema);
    PushDocs(e, st, p, schema);
    PushLook(e, st, p, schema, k);
    if k.p == p {
      assert Look(after, MetaKey(p)) == Look(with, MetaKey(p)) by { PushLook(e, st, p, schema, MetaKey(p)); }
      SameDocsSameExpected(e, with, after, k);
    } else {
      SameDocsSameExpected(e, st, after, k);
    }
  }

  /** So it keeps index entries in agreement whatever the statistics hold. */
  lemma PushKeepsEntries(e: Env, st: Store, p: Bytes, schema: ProjectSchema)
    requires Typed(st) && WellNamed(schema)
    requires forall k | PerDocument(k) && k.p != p :: Look(st, k) == Expected(e, st, k)
    ensures EntriesAgree(e, AfterPush(e, st, p, schema))
  {
    hide AfterPush, Expected;
    var after := AfterPush(e, st, p, schema);
    PushTyped(e, st, p, schema);
    forall k | PerDocument(k) ensures Look(after, k) == Expected(e, after, k) { PushCurrent(e, st, p, schema, k); }
  }

  /** A push from any store, whatever its entries and statistics hold, makes all those of the project the recomputed
      ones and leaves every key of every other project as it was. */
  lemma PushAgrees(e: Env, st: Store, p: Bytes, schema: ProjectSchema)
    requires Typed(st) && WellNamed(schema)
    ensures Typed(AfterPush(e, st, p, schema)) && ProjectAgrees(e, AfterPush(e, st, p, schema), p)
    ensures forall k: Key | k.p != p :: Look(AfterPush(e, st, p, schema), k) == Look(st, k)
  {
    hide AfterPush, Expected;
    var after := AfterPush(e, st, p, schema);
    PushTyped(e, st, p, schema);
    forall k | Derived(k) && k.p == p ensures Look(after, k) == Expected(e, after, k) {
      PushCurrent(e, st, p, schema, k);
    }
    forall k: Key | k.p != p ensures Look(after, k) == Look(st, k) { PushLook(e, st, p, schema, k); }
  }

  // ---- Rebuilding and incremental maintenance meet ----

  lemma SameLooks(a: Store, b: Store)
    requires forall k :: Look(a, k) == Look(b, k)
    ensures a == b
  {
    assert forall k | k in a :: Look(a, k) == Look(b, k);
    assert forall k | k in b :: Look(a, k) == Look(b, k);
  }

  /** Two stores equal outside the project, with its documents and schema the same and its entries and statistics
      recomputed in both, are equal. */
  lemma ProjectUnique(e: Env, a: Store, b: Store, p: Bytes)
    requires ProjectAgrees(e, a, p) && ProjectAgrees(e, b, p)
    requires forall k: Key | k.p != p || k.DocKey? || k.MetaKey? :: Look(a, k) == Look(b, k)
    ensures a == b
  {
    hide Expected;
    forall k ensures Look(a, k) == Look(b, k) {
      if Derived(k) && k.p == p { SameDocsSameExpected(e, a, b, k); }
    }
    SameLooks(a, b);
  }

  /** Pushing the schema already stored to a project whose entries and statistics are right changes nothing. */
  lemma PushIdempotent(e: Env, st: Store, p: Bytes, schema: ProjectSchema)
    requires Typed(st) && ProjectAgrees(e, st, p) && SchemaAt(st, p) == Some(schema)
    ensures AfterPush(e, st, p, schema) == st
  {
    hide AfterPush, Expected, ProjectAgrees;
    assert WellNamed(schema) by { assert MetaKey(p) in st; }
    PushAgrees(e, st, p, schema);
    forall k: Key | k.p != p || k.DocKey? || k.MetaKey? ensures Look(AfterPush(e, st, p, schema), k) == Look(st, k) {
      PushLook(e, st, p, schema, k);
    }
    ProjectUnique(e, AfterPush(e, st, p, schema), st, p);
  }

  datatype DocRef = DocRef(c: Bytes, doc: Document)

  /** Insert documents one at a time, as the write path does. */
  function InsertAll(e: Env, st: Store, p: Bytes, docs: seq<DocRef>): Store {
    if docs == [] then st
    else
      var before, d := InsertAll(e, st, p, docs[..|docs| - 1]), docs[|docs| - 1];
      AfterWrite(e, before, p, d.c, d.doc.id, None, Some(d.doc))
  }

  /** The document a list of inserts leaves at a place, if it names it. */
  function RefAt(docs: seq<DocRef>, c: Bytes, id: Bytes): Option<Document> {
    if docs == [] then None
    else
      var d := docs[|docs| - 1];
      if d.c == c && d.doc.id == id then Some(d.doc) else RefAt(docs[..|docs| - 1], c, id)
  }

  /** Each document is inserted once, where nothing was. */
  predicate FreshRefs(st: Store, p: Bytes, docs: seq<DocRef>) {
    docs == [] ||
    var d, rest := docs[|docs| - 1], docs[..|docs| - 1];
    RefAt(rest, d.c, d.doc.id) == None && DocAt(st, p, d.c, d.doc.id) == None && FreshRefs(st, p, rest)
  }

  /** Inserting keeps the project's entries and statistics right and leaves every other project alone. */
  lemma {:induction false} InsertAllAgrees(e: Env, st: Store, p: Bytes, docs: seq<DocRef>)
    requires Typed(st) && ProjectAgrees(e, st, p) && FreshRefs(st, p, docs)
    ensures var after := InsertAll(e, st, p, docs);
            && Typed(after) && ProjectAgrees(e, after, p)
            && (forall k: Key | k.p != p :: Look(after, k) == Look(st, k))
            && Look(after, MetaKey(p)) == Look(st, MetaKey(p))
            && (forall c, id :: DocAt(after, p, c, id) ==
                  if RefAt(docs, c, id).Some? then RefAt(docs, c, id) else DocAt(st, p, c, id))
  {
    hide AfterWrite, Expected, ProjectAgrees;
    if docs != [] {
      var n := |docs| - 1;
      var before, d := InsertAll(e, st, p, docs[..n]), docs[n];
      InsertAllAgrees(e, st, p, docs[..n]);
      assert DocAt(before, p, d.c, d.doc.id) == None;
      WriteDocs(e, before, p, d.c, d.doc.id, None, Some(d.doc));
      InsertKeepsProject(e, before, p, d.c, d.doc);
    }
  }

  lemma InsertKeepsProject(e: Env, st: Store, p: Bytes, c: Bytes, doc: Document)
    requires Typed(st) && ProjectAgrees(e, st, p) && DocAt(st, p, c, doc.id) == None
    ensures ProjectAgrees(e, AfterWrite(e, st, p, c, doc.id, None, Some(doc)), p)
    ensures forall k: Key | k.p != p :: Look(AfterWrite(e, st, p, c, doc.id, None, Some(doc)), k) == Look(st, k)
  {
    hide AfterWrite, Expected;
    var after := AfterWrite(e, st, p, c, doc.id, None, Some(doc));
    forall k | Derived(k) && k.p == p ensures Look(after, k) == Expected(e, after, k) {
      if k.StatsKey? {
        WriteStats(e, st, p, c, doc.id, None, Some(doc), k);
      } else {
        WriteEntries(e, st, p, c, doc.id, None, Some(doc), k);
      }
    }
    forall k: Key | k.p != p ensures Look(after, k) == Look(st, k) {
      WriteElsewhere(e, st, p, c, doc.id, None, Some(doc), k);
    }
  }

  /** The store with the project's documents taken away. */
  function WithoutDocs(st: Store, p: Bytes): Store {
    map k | k in st && !(k.DocKey? && k.p == p) :: st[k]
  }

  /** From any store, whatever its entries and statistics hold, a push yields the very store reached by pushing the
      schema to the emptied project and inserting its documents one by one, in any order. */
  lemma RebuildEqualsInserting(e: Env, st: Store, p: Bytes, schema: ProjectSchema, docs: seq<DocRef>)
    requires Typed(st) && WellNamed(schema)
    requires FreshRefs(WithoutDocs(st, p), p, docs)
    requires forall c, id :: RefAt(docs, c, id) == DocAt(st, p, c, id)
    ensures AfterPush(e, st, p, schema) == InsertAll(e, AfterPush(e, WithoutDocs(st, p), p, schema), p, docs)
  {
    hide AfterPush, PushEffect, InsertAll, FreshRefs, Expected, ProjectAgrees, WithoutDocs;
    var less := WithoutDocs(st, p);
    var blank := AfterPush(e, less, p, schema);
    var pushed, built := AfterPush(e, st, p, schema), InsertAll(e, blank, p, docs);
    LessTyped(st, p);
    PushAgrees(e, st, p, schema);
    PushDocs(e, st, p, schema);
    PushAgrees(e, less, p, schema);
    PushDocs(e, less, p, schema);
    FreshRefsElsewhere(less, blank, p, docs);
    InsertAllAgrees(e, blank, p, docs);
    forall k: Key | k.p != p || k.DocKey? || k.MetaKey? ensures Look(pushed, k) == Look(built, k) {
      LessLook(st, p, k);
      if k == MetaKey(p) {
        PushLook(e, st, p, schema, k);
        PushLook(e, less, p, schema, k);
      } else if k.p == p {
        TypedLook(pushed, k);
        TypedLook(built, k);
        assert Look(pushed, DocKey(p, k.c, k.id)) == Look(st, k);
        assert Look(blank, DocKey(p, k.c, k.id)) == Look(less, k);
        assert DocAt(less, p, k.c, k.id) == None;
      }
    }
    ProjectUnique(e, pushed, built, p);
  }

  lemma LessTyped(st: Store, p: Bytes)
    requires Typed(st)
    ensures Typed(WithoutDocs(st, p)) && forall c, id :: DocAt(WithoutDocs(st, p), p, c, id) == None
  {}

  lemma LessLook(st: Store, p: Bytes, k: Key)
    ensures !(k.DocKey? && k.p == p) ==> Look(WithoutDocs(st, p), k) == Look(st, k)
  {}

  lemma {:induction false} FreshRefsElsewhere(a: Store, b: Store, p: Bytes, docs: seq<DocRef>)
    requires FreshRefs(a, p, docs)
    requires forall c, id :: Look(a, DocKey(p, c, id)) == Look(b, DocKey(p, c, id))
    ensures FreshRefs(b, p, docs)
  {
    if docs != [] {
      var d := docs[|docs| - 1];
      FreshRefsElsewhere(a, b, p, docs[..|docs| - 1]);
      assert Look(a, DocKey(p, d.c, d.doc.id)) == Look(b, DocKey(p, d.c, d.doc.id));
    }
  }

  lemma TypedLook(st: Store, k: Key)
    requires Typed(st) && k.DocKey?
    ensures Look(st, k) == if DocAt(st, k.p, k.c, k.id).Some? then Some(DocVal(DocAt(st, k.p, k.c, k.id).value))
              else None
  {
  }
}
