/** Two patches of one text: a run that shows why the text-vector theorem asks what it asks of a patch that embeds
    nothing. */
module Restating {
  import opened ByteStrings
  import opened Values
  import opened Keys
  import opened Stores
  import opened Agreement
  import opened Machine
  import opened Safety
  import opened Steps
  import opened Coherence
  import opened TextVector
  import Embed
  import Validation
  import Vectors

  const SRC: Bytes := [115]
  const VEC_FIELD: Bytes := [118]

  /** A document's place, a number `one` that reads as the width 1, and two texts with their embeddings. */
  datatype Case = Case(p: Bytes, c: Bytes, id: Bytes, one: bits64, model: Bytes, a: Bytes, b: Bytes, va: bits64,
                       vb: bits64,
                       provider: Embed.Provider)

  /** The provider answers for both texts, as clamped, with different numbers a vector may hold. */
  predicate Suits(e: Env, w: Case) {
    && ValidName(w.c) && e.whole(w.one) == Some(1) && w.model != [] && e.clamp(w.a) != [] && e.clamp(w.b) != []
    && w.provider(w.model, e.clamp(w.a)) == Some([w.va]) && e.narrow(w.va).Some?
    && w.provider(w.model, e.clamp(w.b)) == Some([w.vb]) && e.narrow(w.vb).Some?
    && w.va != w.vb
  }

  /** A text field, and a vector of width one embedded from it. */
  function CsOf(w: Case): CollectionSchema {
    var text := Object(map[Validation.TYPE := Str(Validation.STRING)]);
    var vector := Object(map[Validation.TYPE := Str(Validation.VECTOR), Validation.DIMS := Number(w.one),
                             Validation.FROM := Array([Str(SRC)]), Validation.MODEL := Str(w.model)]);
    CollectionSchema(map[SRC := text, VEC_FIELD := vector], [], [], [], None)
  }

  function SchemaOf(w: Case): ProjectSchema { ProjectSchema(map[w.c := CsOf(w)]) }

  function SettingOf(w: Case): Setting { Setting(w.p, w.c, CsOf(w), VEC_FIELD, w.provider) }

  function TextDoc(text: Bytes, v: bits64): Data {
    map[SRC := Str(text), VEC_FIELD := Array([Number(v)])]
  }

  function Rewrite(w: Case, text: Bytes): Request {
    Patch(w.p, w.c, w.id, map[SRC := Str(text)], _ => true)
  }

  // ---- The collection ----

  lemma TextSpec(e: Env, w: Case)
    ensures SRC in CsOf(w).fields && Validation.EmbedSpecOf(e, CsOf(w).fields[SRC]).None?
  {
    var text := CsOf(w).fields[SRC];
    assert Validation.STRING[0] != Validation.VECTOR[0] && Validation.STRING[0] != Validation.OPTIONAL[0];
    assert Validation.Unwrap(text) == text;
    assert Validation.VectorDims(e, text).None?;
  }

  lemma VectorSpec(e: Env, w: Case)
    requires Suits(e, w)
    ensures VEC_FIELD in CsOf(w).fields
    ensures Validation.EmbedSpecOf(e, CsOf(w).fields[VEC_FIELD]) == Some(Validation.EmbedSpec(1, [SRC], w.model))
  {
    hide ValidName;
    var items, vector := [Str(SRC)], CsOf(w).fields[VEC_FIELD];
    assert Validation.Strings(items[1..]) == [];
    assert Validation.Strings(items) == [SRC];
    assert Validation.VECTOR[0] != Validation.OPTIONAL[0];
    assert Validation.Unwrap(vector) == vector;
  }

  lemma SettingFits(e: Env, w: Case)
    requires Suits(e, w)
    ensures WellSet(e, SettingOf(w))
    ensures Validation.EmbedSpecOf(e, CsOf(w).fields[VEC_FIELD]) == Some(Validation.EmbedSpec(1, [SRC], w.model))
    ensures Validation.EmbedSpecOf(e, CsOf(w).fields[SRC]).None?
  {
    hide Validation.EmbedSpecOf;
    TextSpec(e, w);
    VectorSpec(e, w);
    assert CsOf(w).fields.Keys == {SRC, VEC_FIELD};
  }

  /** The push's checks accept it. */
  lemma SchemaIsAccepted(e: Env, w: Case)
    requires Suits(e, w)
    ensures Validation.PushAccepted(e, SchemaOf(w))
  {
    hide ValidName;
    var cs := CsOf(w);
    var text, vector := cs.fields[SRC], cs.fields[VEC_FIELD];
    assert Validation.STRING[0] != Validation.VECTOR[0] && Validation.STRING[0] != Validation.OPTIONAL[0];
    assert Validation.VECTOR[0] != Validation.OPTIONAL[0];
    assert Validation.Unwrap(text) == text && Validation.Unwrap(vector) == vector;
    assert Validation.DimsInRange(e, text) && Validation.DimsInRange(e, vector);
    assert Validation.IsTextLike(text);
    assert Validation.SourcesChecked(cs, SRC) && Validation.SourcesChecked(cs, VEC_FIELD);
  }

  lemma TextOf(e: Env, w: Case, data: Data, text: Bytes)
    requires Suits(e, w) && Get(data, SRC) == Some(Str(text))
    ensures WellSet(e, SettingOf(w))
    ensures Embed.PendingFor(e, CsOf(w), data, VEC_FIELD) == Embed.Pending(w.model, 1, e.clamp(text))
  {
    SettingFits(e, w);
    var from := [SRC];
    assert from[1..] == [];
    assert Embed.JoinSources(data, from, []) == Embed.JoinSources(data, [], Embed.CollectText(data[SRC], []));
    assert [] + text == text;
  }

  lemma VectorFor(e: Env, w: Case, text: Bytes, v: bits64)
    requires w.provider(w.model, text) == Some([v]) && e.narrow(v).Some?
    ensures Embed.VectorValue(e, Embed.Pending(w.model, 1, text), w.provider) == Some(Array([Number(v)]))
  {
    assert Embed.VectorJson([v]) == Array([Number(v)]);
  }

  /** A document with the first text is matched exactly with the first vector; and with its own vector the second. */
  lemma DocsMatch(e: Env, w: Case)
    requires Suits(e, w)
    ensures WellSet(e, SettingOf(w))
    ensures Good(e, SettingOf(w), TextDoc(w.a, w.va)) && Good(e, SettingOf(w), TextDoc(w.b, w.vb))
    ensures !Good(e, SettingOf(w), TextDoc(w.a, w.vb))
  {
    hide Embed.PendingFor, Embed.VectorValue;
    TextOf(e, w, TextDoc(w.a, w.va), w.a);
    TextOf(e, w, TextDoc(w.b, w.vb), w.b);
    TextOf(e, w, TextDoc(w.a, w.vb), w.a);
    VectorFor(e, w, e.clamp(w.a), w.va);
    VectorFor(e, w, e.clamp(w.b), w.vb);
    var x, y := [Number(w.va)], [Number(w.vb)];
    assert x[0] != y[0];
  }

  lemma DocIsValid(e: Env, w: Case, text: Bytes, v: bits64)
    requires Suits(e, w) && e.narrow(v).Some?
    ensures Validation.ValidDoc(e, CsOf(w), TextDoc(text, v))
  {
    var cs, items, data := CsOf(w), [Number(v)], TextDoc(text, v);
    assert Vectors.Components(e, items[1..]) == Some([]);
    assert Validation.ValidValue(e, cs.fields[VEC_FIELD], Get(data, VEC_FIELD));
    assert Validation.ValidValue(e, cs.fields[SRC], Get(data, SRC));
  }

  // ---- What the two patches prepare ----

  /** Restating the first text embeds nothing. */
  lemma RestatingEmbedsNothing(e: Env, w: Case)
    requires Suits(e, w)
    ensures var data, req := TextDoc(w.a, w.va), Rewrite(w, w.a);
            Embed.ApplyEmbeddings(e, Some(w.provider), Some(CsOf(w)), Embed.Merge(data, req.updates),
                                  Some(Embed.PatchContext(data, req.updates))) == Embed.Done(data, false)
  {
    hide Embed.PlanFor;
    var data, req := TextDoc(w.a, w.va), Rewrite(w, w.a);
    Embed.RestatingPlansNothing(e, CsOf(w), data, req.updates);
    assert Embed.Merge(data, req.updates) == data;
  }

  lemma RewritingPlan(e: Env, w: Case)
    requires Suits(e, w)
    ensures var data, req := TextDoc(w.a, w.va), Rewrite(w, w.b);
            Embed.PlanFor(e, CsOf(w), Embed.Merge(data, req.updates), Some(Embed.PatchContext(data, req.updates)))
            == Embed.Plan(map[VEC_FIELD := Embed.Pending(w.model, 1, e.clamp(w.b))], {})
  {
    hide Embed.SourceText, Embed.PendingFor, Validation.EmbedSpecOf;
    var data, req := TextDoc(w.a, w.va), Rewrite(w, w.b);
    var merged, ctx := Embed.Merge(data, req.updates), Some(Embed.PatchContext(data, req.updates));
    SettingFits(e, w);
    TextOf(e, w, merged, w.b);
    var from := [SRC];
    assert Get(merged, from[0]) != Get(data, from[0]);
    assert Embed.Wanted(e, CsOf(w), merged, ctx, VEC_FIELD) && !Embed.Wanted(e, CsOf(w), merged, ctx, SRC);
    assert CsOf(w).fields.Keys == {SRC, VEC_FIELD};
    OneWork(f => Embed.Work(e, CsOf(w), merged, ctx, f), Embed.Pending(w.model, 1, e.clamp(w.b)));
  }

  lemma OneWork(work: Bytes -> Option<Embed.Pending>, item: Embed.Pending)
    requires work(SRC).None? && work(VEC_FIELD) == Some(item) && item.text != []
    ensures Embed.PlanOver(work, {SRC, VEC_FIELD}) == Embed.Plan(map[VEC_FIELD := item], {})
  {
    var plan := Embed.PlanOver(work, {SRC, VEC_FIELD});
    assert plan.embed.Keys == {VEC_FIELD};
    assert plan.clear == {};
  }

  /** The second text embeds its own vector. */
  lemma RewritingEmbeds(e: Env, w: Case)
    requires Suits(e, w)
    ensures var data, req := TextDoc(w.a, w.va), Rewrite(w, w.b);
            Embed.ApplyEmbeddings(e, Some(w.provider), Some(CsOf(w)), Embed.Merge(data, req.updates),
                                  Some(Embed.PatchContext(data, req.updates))) == Embed.Done(TextDoc(w.b, w.vb), true)
  {
    hide Embed.PlanFor, Embed.Apply, CsOf, TextDoc;
    RewritingPlan(e, w);
    PlanApplies(e, w);
    var plan := Embed.Plan(map[VEC_FIELD := Embed.Pending(w.model, 1, e.clamp(w.b))], {});
    assert VEC_FIELD in plan.embed && !plan.IsEmpty();
  }

  lemma PlanApplies(e: Env, w: Case)
    requires Suits(e, w)
    ensures var plan := Embed.Plan(map[VEC_FIELD := Embed.Pending(w.model, 1, e.clamp(w.b))], {});
            Embed.Apply(e, plan, Embed.Merge(TextDoc(w.a, w.va), Rewrite(w, w.b).updates), w.provider)
            == Embed.Done(TextDoc(w.b, w.vb), true)
  {
    hide Embed.VectorValue;
    VectorFor(e, w, e.clamp(w.b), w.vb);
    var merged := Embed.Merge(TextDoc(w.a, w.va), Rewrite(w, w.b).updates);
    var plan := Embed.Plan(map[VEC_FIELD := Embed.Pending(w.model, 1, e.clamp(w.b))], {});
    assert merged.Keys == {SRC, VEC_FIELD};
    var out := Embed.Apply(e, plan, merged, w.provider);
    assert out.Done? && out.data.Keys == {SRC, VEC_FIELD};
    assert out.data == TextDoc(w.b, w.vb);
  }

  // ---- Steps of a patch ----

  function EarlyRead(s: State, req: Request, early: Data): Op
    requires s.stores != []
  {
    Start(s, req).(prep := Start(s, req).prep.(advisory := SchemaAt(Now(s), req.p), early := early), pc := EmbedCall)
  }

  /** Begin, read the schema and the document without locks, embed. */
  lemma Prepares(e: Env, s: State, i: OpId, req: Request, early: Document, provider: Embed.Provider) returns (t: State)
    requires Reachable(e, s) && s.stores != [] && i !in s.ops && req.Patch?
    requires DocAt(Now(s), req.p, req.c, req.id) == Some(early)
    ensures Reachable(e, t)
    ensures var op := EarlyRead(s, req, early.data); t == Update(s, i, EmbedStep(op, Prepare(e, op, Some(provider))))
  {
    hide Reachable, Next, Prepare, EmbedStep, DocAt, SchemaAt;
    BeginIs(e, s, i, req);
    var t1 := Extend(e, s, Begin(i, req));
    WriteGoIs(e, t1, i);
    var t2 := Extend(e, t1, Go(i));
    WriteGoIs(e, t2, i);
    var t3 := Extend(e, t2, Go(i));
    assert t3.ops[i] == EarlyRead(s, req, early.data);
    CallIs(e, t3, i, provider);
    t := Extend(e, t3, CallProvider(i, Some(provider)));
    assert t.ops == s.ops[i := t.ops[i]];
  }

  lemma WriteGoIs(e: Env, s: State, i: OpId)
    requires s.stores != [] && i in s.ops && IsWriteReq(s.ops[i].req)
    ensures Next(e, s, Go(i)) == GoWrite(e, s, i)
  {
    hide GoWrite;
  }

  lemma CallIs(e: Env, s: State, i: OpId, provider: Embed.Provider)
    requires s.stores != [] && i in s.ops && s.ops[i].req.Patch? && s.ops[i].pc == EmbedCall
    ensures Next(e, s, CallProvider(i, Some(provider)))
              == Some(Update(s, i, EmbedStep(s.ops[i], Prepare(e, s.ops[i], Some(provider)))))
  {
    hide Prepare, EmbedStep;
  }

  lemma DecideIs(e: Env, s: State, i: OpId, time: nat, provider: Embed.Provider)
    requires s.stores != [] && i in s.ops && s.ops[i].req.Patch? && s.ops[i].pc == Decide
    requires s.ops[i].held.existing.Some?
    ensures Next(e, s, DecideNow(i, time, [], Some(provider)))
         == Some(Update(s, i, DecideStep(s.ops[i], Judge(e, s.ops[i], time, Some(provider)))))
  {
    hide Judge, DecideStep;
  }

  /** Nobody else holds a lock. */
  predicate Alone(s: State, i: OpId) {
    i in s.ops && s.ops[i].guards == NO_GUARDS && forall j | j in s.ops && j != i :: s.ops[j].guards == NO_GUARDS
  }

  function LockedRead(op: Op, st: Store, existing: Document): Op {
    op.(guards := Guards(Shared, true, false), pc := Decide,
        held := op.held.(schema := SchemaAt(st, op.req.p), existing := Some(existing)))
  }

  lemma LocksSchema(e: Env, s: State, i: OpId) returns (t: State)
    requires Reachable(e, s) && s.stores != [] && Alone(s, i) && s.ops[i].req.Patch? && s.ops[i].pc == WantSchema
    ensures Reachable(e, t)
    ensures var op := s.ops[i];
            t == Update(s, i,
                        op.(guards := Guards(Shared, false, false), pc := WantDoc,
                            held := op.held.(schema := SchemaAt(Now(s), op.req.p))))
  {
    hide Reachable, Next, DocAt, SchemaAt;
    WriteGoIs(e, s, i);
    var t1 := Extend(e, s, Go(i));
    WriteGoIs(e, t1, i);
    t := Extend(e, t1, Go(i));
    assert t.ops == s.ops[i := t.ops[i]];
  }

  /** Take the locks and read again. */
  lemma Locks(e: Env, s: State, i: OpId, existing: Document) returns (t: State)
    requires Reachable(e, s) && s.stores != [] && Alone(s, i) && s.ops[i].req.Patch? && s.ops[i].pc == WantSchema
    requires DocAt(Now(s), s.ops[i].req.p, s.ops[i].req.c, s.ops[i].id) == Some(existing)
    ensures Reachable(e, t) && t == Update(s, i, LockedRead(s.ops[i], Now(s), existing))
  {
    hide Reachable, Next, DocAt, SchemaAt;
    var t2 := LocksSchema(e, s, i);
    WriteGoIs(e, t2, i);
    var t3 := Extend(e, t2, Go(i));
    WriteGoIs(e, t3, i);
    t := Extend(e, t3, Go(i));
    assert t.ops == s.ops[i := t.ops[i]];
  }

  /** The document is the one new thing. */
  ghost predicate StoresOnly(before: Store, after: Store, req: Request, id: Bytes, doc: Document)
    requires req.Patch?
  {
    && (forall p :: Look(after, MetaKey(p)) == Look(before, MetaKey(p)))
    && forall p, c, id' :: DocAt(after, p, c, id') ==
         if p == req.p && c == req.c && id' == id then Some(doc) else DocAt(before, p, c, id')
  }

  /** Decide, apply the batch and drop the locks. */
  lemma Commits(e: Env, s: State, i: OpId, time: nat, provider: Embed.Provider, doc: Document) returns (t: State)
    requires Reachable(e, s) && s.stores != [] && i in s.ops && s.ops[i].req.Patch? && s.ops[i].pc == Decide
    requires s.ops[i].held.existing.Some? && s.ops[i].id == s.ops[i].req.id
    requires SearchDefs(Coll(s.ops[i], s.ops[i].held.schema)) == []
    requires Judge(e, s.ops[i], time, Some(provider)).Accept?
    requires Judge(e, s.ops[i], time, Some(provider)).doc == Some(doc)
    ensures Reachable(e, t) && |t.stores| == |s.stores| + 1 && s.stores <= t.stores
    ensures StoresOnly(Now(s), Now(t), s.ops[i].req, s.ops[i].id, doc)
    ensures i in t.ops && t.ops == s.ops[i := t.ops[i]] && t.ops[i].req == s.ops[i].req && t.ops[i].guards == NO_GUARDS
  {
    hide Reachable, Next, DocAt, SchemaAt, Judge, StoresOnly;
    DecideIs(e, s, i, time, provider);
    var t1 := Extend(e, s, DecideNow(i, time, [], Some(provider)));
    assert t1.ops[i].pc == Sequence && t1.ops[i].held.doc == Some(doc) && t1.ops[i].id == s.ops[i].id;
    var t2 := Applies(e, t1, i, doc);
    WriteGoIs(e, t2, i);
    var t3 := Extend(e, t2, Go(i));
    WriteGoIs(e, t3, i);
    t := Extend(e, t3, Go(i));
  }

  lemma Applies(e: Env, s: State, i: OpId, doc: Document) returns (t: State)
    requires Reachable(e, s) && s.stores != [] && i in s.ops && s.ops[i].req.Patch? && s.ops[i].pc == Sequence
    requires s.ops[i].held.doc == Some(doc) && s.ops[i].held.read == []
    requires SearchDefs(Coll(s.ops[i], s.ops[i].held.schema)) == []
    ensures Reachable(e, t) && |t.stores| == |s.stores| + 1 && s.stores <= t.stores
    ensures StoresOnly(Now(s), Now(t), s.ops[i].req, s.ops[i].id, doc)
    ensures i in t.ops && t.ops == s.ops[i := t.ops[i]] && t.ops[i].req == s.ops[i].req
    ensures t.ops[i].pc == DropStats && t.ops[i].guards == s.ops[i].guards
  {
    hide Reachable, Next, DocAt, WriteEffectWith, AtomicStep, Inv;
    WriteGoIs(e, s, i);
    ReachableInv(e, s);
    t := Extend(e, s, Go(i));
    AppendedCommit(e, s, i);
    var op, commit := s.ops[i], t.log[|s.log|];
    AtomicWrite(e, Now(s), commit, Now(t));
    WriteDocs(e, Now(s), op.req.p, op.req.c, op.id, commit.was, commit.now);
  }

  lemma AtomicWrite(e: Env, before: Store, commit: Commit, after: Store)
    requires AtomicStep(e, before, commit, after) && commit.WriteCommit?
    ensures IsWrite(before, commit.req.p, commit.req.c, commit.id, commit.was, commit.now)
    ensures after == AfterWrite(e, before, commit.req.p, commit.req.c, commit.id, commit.was, commit.now)
  {
    hide AfterWrite;
    CommitIds(e, before, commit, after);
  }

  // ---- The run ----

  lemma RewritingIsAccepted(e: Env, w: Case, op: Op, existing: Document)
    requires Suits(e, w) && op.req == Rewrite(w, w.b) && op.prep.early == TextDoc(w.a, w.va)
    requires op.prep.data == TextDoc(w.b, w.vb) && op.prep.embedded && op.prep.attempt == 0
    requires op.held.schema == Some(SchemaOf(w)) && op.held.existing == Some(existing)
    requires existing.data == TextDoc(w.a, w.va)
    ensures var d := Judge(e, op, 0, Some(w.provider));
            d.Accept? && d.doc == Some(Document(op.id, existing.createdAt, 0, TextDoc(w.b, w.vb)))
  {
    hide Validation.ValidDoc, CsOf;
    DocIsValid(e, w, w.b, w.vb);
  }

  /** Restating is not retried and not refused: it stores the old text beside the other patch's vector. */
  lemma RestatingIsAccepted(e: Env, w: Case, op: Op, existing: Document)
    requires Suits(e, w) && op.req == Rewrite(w, w.a) && !op.prep.embedded && op.prep.attempt == 0
    requires op.held.schema == Some(SchemaOf(w)) && op.held.existing == Some(existing)
    requires existing.data == TextDoc(w.b, w.vb)
    ensures var d := Judge(e, op, 0, Some(w.provider));
            d.Accept? && d.doc == Some(Document(op.id, existing.createdAt, 0, TextDoc(w.a, w.vb)))
  {
    hide Validation.ValidDoc, CsOf;
    DocIsValid(e, w, w.a, w.vb);
    assert Embed.Merge(existing.data, op.req.updates) == TextDoc(w.a, w.vb);
  }

  function FirstStore(w: Case): Store {
    map[MetaKey(w.p) := SchemaVal(SchemaOf(w)),
        DocKey(w.p, w.c, w.id) := DocVal(Document(w.id, 0, 0, TextDoc(w.a, w.va)))]
  }

  lemma Opens(e: Env, w: Case) returns (s: State)
    requires Suits(e, w)
    ensures Reachable(e, s) && s.ops == map[] && s.stores == [FirstStore(w)]
  {
    hide CsOf, TextDoc;
    var st := FirstStore(w);
    s := State(map[], [st], [], 0, {}, {}, {w.id}, map[], 0);
    NoIndexes(w);
    forall k | PerDocument(k) ensures Look(st, k) == Expected(e, st, k) {}
    assert Initial(e, s);
    assert Run(e, s, []) == Some(s);
  }

  lemma NoIndexes(w: Case)
    ensures CsOf(w).indexes == [] && CsOf(w).searchIndexes == [] && CsOf(w).vectorIndexes == []
  {}

  /** One store of the run: the schema, and the one document of the collection. */
  ghost predicate Holding(w: Case, st: Store, data: Data) {
    && SchemaAt(st, w.p) == Some(SchemaOf(w))
    && DocAt(st, w.p, w.c, w.id).Some? && DocAt(st, w.p, w.c, w.id).value.data == data
    && forall id | id != w.id :: DocAt(st, w.p, w.c, id).None?
  }

  lemma HoldingIsOk(e: Env, w: Case, st: Store, data: Data)
    requires Suits(e, w) && Holding(w, st, data)
    ensures WellSet(e, SettingOf(w)) && (Good(e, SettingOf(w), data) ==> StoreOk(e, SettingOf(w), st))
  {
    hide Good, CsOf, WellSet;
    SettingFits(e, w);
    var x := SettingOf(w);
    if Good(e, x, data) {
      forall k | k in st && k.DocKey? && k.p == w.p && k.c == w.c && st[k].DocVal? ensures Good(e, x, st[k].doc.data) {
        assert DocAt(st, w.p, w.c, k.id) == Some(st[k].doc);
      }
    }
  }

  lemma StillHolding(w: Case, before: Store, after: Store, req: Request, doc: Document, data: Data)
    requires Holding(w, before, data) && req.Patch? && req.p == w.p && req.c == w.c
    requires StoresOnly(before, after, req, w.id, doc)
    ensures Holding(w, after, doc.data)
  {
    assert Look(after, MetaKey(w.p)) == Look(before, MetaKey(w.p));
  }

  /** Restating is prepared first: nothing to embed, so it waits for its locks with the bare text. */
  lemma RestatingWaits(e: Env, w: Case, s: State) returns (t: State)
    requires Suits(e, w) && Reachable(e, s) && s.ops == map[] && |s.stores| == 1
    requires Holding(w, Now(s), TextDoc(w.a, w.va))
    ensures Reachable(e, t) && t.stores == s.stores && t.ops.Keys == {0}
    ensures var op := t.ops[0];
            && op.req == Rewrite(w, w.a) && op.id == w.id && op.pc == WantSchema && op.guards == NO_GUARDS
            && !op.prep.embedded && op.prep.attempt == 0 && op.held == NOTHING_HELD
  {
    hide Reachable, CsOf, Embed.ApplyEmbeddings, TextDoc;
    RestatingEmbedsNothing(e, w);
    t := Prepares(e, s, 0, Rewrite(w, w.a), DocAt(Now(s), w.p, w.c, w.id).value, w.provider);
  }

  /** Rewriting is prepared beside it, with its vector. */
  lemma RewritingWaits(e: Env, w: Case, s: State) returns (t: State)
    requires Suits(e, w) && Reachable(e, s) && s.ops.Keys == {0} && |s.stores| == 1
    requires Holding(w, Now(s), TextDoc(w.a, w.va))
    ensures Reachable(e, t) && t.stores == s.stores && t.ops.Keys == {0, 1} && t.ops[0] == s.ops[0]
    ensures var op := t.ops[1];
            && op.req == Rewrite(w, w.b) && op.id == w.id && op.pc == WantSchema && op.guards == NO_GUARDS
            && op.held == NOTHING_HELD
            && op.prep.embedded && op.prep.attempt == 0
            && op.prep.early == TextDoc(w.a, w.va) && op.prep.data == TextDoc(w.b, w.vb)
  {
    hide Reachable, CsOf, Embed.ApplyEmbeddings, TextDoc;
    RewritingEmbeds(e, w);
    t := Prepares(e, s, 1, Rewrite(w, w.b), DocAt(Now(s), w.p, w.c, w.id).value, w.provider);
  }

  /** The rewriting patch commits. */
  lemma RewritingLands(e: Env, w: Case, s: State) returns (t: State)
    requires Suits(e, w) && Reachable(e, s) && s.ops.Keys == {0, 1} && |s.stores| == 1
    requires Holding(w, Now(s), TextDoc(w.a, w.va))
    requires s.ops[0].guards == NO_GUARDS
    requires var op := s.ops[1];
             && op.req == Rewrite(w, w.b) && op.id == w.id && op.pc == WantSchema && op.guards == NO_GUARDS
             && op.prep.embedded && op.prep.attempt == 0
             && op.prep.early == TextDoc(w.a, w.va) && op.prep.data == TextDoc(w.b, w.vb)
    ensures Reachable(e, t) && |t.stores| == 2 && s.stores <= t.stores && Holding(w, Now(t), TextDoc(w.b, w.vb))
    ensures t.ops.Keys == {0, 1} && t.ops[0] == s.ops[0] && t.ops[1].guards == NO_GUARDS && t.ops[1].req == s.ops[1].req
  {
    hide Reachable, CsOf, TextDoc, Judge, StoresOnly;
    NoIndexes(w);
    var existing := DocAt(Now(s), w.p, w.c, w.id).value;
    var t1 := Locks(e, s, 1, existing);
    RewritingIsAccepted(e, w, t1.ops[1], existing);
    var doc := Document(w.id, existing.createdAt, 0, TextDoc(w.b, w.vb));
    t := Commits(e, t1, 1, 0, w.provider, doc);
    StillHolding(w, Now(t1), Now(t), t1.ops[1].req, doc, TextDoc(w.a, w.va));
  }

  /** Then the restating one does, beside the other's vector. */
  lemma RestatingLands(e: Env, w: Case, s: State) returns (t: State)
    requires Suits(e, w) && Reachable(e, s) && s.ops.Keys == {0, 1} && |s.stores| == 2
    requires Holding(w, Now(s), TextDoc(w.b, w.vb))
    requires s.ops[1].guards == NO_GUARDS
    requires var op := s.ops[0];
             && op.req == Rewrite(w, w.a) && op.id == w.id && op.pc == WantSchema && op.guards == NO_GUARDS
             && !op.prep.embedded && op.prep.attempt == 0
    ensures Reachable(e, t) && |t.stores| == 3 && s.stores <= t.stores && Holding(w, Now(t), TextDoc(w.a, w.vb))
    ensures t.ops.Keys == {0, 1} && t.ops[0].req == s.ops[0].req && t.ops[1] == s.ops[1]
  {
    hide Reachable, CsOf, TextDoc, Judge, StoresOnly;
    NoIndexes(w);
    var existing := DocAt(Now(s), w.p, w.c, w.id).value;
    var t1 := Locks(e, s, 0, existing);
    RestatingIsAccepted(e, w, t1.ops[0], existing);
    var doc := Document(w.id, existing.createdAt, 0, TextDoc(w.a, w.vb));
    t := Commits(e, t1, 0, 0, w.provider, doc);
    StillHolding(w, Now(t1), Now(t), t1.ops[0].req, doc, TextDoc(w.b, w.vb));
  }

  /** Two patches, one restating the text it read and one changing it, reach a state whose store holds the old text
      beside the new text's vector, although the schema is one a push accepts, every stored document was matched before,
      and no client ever set the vector. */
  lemma RestatingPatchKeepsOtherVector(e: Env, w: Case)
    requires Suits(e, w)
    ensures WellSet(e, SettingOf(w)) && Validation.PushAccepted(e, SchemaOf(w))
    ensures exists s ::
              && Reachable(e, s) && |s.stores| == 3
              && StoreOk(e, SettingOf(w), s.stores[0]) && StoreOk(e, SettingOf(w), s.stores[1])
              && (forall i | i in s.ops :: s.ops[i].req in {Rewrite(w, w.a), Rewrite(w, w.b)})
              && DocAt(s.stores[2], w.p, w.c, w.id).Some?
              && !Good(e, SettingOf(w), DocAt(s.stores[2], w.p, w.c, w.id).value.data)
  {
    hide Reachable, CsOf, TextDoc, Good, StoreOk, Validation.PushAccepted;
    SchemaIsAccepted(e, w);
    DocsMatch(e, w);
    var s0 := Opens(e, w);
    OpensHolding(w);
    var s1 := RestatingWaits(e, w, s0);
    var s2 := RewritingWaits(e, w, s1);
    var s3 := RewritingLands(e, w, s2);
    var s4 := RestatingLands(e, w, s3);
    HoldingIsOk(e, w, s0.stores[0], TextDoc(w.a, w.va));
    HoldingIsOk(e, w, s3.stores[1], TextDoc(w.b, w.vb));
    assert s4.stores[0] == s0.stores[0] && s4.stores[1] == s3.stores[1];
  }

  lemma OpensHolding(w: Case)
    ensures Holding(w, FirstStore(w), TextDoc(w.a, w.va))
  {}
}
