/** What every step of the machine keeps: lock discipline, what an operation read staying true until its
    batch, and the log replaying to the store. */
module Safety {
  import opened ByteStrings
  import opened Values
  import opened Keys
  import opened Stores
  import opened Agreement
  import opened Machine
  import Embed
  import Validation

  // ---- Atomic versions of the operations ----

  /** A field embed-on-write may fill under this collection schema. */
  predicate Fillable(e: Env, cs: Option<CollectionSchema>, field: Bytes) {
    cs.Some? && field in cs.value.fields && Validation.EmbedSpecOf(e, cs.value.fields[field]).Some?
  }

  /** `b` is `a` except for fields embed-on-write may fill. */
  ghost predicate Follows(e: Env, cs: Option<CollectionSchema>, a: Data, b: Data) {
    forall f :: Get(b, f) == Get(a, f) || Fillable(e, cs, f)
  }

  /** The data a request asks to store over what it found. */
  function Requested(req: Request, was: Option<Data>): Data
    requires IsWriteReq(req) && (req.Patch? ==> was.Some?)
  {
    if req.Insert? || req.Replace? then req.data
    else if req.Patch? then Embed.Merge(was.value, req.updates)
    else map[]
  }

  function OptData(doc: Option<Document>): Option<Data> {
    if doc.Some? then Some(doc.value.data) else None
  }

  /** One write, judged against the collection schema and document it replaces: found or not as the
      operation needs, authorized, valid, and storing what was asked up to server-filled fields. It stores what it
      judged, except that a patch that judged the plain merge may still fill those fields. */
  ghost predicate WriteOk(e: Env, cs: Option<CollectionSchema>, req: Request, id: Bytes, was: Option<Document>,
                          judged: Data, now: Option<Document>, advisory: Option<ProjectSchema>)
    requires IsWriteReq(req)
  {
    && (req.Insert? <==> was.None?)
    && (!req.Insert? ==> id == req.id)
    && req.pre(Ctx(cs, OptData(was), if req.Remove? then None else Some(judged)))
    && (req.Remove? <==> now.None?)
    && (now.Some? ==>
          && now.value.id == id
          && now.value.createdAt == (if was.Some? then was.value.createdAt else now.value.updatedAt)
          && Validation.SchemaAccepts(e, cs, judged)
          && Follows(e, Collection(advisory, req.c), Requested(req, OptData(was)), judged)
          && Follows(e, cs, judged, now.value.data)
          && (now.value.data == judged
              || (&& req.Patch? && judged == Requested(req, OptData(was))
                  && FilledLate(e, cs, was.value.data, req.updates, judged, now.value.data))))
  }

  /** What some provider's answers make of a patch's merge, embedded while the locks are held. */
  ghost predicate FilledLate(e: Env, cs: Option<CollectionSchema>, was: Data, updates: Data, merged: Data, data: Data) {
    exists provider: Option<Embed.Provider> ::
      EmbedsTo(e, provider, cs, merged, Some(Embed.PatchContext(was, updates)), data)
  }

  predicate EmbedsTo(e: Env, provider: Option<Embed.Provider>, cs: Option<CollectionSchema>, data: Data,
                     patch: Option<Embed.PatchContext>, after: Data) {
    var out := Embed.ApplyEmbeddings(e, provider, cs, data, patch);
    out.Done? && out.data == after
  }

  ghost predicate AtomicStep(e: Env, before: Store, commit: Commit, after: Store) {
    match commit
    case WriteCommit(_, req, id, was, judged, now, advisory) =>
      && IsWriteReq(req)
      && was == DocAt(before, req.p, req.c, id)
      && WriteOk(e, CollectionAt(before, req.p, req.c), req, id, was, judged, now, advisory)
      && after == AfterWrite(e, before, req.p, req.c, id, was, now)
    case PushCommit(_, p, schema, spre) =>
      && WellNamed(schema) && spre(SchemaAt(before, p))
      && after == AfterPush(e, before, p, schema)
  }

  lemma CommitIds(e: Env, before: Store, commit: Commit, after: Store)
    requires AtomicStep(e, before, commit, after) && commit.WriteCommit?
    ensures commit.now.Some? ==> commit.now.value.id == commit.id
  {}

  /** Running the logged operations atomically, one after another, passes through exactly these stores. */
  ghost predicate Serial(e: Env, s: State) {
    && |s.stores| == |s.log| + 1
    && forall n | 0 <= n < |s.log| :: AtomicStep(e, s.stores[n], s.log[n], s.stores[n + 1])
  }

  // ---- What one operation knows ----

  predicate HoldsSchema(pc: Pc) {
    || pc.ReadSchema? || pc.WantDoc? || pc.ReadDoc? || pc.Decide? || pc.WantStats? || pc.ReadStats? || pc.Sequence?
    || pc.DropStats? || pc.DropGuards?
  }

  predicate HoldsDoc(pc: Pc) {
    || pc.ReadDoc? || pc.Decide? || pc.WantStats? || pc.ReadStats? || pc.Sequence? || pc.DropStats? || pc.DropGuards?
  }

  predicate KnowsSchema(pc: Pc) {
    pc.WantDoc? || pc.ReadDoc? || pc.Decide? || pc.WantStats? || pc.ReadStats? || pc.Sequence?
  }

  predicate KnowsDoc(pc: Pc) { pc.Decide? || pc.WantStats? || pc.ReadStats? || pc.Sequence? }

  predicate IsDecided(pc: Pc) { pc.WantStats? || pc.ReadStats? || pc.Sequence? }

  predicate IsPrepared(pc: Pc) {
    || pc.WantSchema? || pc.ReadSchema? || pc.WantDoc? || pc.ReadDoc? || pc.Decide? || pc.WantStats? || pc.ReadStats?
    || pc.Sequence?
  }

  predicate HasEarly(pc: Pc) { pc.EmbedCall? || IsPrepared(pc) }

  predicate Excludes(pc: Pc) {
    pc.PushCheck? || pc.PushScan? || pc.PushWrite? || pc.PushDurable? || pc.PushInvalidate? || pc.PushUnlock?
  }

  predicate WritePc(pc: Pc) {
    || pc.AdvSchema? || pc.AdvDoc? || pc.EmbedCall? || pc.WantSchema? || pc.ReadSchema? || pc.WantDoc? || pc.ReadDoc?
    || pc.Decide? || pc.WantStats? || pc.ReadStats? || pc.Sequence? || pc.DropStats? || pc.DropGuards? || pc.Flush?
    || pc.Invalidate? || pc.Done? || pc.Failed?
  }

  predicate PushPc(pc: Pc) { Excludes(pc) || pc.PushLock? || pc.Done? || pc.Failed? || pc.Abandoned? }

  predicate VectorPc(pc: Pc) { pc.VecCheck? || pc.VecLoad? || pc.VecScan? || pc.VecPublish? || pc.Done? || pc.Failed? }

  /** Which guards an operation holds is a matter of where it is. */
  predicate GuardsFit(op: Op) {
    if op.req.Push? then
      PushPc(op.pc) && (op.guards.schema == if Excludes(op.pc) then Exclusive else NoGuard) && !op.guards.doc
      && !op.guards.stats
    else if op.req.Vectors? then
      VectorPc(op.pc) && op.guards.schema == NoGuard && !op.guards.doc && !op.guards.stats
    else
      && WritePc(op.pc)
      && (op.guards.schema == if HoldsSchema(op.pc) then Shared else NoGuard)
      && (op.guards.doc <==> HoldsDoc(op.pc) && !op.req.Insert?)
      && (op.req.Remove? ==> !(op.pc.AdvSchema? || op.pc.AdvDoc? || op.pc.EmbedCall?))
      && (op.pc.AdvDoc? ==> op.req.Patch?)
      && (op.req.Insert? ==> !(op.pc.AdvDoc? || op.pc.WantDoc? || op.pc.ReadDoc?))
      && (op.pc == ReadStats ==> op.guards.stats)
      && ((op.pc.WantStats? || op.pc.ReadStats?) ==> SearchDefs(Coll(op, op.held.schema)) != [])
      && ((op.pc.Sequence? || op.pc.DropStats?) ==> (op.guards.stats <==> SearchDefs(Coll(op, op.held.schema)) != []))
      && (!(op.pc.ReadStats? || op.pc.Sequence? || op.pc.DropStats?) ==> !op.guards.stats)
  }

  /** What a write has prepared outside the locks is what was asked, up to fields it may fill, and a patch on its last
      attempt has embedded nothing yet. */
  ghost predicate Prepared(e: Env, op: Op)
    requires IsWriteReq(op.req)
  {
    && (op.req.Insert? || op.req.Replace? ==> Follows(e, Coll(op, op.prep.advisory), op.req.data, op.prep.data))
    && (op.req.Patch? && op.prep.embedded ==>
          Follows(e, Coll(op, op.prep.advisory), Embed.Merge(op.prep.early, op.req.updates), op.prep.data))
    && (op.req.Patch? && op.prep.attempt == EMBED_RETRIES ==> !op.prep.embedded)
  }

  /** What a write read under its guards is still so, and its decision stands. */
  ghost predicate WriteFacts(e: Env, st: Store, used: set<Bytes>, op: Op)
    requires IsWriteReq(op.req)
  {
    var p, c := op.req.p, op.req.c;
    && (op.req.Insert? ==> op.held.existing.None?)
    && (!op.req.Insert? ==> op.id == op.req.id)
    && ((op.pc.AdvSchema? || op.pc.EmbedCall?) && (op.req.Insert? || op.req.Replace?) ==> op.prep.data == op.req.data)
    && (KnowsSchema(op.pc) ==> op.held.schema == SchemaAt(st, p))
    && (KnowsDoc(op.pc) && !op.req.Insert? ==> op.held.existing.Some? && op.held.existing == DocAt(st, p, c, op.id))
    && (IsPrepared(op.pc) ==> Prepared(e, op))
    && (IsDecided(op.pc) ==>
          && WriteOk(e, Coll(op, op.held.schema), op.req, op.id, op.held.existing, op.held.judged, op.held.doc,
                     op.prep.advisory)
          && (op.req.Insert? ==> op.id in used && DocAt(st, p, c, op.id) == None))
    && ((op.pc.ReadStats? || op.pc.Sequence?) ==>
          var defs := SearchDefs(Coll(op, op.held.schema));
          && |op.held.read| <= |defs|
          && (forall j | 0 <= j < |op.held.read| :: op.held.read[j] == StatsAt(st, p, c, defs[j].name))
          && (op.pc == Sequence ==> |op.held.read| == |defs|))
    && (op.pc == WantStats ==> op.held.read == [])
  }

  ghost predicate PushFacts(st: Store, op: Op)
    requires op.req.Push?
  {
    && WellNamed(op.req.schema)
    && ((op.pc.PushScan? || op.pc.PushWrite?) ==> op.req.spre(SchemaAt(st, op.req.p)))
    && (op.pc == PushWrite ==> op.snap == st)
  }

  ghost predicate WriteReqFacts(e: Env, st: Store, used: set<Bytes>, op: Op) {
    && IsWriteReq(op.req)
    && WriteFacts(e, st, used, op)
    && op.prep.attempt <= EMBED_RETRIES
  }

  ghost predicate Facts(e: Env, st: Store, used: set<Bytes>, op: Op) {
    && GuardsFit(op)
    && (IsWriteReq(op.req) ==> WriteReqFacts(e, st, used, op))
    && (op.req.Push? ==> PushFacts(st, op))
  }

  /** Guards exclude each other, and inserts in flight have distinct ids. */
  ghost predicate Compatible(e: Env, a: Op, b: Op) {
    && !(a.guards.schema == Exclusive && b.guards.schema != NoGuard)
    && !(b.guards.schema == Exclusive && a.guards.schema != NoGuard)
    && (a.guards.doc && b.guards.doc && !a.req.Push? && !b.req.Push? ==> Shard(e, a) != Shard(e, b))
    && !(a.guards.stats && b.guards.stats)
    && (a.req.Insert? && b.req.Insert? && IsDecided(a.pc) && IsDecided(b.pc) ==> a.id != b.id)
  }

  predicate AfterSequence(pc: Pc) {
    (pc.DropStats? || pc.DropGuards? || pc.Flush? || pc.Invalidate? || pc.PushDurable? || pc.PushInvalidate?
     || pc.Abandoned?)
  }

  predicate IsWriter(op: Op) { !op.req.Vectors? }

  /** The log entry records exactly what the operation asked, found and stored. */
  ghost predicate IsCommitOf(commit: Commit, i: OpId, op: Op) {
    commit.who == i &&
    match commit
    case WriteCommit(_, req, id, was, judged, now, advisory) =>
      && IsWriteReq(op.req) && req == op.req && id == op.id
      && was == op.held.existing && judged == op.held.judged && now == op.held.doc && advisory == op.prep.advisory
    case PushCommit(_, p, schema, _) => op.req.Push? && p == op.req.p && schema == op.req.schema
  }

  predicate Landed(op: Op) { AfterSequence(op.pc) || op.pc.PushUnlock? || (op.pc.Done? && IsWriter(op)) }

  /** An operation past its batch knows its log entry; it reports success only once that is durable and
      the vector cache has been told. */
  ghost predicate Placed(s: State, i: OpId, op: Op) {
    && op.scan.startLen <= |s.log|
    && (Landed(op) ==> op.scan.startLen <= op.index < |s.log| && IsCommitOf(s.log[op.index], i, op))
    && (AfterSequence(op.pc) ==> op.index in s.pending)
    && (op.pc == Invalidate && op.flushed ==> op.index < s.durable)
    && ((op.pc.PushInvalidate? || op.pc.PushUnlock?) ==> op.flushed && op.index < s.durable)
    && (op.pc == PushUnlock ==> op.index !in s.pending)
    && (op.pc == Done && IsWriter(op) ==> op.index in s.acked && op.index !in s.pending)
  }

  ghost predicate OpsOk(e: Env, s: State)
    requires s.stores != []
  {
    forall i | i in s.ops :: Facts(e, Now(s), s.used, s.ops[i]) && Placed(s, i, s.ops[i])
  }

  ghost predicate PairsOk(e: Env, s: State) {
    forall i, j | i in s.ops && j in s.ops && i != j :: Compatible(e, s.ops[i], s.ops[j])
  }

  predicate PendingHas(s: State, n: nat) {
    n < |s.log| && s.log[n].who in s.ops && s.ops[s.log[n].who].index == n && AfterSequence(s.ops[s.log[n].who].pc)
  }

  /** Every batch not yet invalidated belongs to an operation between its batch and its invalidation, or to
      an abandoned push. */
  predicate PendingOk(s: State) { forall n | n in s.pending :: PendingHas(s, n) }

  predicate CountersOk(s: State) { s.durable <= |s.log| && forall n | n in s.acked :: n < s.durable }

  predicate UsedOk(st: Store, used: set<Bytes>) { forall k | k in st && k.DocKey? :: k.id in used }

  predicate AllUsedOk(s: State) { forall n | 0 <= n < |s.stores| :: UsedOk(s.stores[n], s.used) }

  predicate AllTyped(s: State) { forall n | 0 <= n < |s.stores| :: Typed(s.stores[n]) }

  ghost predicate Inv(e: Env, s: State) {
    && AllTyped(s) && Serial(e, s) && OpsOk(e, s) && PairsOk(e, s) && PendingOk(s) && CountersOk(s) && AllUsedOk(s)
  }

  // ---- Steps that touch only the operation itself ----

  lemma InvUnfold(e: Env, s: State, i: OpId)
    requires Inv(e, s) && i in s.ops
    ensures s.stores != [] && Facts(e, Now(s), s.used, s.ops[i]) && Placed(s, i, s.ops[i])
  {
    hide Facts, Compatible, AtomicStep;
  }

  lemma CompatibleSymmetric(e: Env, a: Op, b: Op)
    requires Compatible(e, a, b)
    ensures Compatible(e, b, a)
  {}

  lemma FactsGrow(e: Env, st: Store, used: set<Bytes>, more: set<Bytes>, op: Op)
    requires Facts(e, st, used, op) && used <= more
    ensures Facts(e, st, more, op)
  {
    hide WriteOk, Prepared, GuardsFit;
  }

  lemma NowTyped(e: Env, s: State)
    requires Inv(e, s)
    ensures s.stores != [] && Typed(Now(s)) && |s.stores| == |s.log| + 1
  {
    hide Facts, Compatible, AtomicStep, Typed;
  }

  /** An operation moved, nothing shared did. */
  lemma LocalStep(e: Env, s: State, i: OpId, op: Op, used: set<Bytes>)
    requires Inv(e, s) && i in s.ops && s.used <= used
    requires Facts(e, Now(s), used, op) && Placed(s, i, op)
    requires forall j | j in s.ops && j != i :: Compatible(e, op, s.ops[j])
    requires AfterSequence(s.ops[i].pc) && s.ops[i].index in s.pending ==>
               AfterSequence(op.pc) && op.index == s.ops[i].index
    ensures Inv(e, Update(s, i, op).(used := used))
  {
    hide Facts, Compatible, AtomicStep;
    var s' := Update(s, i, op).(used := used);
    forall j | j in s'.ops ensures Facts(e, Now(s'), s'.used, s'.ops[j]) && Placed(s', j, s'.ops[j]) {
      if j != i { FactsGrow(e, Now(s), s.used, used, s.ops[j]); }
    }
    forall a, b | a in s'.ops && b in s'.ops && a != b ensures Compatible(e, s'.ops[a], s'.ops[b]) {
      if b == i { CompatibleSymmetric(e, op, s.ops[a]); }
    }
    forall n | n in s'.pending ensures PendingHas(s', n) { assert PendingHas(s, n); }
    forall n | 0 <= n < |s'.stores| ensures UsedOk(s'.stores[n], s'.used) { assert UsedOk(s.stores[n], s.used); }
  }

  /** Guards released, pc changed, ids kept: whoever was compatible stays so. */
  lemma FewerGuards(e: Env, a: Op, a': Op, b: Op)
    requires Compatible(e, a, b) && Eases(a, a')
    ensures Compatible(e, a', b)
  {}

  /** `b` takes no guard that `a` does not hold, and decides no insert. */
  ghost predicate Eases(a: Op, b: Op) {
    && a.req == b.req
    && (b.guards.schema == a.guards.schema || b.guards.schema == NoGuard)
    && (b.guards.doc ==> a.guards.doc && b.id == a.id)
    && (b.guards.stats ==> a.guards.stats)
    && (IsDecided(b.pc) && a.req.Insert? ==> IsDecided(a.pc) && b.id == a.id)
  }

  /** A step that takes no guard and decides nothing. */
  lemma QuietStep(e: Env, s: State, i: OpId, op: Op)
    requires Inv(e, s) && i in s.ops && Eases(s.ops[i], op)
    requires Facts(e, Now(s), s.used, op) && Placed(s, i, op)
    requires AfterSequence(s.ops[i].pc) && s.ops[i].index in s.pending ==>
               AfterSequence(op.pc) && op.index == s.ops[i].index
    ensures Inv(e, Update(s, i, op))
  {
    hide Facts, Compatible, AtomicStep, Placed, Eases;
    forall j | j in s.ops && j != i ensures Compatible(e, op, s.ops[j]) {
      FewerGuards(e, s.ops[i], op, s.ops[j]);
    }
    LocalStep(e, s, i, op, s.used);
    assert Update(s, i, op).(used := s.used) == Update(s, i, op);
  }

  lemma StopFacts(e: Env, st: Store, used: set<Bytes>, op: Op)
    requires Facts(e, st, used, op)
    ensures Facts(e, st, used, Stop(op, Failed))
  {
    hide WriteOk, Prepared;
  }

  lemma StopEases(op: Op)
    ensures Eases(op, Stop(op, Failed))
  {}

  lemma StopStep(e: Env, s: State, i: OpId)
    requires Inv(e, s) && i in s.ops && Unsequenced(s.ops[i].pc)
    ensures Inv(e, Update(s, i, Stop(s.ops[i], Failed)))
  {
    hide Facts, Inv, Eases;
    InvUnfold(e, s, i);
    StopFacts(e, Now(s), s.used, s.ops[i]);
    StopEases(s.ops[i]);
    QuietStep(e, s, i, Stop(s.ops[i], Failed));
  }

  // ---- Preparing and deciding ----

  lemma EmbeddingFollows(e: Env, provider: Option<Embed.Provider>, cs: Option<CollectionSchema>, data: Data,
                         patch: Option<Embed.PatchContext>)
    requires Embed.ApplyEmbeddings(e, provider, cs, data, patch).Done?
    ensures Follows(e, cs, data, Embed.ApplyEmbeddings(e, provider, cs, data, patch).data)
  {
    forall f
      ensures Get(Embed.ApplyEmbeddings(e, provider, cs, data, patch).data, f) == Get(data, f) || Fillable(e, cs, f)
    {
      Embed.EmbeddingTouchesFilledFields(e, provider, cs, data, patch, f);
    }
  }

  lemma FollowsSelf(e: Env, cs: Option<CollectionSchema>, data: Data)
    ensures Follows(e, cs, data, data)
  {}

  function Asked(op: Op): Data
    requires IsWriteReq(op.req)
  {
    Requested(op.req, Some(op.prep.early))
  }

  /** Preparing changes what was asked only in fields embed-on-write may fill. */
  lemma PrepareFollows(e: Env, op: Op, provider: Option<Embed.Provider>)
    requires IsWriteReq(op.req) && !op.req.Remove? && (op.req.Patch? || op.prep.data == op.req.data)
    ensures var outcome := Prepare(e, op, provider);
            outcome.Done? ==>
              && Follows(e, Coll(op, op.prep.advisory), Asked(op), outcome.data)
              && (op.req.Patch? && op.prep.attempt == EMBED_RETRIES ==> !outcome.embedded)
  {
    hide Embed.ApplyEmbeddings, Validation.SchemaAccepts, Follows;
    var cs := Coll(op, op.prep.advisory);
    var ctx := if op.req.Patch? then Some(Embed.PatchContext(op.prep.early, op.req.updates)) else None;
    FollowsSelf(e, cs, Asked(op));
    if Embed.ApplyEmbeddings(e, provider, cs, Asked(op), ctx).Done? {
      EmbeddingFollows(e, provider, cs, Asked(op), ctx);
    }
  }

  lemma EmbedKeepsFacts(e: Env, st: Store, used: set<Bytes>, op: Op, outcome: Embed.Outcome)
    requires Facts(e, st, used, op) && IsWriteReq(op.req) && op.pc == EmbedCall && !op.req.Remove?
    requires outcome.Done? ==>
      && Follows(e, Coll(op, op.prep.advisory), Asked(op), outcome.data)
      && (op.req.Patch? && op.prep.attempt == EMBED_RETRIES ==> !outcome.embedded)
    ensures Facts(e, st, used, EmbedStep(op, outcome)) && Eases(op, EmbedStep(op, outcome))
  {
    hide WriteOk, Follows;
  }

  /** Whatever the decision accepts satisfies the atomic write's conditions. */
  lemma AcceptedIsOk(e: Env, op: Op, time: nat, provider: Option<Embed.Provider>)
    requires IsWriteReq(op.req) && (op.req.Insert? <==> op.held.existing.None?) && Prepared(e, op)
    requires !op.req.Insert? ==> op.id == op.req.id && op.held.existing.value.id == op.id
    ensures var d := Judge(e, op, time, provider);
            d.Accept? ==>
              WriteOk(e, Coll(op, op.held.schema), op.req, op.id, op.held.existing, d.judged, d.doc, op.prep.advisory)
  {
    hide Embed.ApplyEmbeddings, Validation.SchemaAccepts, Follows;
    var cs, judged := Coll(op, op.held.schema), Judged(op);
    FollowsSelf(e, cs, judged);
    FollowsSelf(e, Coll(op, op.prep.advisory), judged);
    if op.req.Patch? {
      var ctx := Some(Embed.PatchContext(op.held.existing.value.data, op.req.updates));
      if Embed.ApplyEmbeddings(e, provider, cs, judged, ctx).Done? {
        EmbeddingFollows(e, provider, cs, judged, ctx);
        assert EmbedsTo(e, provider, cs, judged, ctx, Embed.ApplyEmbeddings(e, provider, cs, judged, ctx).data);
      }
    }
  }

  lemma DecideKeepsFacts(e: Env, st: Store, used: set<Bytes>, op: Op, decision: Decision)
    requires Facts(e, st, used, op) && IsWriteReq(op.req) && op.pc == Decide
    requires decision.Retry? ==> op.req.Patch? && op.prep.embedded
    requires decision.Accept? ==>
      && WriteOk(e, Coll(op, op.held.schema), op.req, op.id, op.held.existing, decision.judged, decision.doc,
                 op.prep.advisory)
      && (op.req.Insert? ==> op.id in used && DocAt(st, op.req.p, op.req.c, op.id) == None)
    ensures Facts(e, st, used, DecideStep(op, decision))
  {
    hide WriteOk, Follows;
  }

  // ---- Sequencing ----

  /** What another operation read under its guards is still so after a write's batch. */
  lemma OthersKeepFacts(e: Env, st: Store, used: set<Bytes>, op: Op, other: Op)
    requires Typed(st) && UsedOk(st, used)
    requires Facts(e, st, used, op) && IsWriteReq(op.req) && op.pc == Sequence
    requires Facts(e, st, used, other) && Compatible(e, op, other)
    ensures Facts(e, AfterWrite(e, st, op.req.p, op.req.c, op.id, op.held.existing, op.held.doc), used, other)
  {
    hide WriteOk, Prepared, AfterWrite, Follows;
    WriteMoves(e, st, used, op);
    if IsWriteReq(other.req) {
      var p, c := other.req.p, other.req.c;
      var after := AfterWrite(e, st, op.req.p, op.req.c, op.id, op.held.existing, op.held.doc);
      assert SchemaAt(after, p) == SchemaAt(st, p);
      if KnowsDoc(other.pc) && (other.req.Insert? ==> IsDecided(other.pc)) {
        assert DocAt(after, p, c, other.id) == DocAt(st, p, c, other.id);
      }
      if other.pc == ReadStats {
        assert SearchDefs(Coll(op, op.held.schema)) == [];
        var defs := SearchDefs(Coll(other, other.held.schema));
        forall j | 0 <= j < |other.held.read| ensures other.held.read[j] == StatsAt(after, p, c, defs[j].name) {
          assert StatsAt(after, p, c, defs[j].name) == StatsAt(st, p, c, defs[j].name);
        }
      }
      if other.pc == Sequence {
        var defs := SearchDefs(Coll(other, other.held.schema));
        forall j | 0 <= j < |other.held.read| ensures other.held.read[j] == StatsAt(after, p, c, defs[j].name) {
          assert other.guards.stats;
          assert SearchDefs(Coll(op, op.held.schema)) == [];
          assert StatsAt(after, p, c, defs[j].name) == StatsAt(st, p, c, defs[j].name);
        }
      }
    }
  }

  /** A sequencing write's locals are the store's own values, so its batch is the atomic one. */
  lemma BatchIsAtomic(e: Env, st: Store, used: set<Bytes>, op: Op)
    requires Facts(e, st, used, op) && IsWriteReq(op.req) && op.pc == Sequence
    ensures Coll(op, op.held.schema) == CollectionAt(st, op.req.p, op.req.c)
    ensures op.held.existing == DocAt(st, op.req.p, op.req.c, op.id)
    ensures |op.held.read| == |SearchDefs(Coll(op, op.held.schema))|
    ensures WriteEffectWith(e, op.req.p, op.req.c, Coll(op, op.held.schema), op.held.read, op.id, op.held.existing,
                            op.held.doc)
         == WriteEffect(e, st, op.req.p, op.req.c, op.id, op.held.existing, op.held.doc)
    ensures WriteOk(e, Coll(op, op.held.schema), op.req, op.id, op.held.existing, op.held.judged, op.held.doc,
                    op.prep.advisory)
    ensures op.held.doc.Some? ==> op.held.doc.value.id == op.id
  {
    hide Prepared, Follows;
    var defs := SearchDefs(Coll(op, op.held.schema));
    assert op.held.read == Stores.ReadStats(st, op.req.p, op.req.c, defs);
  }

  /** Schemas stay, one document changes, and statistics change only for a collection that keeps some. */
  lemma WriteMoves(e: Env, st: Store, used: set<Bytes>, op: Op)
    requires Typed(st) && UsedOk(st, used) && Facts(e, st, used, op) && IsWriteReq(op.req) && op.pc == Sequence
    ensures var after := AfterWrite(e, st, op.req.p, op.req.c, op.id, op.held.existing, op.held.doc);
            && Typed(after) && UsedOk(after, used)
            && (forall p :: Look(after, MetaKey(p)) == Look(st, MetaKey(p)))
            && (forall p, c, id :: DocAt(after, p, c, id) ==
                  if p == op.req.p && c == op.req.c && id == op.id then op.held.doc else DocAt(st, p, c, id))
            && (SearchDefs(Coll(op, op.held.schema)) == [] ==>
                  forall p, c, name :: StatsAt(after, p, c, name) == StatsAt(st, p, c, name))
  {
    hide WriteOk, Prepared, Follows, AfterWrite, WriteEffect;
    var p, c := op.req.p, op.req.c;
    var after := AfterWrite(e, st, p, c, op.id, op.held.existing, op.held.doc);
    BatchIsAtomic(e, st, used, op);
    WriteDocs(e, st, p, c, op.id, op.held.existing, op.held.doc);
    forall k | k in after && k.DocKey? ensures k.id in used {
      assert DocAt(after, k.p, k.c, k.id).Some?;
      if DocAt(st, k.p, k.c, k.id).Some? { assert DocKey(k.p, k.c, k.id) in st; }
      else { assert op.held.existing == None; InsertIdUsed(e, st, used, op); }
    }
    if SearchDefs(Coll(op, op.held.schema)) == [] {
      forall p', c', name ensures StatsAt(after, p', c', name) == StatsAt(st, p', c', name) {
        StatsUntouched(e, st, p, c, op.id, op.held.existing, op.held.doc, StatsKey(p', c', name));
      }
    }
  }

  lemma InsertIdUsed(e: Env, st: Store, used: set<Bytes>, op: Op)
    requires Facts(e, st, used, op) && IsWriteReq(op.req) && op.pc == Sequence && op.held.existing == None
    ensures op.id in used
  {
    hide Prepared, Follows;
  }

  lemma StatsUntouched(e: Env, st: Store, p: Bytes, c: Bytes, id: Bytes, was: Option<Document>, now: Option<Document>,
                       k: Key)
    requires Typed(st) && IsWrite(st, p, c, id, was, now) && k.StatsKey?
    requires SearchDefs(CollectionAt(st, p, c)) == []
    ensures Look(AfterWrite(e, st, p, c, id, was, now), k) == Look(st, k)
  {
    TypedSchema(st, p, c);
    TypedDoc(st, p, c, id);
    WriteEffectAt(e, st, p, c, id, was, now, k);
    ApplyLook(st, WriteEffect(e, st, p, c, id, was, now), k);
  }
}
