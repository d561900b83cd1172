/** A stored vector is the embedding of the stored text, over every interleaving of inserts, replacements and
    patches under one schema and one deterministic provider. */
module TextVector {
  import opened ByteStrings
  import opened Values
  import opened Keys
  import opened Stores
  import opened Agreement
  import opened Machine
  import opened Safety
  import opened Steps
  import Embed
  import Validation

  /** One server-filled field of one collection, and the provider that fills it. */
  datatype Setting = Setting(p: Bytes, c: Bytes, cs: CollectionSchema, field: Bytes, provider: Embed.Provider)

  predicate WellSet(e: Env, x: Setting) {
    Embed.SourcesAreText(e, x.cs) && x.field in x.cs.fields && Validation.EmbedSpecOf(e, x.cs.fields[x.field]).Some?
  }

  predicate Good(e: Env, x: Setting, data: Data)
    requires WellSet(e, x)
  {
    Embed.Matched(e, x.provider, x.cs, data, x.field)
  }

  predicate Here(x: Setting, req: Request) { IsWriteReq(req) && req.p == x.p && req.c == x.c }

  /** The merge leaves the document's text as it was: whenever the patch names no source, and also when it restates
      what is there. */
  predicate KeepsText(e: Env, x: Setting, existing: Data, updates: Data)
    requires WellSet(e, x)
  {
    Embed.TextFor(e, x.cs, Embed.Merge(existing, updates), x.field) == Embed.TextFor(e, x.cs, existing, x.field)
  }

  /** Clients leave the vector to the server, and pushes keep the collection's schema. */
  predicate RequestOk(e: Env, x: Setting, req: Request)
    requires WellSet(e, x)
  {
    && (Here(x, req) && (req.Insert? || req.Replace?) ==> !Embed.HasVector(req.data, x.field))
    && (Here(x, req) && req.Patch? ==> x.field !in req.updates)
    && (req.Push? && req.p == x.p ==> x.c in req.schema.collections && req.schema.collections[x.c] == x.cs)
  }

  /** A patch of this collection that is to store a plain merge, because its unlocked plan was empty. */
  predicate StoresPlainMerge(x: Setting, op: Op) {
    Here(x, op.req) && op.req.Patch? && !op.prep.embedded && op.prep.attempt < EMBED_RETRIES
  }

  /** The steps considered: the one provider answers, and a patch that stores a plain merge over another document than
      it planned against leaves the text of that document as it was. */
  ghost predicate Admits(e: Env, x: Setting, s: State, l: Label)
    requires WellSet(e, x)
  {
    match l
    case Begin(_, req) => RequestOk(e, x, req)
    case CallProvider(_, provider) => provider == Some(x.provider)
    case DecideNow(i, _, _, provider) => provider == Some(x.provider) && (i in s.ops ==> KeepsItsText(e, x, s.ops[i]))
    case _ => true
  }

  predicate KeepsItsText(e: Env, x: Setting, op: Op)
    requires WellSet(e, x)
  {
    StoresPlainMerge(x, op) && op.held.existing.Some? && op.held.existing.value.data != op.prep.early ==>
      KeepsText(e, x, op.held.existing.value.data, op.req.updates)
  }

  // ---- The invariant ----

  predicate StoreOk(e: Env, x: Setting, st: Store)
    requires WellSet(e, x)
  {
    && CollectionAt(st, x.p, x.c) == Some(x.cs)
    && forall k | k in st && k.DocKey? && k.p == x.p && k.c == x.c && st[k].DocVal? :: Good(e, x, st[k].doc.data)
  }

  /** What has been prepared, and what has been decided, is matched or cannot spoil a match. */
  predicate OpOk(e: Env, x: Setting, op: Op)
    requires WellSet(e, x)
  {
    && RequestOk(e, x, op.req)
    && (Here(x, op.req) ==>
          && ((op.pc.AdvDoc? || op.pc.EmbedCall?) ==> Collection(op.prep.advisory, x.c) == Some(x.cs))
          && (op.req.Patch? && HasEarly(op.pc) ==> Good(e, x, op.prep.early))
          && (IsPrepared(op.pc) ==> PreparedOk(e, x, op))
          && (IsDecided(op.pc) && op.held.doc.Some? ==> Good(e, x, op.held.doc.value.data)))
  }

  predicate PreparedOk(e: Env, x: Setting, op: Op)
    requires WellSet(e, x)
  {
    && (op.req.Insert? || op.req.Replace? ==> Good(e, x, op.prep.data))
    && (op.req.Patch? && op.prep.embedded ==> Good(e, x, op.prep.data))
    && (op.req.Patch? && !op.prep.embedded && op.prep.attempt < EMBED_RETRIES ==>
          Good(e, x, Embed.Merge(op.prep.early, op.req.updates)))
  }

  ghost predicate Matching(e: Env, x: Setting, s: State)
    requires WellSet(e, x)
  {
    && (forall n | 0 <= n < |s.stores| :: StoreOk(e, x, s.stores[n]))
    && (forall i | i in s.ops :: OpOk(e, x, s.ops[i]))
  }

  lemma StoredIsGood(e: Env, x: Setting, st: Store, id: Bytes)
    requires WellSet(e, x) && StoreOk(e, x, st)
    ensures DocAt(st, x.p, x.c, id).Some? ==> Good(e, x, DocAt(st, x.p, x.c, id).value.data)
  {
    if DocAt(st, x.p, x.c, id).Some? { assert DocKey(x.p, x.c, id) in st; }
  }

  // ---- Steps ----

  lemma OneMoved(e: Env, x: Setting, s: State, t: State, i: OpId)
    requires WellSet(e, x) && Matching(e, x, s) && t.stores == s.stores && i in t.ops && OpOk(e, x, t.ops[i])
    requires forall j | j in t.ops && j != i :: j in s.ops && t.ops[j] == s.ops[j]
    ensures Matching(e, x, t)
  {
    hide StoreOk, OpOk;
  }

  lemma AdvisoryOk(e: Env, x: Setting, st: Store, op: Op)
    requires WellSet(e, x) && StoreOk(e, x, st) && OpOk(e, x, op) && IsWriteReq(op.req)
    requires (op.pc.AdvSchema? || op.pc.AdvDoc?)
    requires GuardsFit(op) && (!op.req.Insert? ==> op.id == op.req.id)
    ensures OpOk(e, x, ReadStep(st, op))
  {
    hide Good, RequestOk, StoreOk;
    StoreSchema(e, x, st);
    StoredIsGood(e, x, st, op.id);
  }

  /** Reading under the guards changes neither what was prepared nor what was decided. */
  lemma LockedReadShape(st: Store, op: Op)
    requires IsWriteReq(op.req) && (op.pc.ReadSchema? || op.pc.ReadDoc? || op.pc.ReadStats?)
    ensures var b := ReadStep(st, op);
            && b.req == op.req && b.prep == op.prep && b.held.doc == op.held.doc
            && (b.pc.Failed? || (IsPrepared(b.pc) && (IsDecided(b.pc) <==> IsDecided(op.pc))))
  {
    hide SearchDefs, StatsAt, SchemaAt, DocAt, Coll;
  }

  lemma LockedReadOk(e: Env, x: Setting, st: Store, op: Op)
    requires WellSet(e, x) && OpOk(e, x, op) && IsWriteReq(op.req)
    requires (op.pc.ReadSchema? || op.pc.ReadDoc? || op.pc.ReadStats?)
    ensures OpOk(e, x, ReadStep(st, op))
  {
    hide Good, RequestOk, ReadStep;
    LockedReadShape(st, op);
  }

  lemma DropOk(e: Env, x: Setting, st: Store, op: Op)
    requires WellSet(e, x) && OpOk(e, x, op) && IsWriteReq(op.req) && (op.pc.DropStats? || op.pc.DropGuards?)
    ensures OpOk(e, x, ReadStep(st, op))
  {
    hide Good, RequestOk;
  }

  lemma ReadOk(e: Env, x: Setting, st: Store, op: Op)
    requires WellSet(e, x) && StoreOk(e, x, st) && OpOk(e, x, op) && IsWriteReq(op.req) && Reads(op.pc)
    requires GuardsFit(op) && (!op.req.Insert? ==> op.id == op.req.id)
    ensures OpOk(e, x, ReadStep(st, op))
  {
    hide OpOk, StoreOk, ReadStep, GuardsFit;
    match op.pc
    case AdvSchema => AdvisoryOk(e, x, st, op);
    case AdvDoc => AdvisoryOk(e, x, st, op);
    case ReadSchema => LockedReadOk(e, x, st, op);
    case ReadDoc => LockedReadOk(e, x, st, op);
    case ReadStats => LockedReadOk(e, x, st, op);
    case DropStats => DropOk(e, x, st, op);
    case DropGuards => DropOk(e, x, st, op);
  }

  lemma StoreSchema(e: Env, x: Setting, st: Store)
    requires WellSet(e, x) && StoreOk(e, x, st)
    ensures Collection(SchemaAt(st, x.p), x.c) == Some(x.cs)
  {}

  lemma AcquiredOk(e: Env, x: Setting, op: Op)
    requires WellSet(e, x) && OpOk(e, x, op) && Waits(op.pc)
    ensures OpOk(e, x, Acquired(op))
  {
    hide Good, RequestOk;
  }

  /** Stopping, and bookkeeping past the decision, need nothing. */
  lemma LaterOk(e: Env, x: Setting, op: Op, b: Op)
    requires WellSet(e, x) && OpOk(e, x, op) && b.req == op.req
    requires !HasEarly(b.pc) && !b.pc.AdvDoc?
    ensures OpOk(e, x, b)
  {
    hide Good, RequestOk;
  }

  lemma PreparedIsOk(e: Env, x: Setting, op: Op)
    requires WellSet(e, x) && OpOk(e, x, op) && Here(x, op.req) && op.pc.EmbedCall? && !op.req.Remove?
    requires op.req.Patch? || op.prep.data == op.req.data
    ensures var out := Prepare(e, op, Some(x.provider));
            out.Done? ==> PreparedOk(e, x, op.(prep := op.prep.(data := out.data, embedded := out.embedded)))
  {
    hide Validation.SchemaAccepts;
    if op.req.Patch? {
      PatchPrepared(e, x, op);
    } else if Embed.ApplyEmbeddings(e, Some(x.provider), Some(x.cs), op.req.data, None).Done? {
      Embed.WholeWriteMatches(e, x.provider, x.cs, op.req.data, x.field);
    }
  }

  lemma PatchPrepared(e: Env, x: Setting, op: Op)
    requires WellSet(e, x) && Here(x, op.req) && op.req.Patch? && x.field !in op.req.updates
    requires Good(e, x, op.prep.early)
    requires Collection(op.prep.advisory, x.c) == Some(x.cs)
    ensures var out := Prepare(e, op, Some(x.provider));
            && (out.Done? && out.embedded ==> Good(e, x, out.data))
            && (out.Done? && !out.embedded && op.prep.attempt < EMBED_RETRIES ==>
                  Good(e, x, Embed.Merge(op.prep.early, op.req.updates)))
  {
    hide Embed.ApplyEmbeddings, Embed.Matched;
    var ctx := Some(Embed.PatchContext(op.prep.early, op.req.updates));
    var merged := Embed.Merge(op.prep.early, op.req.updates);
    if Embed.ApplyEmbeddings(e, Some(x.provider), Some(x.cs), merged, ctx).Done? {
      Embed.PatchMatches(e, x.provider, x.cs, op.prep.early, op.req.updates, x.field);
      Embed.NotEmbeddedUnchanged(e, Some(x.provider), Some(x.cs), merged, ctx);
    }
  }

  lemma EmbeddedOk(e: Env, x: Setting, op: Op)
    requires WellSet(e, x) && OpOk(e, x, op) && op.pc.EmbedCall? && IsWriteReq(op.req) && !op.req.Remove?
    requires op.req.Patch? || op.prep.data == op.req.data
    ensures OpOk(e, x, EmbedStep(op, Prepare(e, op, Some(x.provider))))
  {
    hide Prepare, Good, RequestOk;
    if Here(x, op.req) { PreparedIsOk(e, x, op); }
  }

  /** The decision accepts only a document whose vector embeds its text. */
  lemma DecidedIsGood(e: Env, x: Setting, op: Op, time: nat)
    requires WellSet(e, x) && OpOk(e, x, op) && Here(x, op.req) && op.pc.Decide?
    requires (op.req.Insert? <==> op.held.existing.None?) && Collection(op.held.schema, x.c) == Some(x.cs)
    requires op.held.existing.Some? ==> Good(e, x, op.held.existing.value.data)
    requires op.req.Patch? && op.prep.attempt == EMBED_RETRIES ==> !op.prep.embedded
    requires op.prep.attempt <= EMBED_RETRIES && KeepsItsText(e, x, op)
    ensures var d := Judge(e, op, time, Some(x.provider)); d.Accept? && d.doc.Some? ==> Good(e, x, d.doc.value.data)
  {
    hide Embed.ApplyEmbeddings, Embed.Matched, Validation.SchemaAccepts, Allowed;
    if op.req.Patch? && !op.prep.embedded {
      var existing, updates := op.held.existing.value.data, op.req.updates;
      if op.prep.attempt == EMBED_RETRIES {
        var merged, ctx := Embed.Merge(existing, updates), Some(Embed.PatchContext(existing, updates));
        if Embed.ApplyEmbeddings(e, Some(x.provider), Some(x.cs), merged, ctx).Done? {
          Embed.PatchMatches(e, x.provider, x.cs, existing, updates, x.field);
        }
      } else if existing != op.prep.early {
        Embed.EmptyPlanPatchMatches(e, x.provider, x.cs, existing, updates, x.field);
      }
    }
  }

  lemma DecidedOk(e: Env, x: Setting, op: Op, decision: Decision)
    requires WellSet(e, x) && OpOk(e, x, op) && IsWriteReq(op.req) && op.pc.Decide?
    requires Here(x, op.req) && decision.Accept? && decision.doc.Some? ==> Good(e, x, decision.doc.value.data)
    ensures OpOk(e, x, DecideStep(op, decision))
  {
    hide Good, RequestOk;
  }

  lemma DecideMatching(e: Env, x: Setting, st: Store, used: set<Bytes>, op: Op, time: nat)
    requires WellSet(e, x) && StoreOk(e, x, st) && OpOk(e, x, op) && Typed(st)
    requires Facts(e, st, used, op) && IsWriteReq(op.req) && op.pc.Decide? && KeepsItsText(e, x, op)
    ensures op.req.Insert? <==> op.held.existing.None?
    ensures OpOk(e, x, DecideStep(op, Judge(e, op, time, Some(x.provider))))
  {
    hide Good, RequestOk, Judge, DecideStep, WriteOk, StoreOk, GuardsFit, PreparedOk;
    DecideInput(e, st, used, op);
    StoreSchema(e, x, st);
    StoredIsGood(e, x, st, op.id);
    if Here(x, op.req) { DecidedIsGood(e, x, op, time); }
    DecidedOk(e, x, op, Judge(e, op, time, Some(x.provider)));
  }

  /** A write of a good document, and a push that keeps the collection's schema, keep the store good. */
  lemma StoreKept(e: Env, x: Setting, before: Store, commit: Commit, after: Store)
    requires WellSet(e, x) && StoreOk(e, x, before) && Typed(before) && AtomicStep(e, before, commit, after)
    requires commit.WriteCommit? && Here(x, commit.req) && commit.now.Some? ==> Good(e, x, commit.now.value.data)
    requires commit.PushCommit? && commit.p == x.p ==>
               x.c in commit.schema.collections && commit.schema.collections[x.c] == x.cs
    ensures StoreOk(e, x, after)
  {
    hide AfterWrite, AfterPush, Good, WriteOk;
    match commit
    case WriteCommit(_, req, id, was, _, now, _) =>
      CommitIds(e, before, commit, after);
      WriteDocs(e, before, req.p, req.c, id, was, now);
      forall k | k in after && k.DocKey? && k.p == x.p && k.c == x.c && after[k].DocVal?
        ensures Good(e, x, after[k].doc.data)
      {
        assert DocAt(after, k.p, k.c, k.id) == Some(after[k].doc);
        StoredIsGood(e, x, before, k.id);
      }
      assert Look(after, MetaKey(x.p)) == Look(before, MetaKey(x.p));
    case PushCommit(_, p, schema, _) =>
      PushDocs(e, before, p, schema);
      forall k | k in after && k.DocKey? && k.p == x.p && k.c == x.c && after[k].DocVal?
        ensures Good(e, x, after[k].doc.data)
      {
        assert Look(after, DocKey(k.p, k.c, k.id)) == Look(before, DocKey(k.p, k.c, k.id));
      }
  }

  lemma OpOkSays(e: Env, x: Setting, op: Op)
    requires WellSet(e, x) && OpOk(e, x, op)
    ensures RequestOk(e, x, op.req)
    ensures Here(x, op.req) && op.pc.Sequence? && op.held.doc.Some? ==> Good(e, x, op.held.doc.value.data)
  {
    hide Good, RequestOk;
  }

  lemma AppendMatching(e: Env, x: Setting, s: State, i: OpId)
    requires WellSet(e, x) && Inv(e, s) && Matching(e, x, s) && i in s.ops && s.stores != [] && Next(e, s, Go(i)).Some?
    requires (IsWriteReq(s.ops[i].req) && s.ops[i].pc.Sequence?) || (s.ops[i].req.Push? && s.ops[i].pc.PushWrite?)
    ensures Matching(e, x, Next(e, s, Go(i)).value)
  {
    hide Inv, AtomicStep, StoreOk, Next, OpOk;
    AppendedCommit(e, s, i);
    var op, t := s.ops[i], Next(e, s, Go(i)).value;
    assert OpOk(e, x, op);
    OpOkSays(e, x, op);
    StoreKept(e, x, Now(s), t.log[|s.log|], Now(t));
    LaterOk(e, x, op, t.ops[i]);
    forall n | 0 <= n < |t.stores| ensures StoreOk(e, x, t.stores[n]) {
      if n < |s.stores| { assert t.stores[n] == s.stores[n]; }
    }
  }

  lemma GoWriteMatching(e: Env, x: Setting, s: State, i: OpId)
    requires WellSet(e, x) && Inv(e, s) && Matching(e, x, s) && i in s.ops && s.stores != [] && IsWriteReq(s.ops[i].req)
    requires GoWrite(e, s, i).Some?
    requires !s.ops[i].pc.Sequence?
    ensures Matching(e, x, GoWrite(e, s, i).value)
  {
    hide Inv, StoreOk, OpOk, ReadStep, Acquired, CanAcquire, Facts, Flushed, Stop;
    var op := s.ops[i];
    InvUnfold(e, s, i);
    assert OpOk(e, x, op) && StoreOk(e, x, Now(s));
    WriteIds(e, Now(s), s.used, op);
    if Reads(op.pc) {
      ReadOk(e, x, Now(s), op);
      OneMoved(e, x, s, GoWrite(e, s, i).value, i);
    } else if Waits(op.pc) {
      AcquiredOk(e, x, op);
      OneMoved(e, x, s, GoWrite(e, s, i).value, i);
    } else {
      WriteEndPlain(e, s, i);
      PlainMoveMatching(e, x, s, GoWrite(e, s, i).value, i);
    }
  }

  lemma WriteEndPlain(e: Env, s: State, i: OpId)
    requires i in s.ops && s.stores != [] && IsWriteReq(s.ops[i].req) && GoWrite(e, s, i).Some?
    requires !Reads(s.ops[i].pc) && !Waits(s.ops[i].pc) && !s.ops[i].pc.Sequence?
    ensures PlainMove(s, GoWrite(e, s, i).value, i)
  {
    hide Flushed, Stop;
    EndShapes(s.ops[i]);
  }

  lemma WriteIds(e: Env, st: Store, used: set<Bytes>, op: Op)
    requires Facts(e, st, used, op) && IsWriteReq(op.req)
    ensures GuardsFit(op) && (!op.req.Insert? ==> op.id == op.req.id)
    ensures op.pc.EmbedCall? && !op.req.Remove? ==> op.req.Patch? || op.prep.data == op.req.data
  {
    hide WriteOk, Prepared;
  }

  lemma EndShapes(op: Op)
    ensures Stop(op, Done).req == Stop(op, Failed).req == Flushed(op).req == op.req
    ensures Stop(op, Done).pc == Done && Stop(op, Failed).pc == Failed
    ensures Flushed(op).pc == if op.req.Push? then PushInvalidate else Invalidate
    ensures Failing(op).Some? ==>
              Failing(op).value.req == op.req && !HasEarly(Failing(op).value.pc) && !Failing(op).value.pc.AdvDoc?
  {}

  /** Only operation `i` moved, by a step that leaves the stores alone and ends outside the write phases. */
  ghost predicate PlainMove(s: State, t: State, i: OpId) {
    && i in s.ops && i in t.ops && t.stores == s.stores
    && (forall j | j in t.ops && j != i :: j in s.ops && t.ops[j] == s.ops[j])
    && t.ops[i].req == s.ops[i].req && !HasEarly(t.ops[i].pc) && !t.ops[i].pc.AdvDoc?
  }

  lemma PlainMoveMatching(e: Env, x: Setting, s: State, t: State, i: OpId)
    requires WellSet(e, x) && Matching(e, x, s) && PlainMove(s, t, i)
    ensures Matching(e, x, t)
  {
    hide StoreOk, OpOk;
    assert OpOk(e, x, s.ops[i]);
    LaterOk(e, x, s.ops[i], t.ops[i]);
    OneMoved(e, x, s, t, i);
  }

  lemma NotPrepared(pc: Pc)
    requires PushPc(pc)
    ensures !HasEarly(pc) && !pc.AdvDoc?
  {}

  lemma PushPlain(e: Env, s: State, i: OpId)
    requires i in s.ops && s.stores != [] && s.ops[i].req.Push? && GoPush(e, s, i).Some? && !s.ops[i].pc.PushWrite?
    ensures PlainMove(s, GoPush(e, s, i).value, i)
  {
    hide CanExclude, SchemaAt, Stop, Flushed, PushWriteStep, IsPrepared;
    EndShapes(s.ops[i]);
    NotPrepared(GoPush(e, s, i).value.ops[i].pc);
  }

  lemma VectorsPlain(s: State, i: OpId)
    requires i in s.ops && s.stores != [] && s.ops[i].req.Vectors? && GoVectors(s, i).Some?
    ensures PlainMove(s, GoVectors(s, i).value, i)
  {
    hide GoVectors;
    VectorsArePure(s, i);
  }

  lemma NextVectorPlain(e: Env, s: State, i: OpId, id: Bytes)
    requires Next(e, s, NextVector(i, id)).Some?
    ensures PlainMove(s, Next(e, s, NextVector(i, id)).value, i)
  {
    hide IsNextVector, VecAt;
  }

  lemma FailPlain(s: State, i: OpId)
    requires i in s.ops && FailStep(s, i).Some?
    ensures PlainMove(s, FailStep(s, i).value, i)
  {
    hide Failing;
    EndShapes(s.ops[i]);
  }

  lemma OtherGoMatching(e: Env, x: Setting, s: State, i: OpId)
    requires WellSet(e, x) && Matching(e, x, s) && i in s.ops && s.stores != [] && !IsWriteReq(s.ops[i].req)
    requires Next(e, s, Go(i)).Some? && !s.ops[i].pc.PushWrite?
    ensures Matching(e, x, Next(e, s, Go(i)).value)
  {
    hide Matching, GoPush, GoVectors, PlainMove;
    if s.ops[i].req.Push? { PushPlain(e, s, i); } else { VectorsPlain(s, i); }
    PlainMoveMatching(e, x, s, Next(e, s, Go(i)).value, i);
  }

  lemma NextMatching(e: Env, x: Setting, s: State, l: Label)
    requires WellSet(e, x) && Inv(e, s) && Matching(e, x, s) && Next(e, s, l).Some? && Admits(e, x, s, l)
    ensures Matching(e, x, Next(e, s, l).value)
  {
    hide Inv, Good, StoreOk, OpOk, GoWrite, GoPush, GoVectors, Prepare, Judge, DecideStep, EmbedStep, FailStep, Start;
    hide RequestOk, PlainMove, IsNextVector;
    match l
    case Begin(i, req) =>
      StartOk(e, x, s, req);
      OneMoved(e, x, s, Next(e, s, l).value, i);
    case Go(i) =>
      if (IsWriteReq(s.ops[i].req) && s.ops[i].pc.Sequence?) || (s.ops[i].req.Push? && s.ops[i].pc.PushWrite?) {
        AppendMatching(e, x, s, i);
      } else if IsWriteReq(s.ops[i].req) {
        GoWriteMatching(e, x, s, i);
      } else {
        VectorsNotPushing(e, s, i);
        OtherGoMatching(e, x, s, i);
      }
    case CallProvider(i, provider) =>
      InvUnfold(e, s, i);
      WriteIds(e, Now(s), s.used, s.ops[i]);
      EmbeddedOk(e, x, s.ops[i]);
      OneMoved(e, x, s, Next(e, s, l).value, i);
    case DecideNow(i, time, newId, provider) => DecideNowMatching(e, x, s, i, time, newId);
    case NextVector(i, id) =>
      NextVectorPlain(e, s, i, id);
      PlainMoveMatching(e, x, s, Next(e, s, l).value, i);
    case Fail(i) =>
      FailPlain(s, i);
      PlainMoveMatching(e, x, s, Next(e, s, l).value, i);
    case Durable(n) =>
    case Crash(n) => assert forall m | 0 <= m < n + 1 :: s.stores[..n + 1][m] == s.stores[m];
  }

  lemma VectorsNotPushing(e: Env, s: State, i: OpId)
    requires Inv(e, s) && i in s.ops && !IsWriteReq(s.ops[i].req) && !(s.ops[i].req.Push? && s.ops[i].pc.PushWrite?)
    ensures !s.ops[i].pc.PushWrite?
  {
    hide Inv, WriteReqFacts;
    InvUnfold(e, s, i);
  }

  lemma StartOk(e: Env, x: Setting, s: State, req: Request)
    requires WellSet(e, x) && RequestOk(e, x, req)
    ensures OpOk(e, x, Start(s, req))
  {
    hide Good, RequestOk;
  }

  lemma DecideNowMatching(e: Env, x: Setting, s: State, i: OpId, time: nat, newId: Bytes)
    requires WellSet(e, x) && Inv(e, s) && Matching(e, x, s)
    requires Next(e, s, DecideNow(i, time, newId, Some(x.provider))).Some? && KeepsItsText(e, x, s.ops[i])
    ensures Matching(e, x, Next(e, s, DecideNow(i, time, newId, Some(x.provider))).value)
  {
    hide Inv, Good, StoreOk, OpOk, Judge, DecideStep, Facts;
    var op := s.ops[i];
    InvUnfold(e, s, i);
    NowTyped(e, s);
    assert OpOk(e, x, op) && StoreOk(e, x, Now(s));
    if op.req.Insert? {
      NamedFacts(e, Now(s), s.used, op, newId);
      NamedOk(e, x, op, newId);
      DecideMatching(e, x, Now(s), s.used, op.(id := newId), time);
    } else {
      DecideMatching(e, x, Now(s), s.used, op, time);
    }
    OneMoved(e, x, s, Next(e, s, DecideNow(i, time, newId, Some(x.provider))).value, i);
  }

  lemma NamedOk(e: Env, x: Setting, op: Op, id: Bytes)
    requires WellSet(e, x) && OpOk(e, x, op)
    ensures OpOk(e, x, op.(id := id))
  {
    hide Good, RequestOk;
  }

  // ---- Runs ----

  ghost function RunUnder(e: Env, x: Setting, s: State, labels: seq<Label>): Option<State>
    requires WellSet(e, x)
  {
    if labels == [] then Some(s)
    else match RunUnder(e, x, s, labels[..|labels| - 1])
      case None => None
      case Some(t) => if Admits(e, x, t, labels[|labels| - 1]) then Next(e, t, labels[|labels| - 1]) else None
  }

  lemma {:induction false} RunMatching(e: Env, x: Setting, s: State, labels: seq<Label>)
    requires WellSet(e, x) && Inv(e, s) && Matching(e, x, s) && RunUnder(e, x, s, labels).Some?
    ensures Inv(e, RunUnder(e, x, s, labels).value) && Matching(e, x, RunUnder(e, x, s, labels).value)
  {
    hide Inv, Next, Matching, Admits;
    if labels != [] {
      var n := |labels| - 1;
      RunMatching(e, x, s, labels[..n]);
      var t := RunUnder(e, x, s, labels[..n]).value;
      NextKeeps(e, t, labels[n]);
      NextMatching(e, x, t, labels[n]);
    }
  }

  /** From a store whose vectors match, through any interleaving of admitted steps, crashes included, every
      document ever stored holds the embedding of its own text, and no vector when it has no text. */
  lemma TextAndVectorStayMatched(e: Env, x: Setting, s0: State, labels: seq<Label>, n: nat, id: Bytes)
    requires WellSet(e, x) && Initial(e, s0) && StoreOk(e, x, s0.stores[0])
    requires RunUnder(e, x, s0, labels).Some? && n < |RunUnder(e, x, s0, labels).value.stores|
    ensures var doc := DocAt(RunUnder(e, x, s0, labels).value.stores[n], x.p, x.c, id);
            doc.Some? ==> Embed.Matched(e, x.provider, x.cs, doc.value.data, x.field)
  {
    hide Inv, RunUnder, StoreOk;
    InitialInv(e, s0);
    RunMatching(e, x, s0, labels);
    StoredIsGood(e, x, RunUnder(e, x, s0, labels).value.stores[n], id);
  }

  /** The proviso is exact: where it fails of a patch that is accepted, and the provider tells texts apart, the
      document decided on is not matched. */
  lemma PlainMergeMatchesIff(e: Env, x: Setting, op: Op, time: nat)
    requires WellSet(e, x) && RequestOk(e, x, op.req) && StoresPlainMerge(x, op)
    requires op.held.existing.Some? && Good(e, x, op.held.existing.value.data)
    requires var spec := Validation.EmbedSpecOf(e, x.cs.fields[x.field]).value;
             Embed.TellsApart(e, x.provider, spec.model, spec.dims)
    ensures var d := Judge(e, op, time, Some(x.provider));
            d.Accept? ==>
              d.doc.Some?
              && (Good(e, x, d.doc.value.data) <==> KeepsText(e, x, op.held.existing.value.data, op.req.updates))
  {
    hide Embed.Matched, Embed.TellsApart, Embed.TextFor, Validation.SchemaAccepts, Allowed;
    Embed.EmptyPlanPatchMatches(e, x.provider, x.cs, op.held.existing.value.data, op.req.updates, x.field);
  }
}
