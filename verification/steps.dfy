/** Every step of the machine keeps its invariant, so every reachable state has it. */
module Steps {
  import opened ByteStrings
  import opened Values
  import opened Keys
  import opened Stores
  import opened Agreement
  import opened Machine
  import opened Safety
  import Embed
  import Validation

  // ---- A batch becomes visible ----

  function Committed(s: State, i: OpId, op: Op, after: Store, commit: Commit): State {
    Update(s, i, op).(stores := s.stores + [after], pending := s.pending + {|s.log|}, log := s.log + [commit])
  }

  lemma PendingGrows(s: State, i: OpId, op: Op, after: Store, commit: Commit)
    requires PendingOk(s) && i in s.ops && !AfterSequence(s.ops[i].pc)
    requires commit.who == i && op.index == |s.log| && AfterSequence(op.pc)
    ensures PendingOk(Committed(s, i, op, after, commit))
  {
    var s' := Committed(s, i, op, after, commit);
    forall n | n in s'.pending ensures PendingHas(s', n) { if n != |s.log| { assert PendingHas(s, n); } }
  }

  lemma CommitIsBy(commit: Commit, i: OpId, op: Op)
    requires IsCommitOf(commit, i, op)
    ensures commit.who == i
  {}

  lemma CommitStep(e: Env, s: State, i: OpId, op: Op, after: Store, commit: Commit)
    requires Inv(e, s) && i in s.ops && !AfterSequence(s.ops[i].pc)
    requires AtomicStep(e, Now(s), commit, after) && IsCommitOf(commit, i, op)
    requires Typed(after) && UsedOk(after, s.used)
    requires Facts(e, after, s.used, op) && op.index == |s.log| && (op.pc.DropStats? || op.pc.PushDurable?)
    requires op.scan.startLen <= |s.log|
    requires forall j | j in s.ops && j != i :: Facts(e, after, s.used, s.ops[j]) && Compatible(e, op, s.ops[j])
    ensures Inv(e, Committed(s, i, op, after, commit))
  {
    hide Facts, Compatible, AtomicStep, Typed, IsCommitOf, PendingOk;
    var s' := Committed(s, i, op, after, commit);
    assert Now(s') == after;
    forall n | 0 <= n < |s'.log| ensures AtomicStep(e, s'.stores[n], s'.log[n], s'.stores[n + 1]) {
      if n == |s.log| { assert s'.stores[n] == Now(s); }
    }
    forall j | j in s'.ops ensures Facts(e, Now(s'), s'.used, s'.ops[j]) && Placed(s', j, s'.ops[j]) {
      if j != i { assert Placed(s, j, s.ops[j]); }
    }
    forall a, b | a in s'.ops && b in s'.ops && a != b ensures Compatible(e, s'.ops[a], s'.ops[b]) {
      if b == i { CompatibleSymmetric(e, op, s.ops[a]); }
    }
    assert commit.who == i by { CommitIsBy(commit, i, op); }
    PendingGrows(s, i, op, after, commit);
    forall n | 0 <= n < |s'.stores| ensures UsedOk(s'.stores[n], s'.used) && Typed(s'.stores[n]) {
      if n < |s.stores| { assert UsedOk(s.stores[n], s.used) && Typed(s.stores[n]); }
    }
  }

  lemma SequencedFacts(e: Env, st: Store, after: Store, used: set<Bytes>, op: Op, index: nat)
    requires Facts(e, st, used, op) && IsWriteReq(op.req) && op.pc == Sequence
    ensures Facts(e, after, used, op.(pc := DropStats, index := index))
    ensures Eases(op, op.(pc := DropStats, index := index))
  {
    hide WriteOk, Follows;
  }

  lemma SequenceKeeps(e: Env, s: State, i: OpId)
    requires Inv(e, s) && i in s.ops && IsWriteReq(s.ops[i].req) && s.ops[i].pc == Sequence
    ensures SequenceStep(e, s, i).Some? && Inv(e, SequenceStep(e, s, i).value)
  {
    hide Facts, Compatible, AfterWrite, WriteEffect, WriteEffectWith, WriteOk, Eases;
    var op, st := s.ops[i], Now(s);
    assert Placed(s, i, op);
    var p, c := op.req.p, op.req.c;
    var after := AfterWrite(e, st, p, c, op.id, op.held.existing, op.held.doc);
    assert Typed(st) && UsedOk(st, s.used);
    BatchIsAtomic(e, st, s.used, op);
    WriteMoves(e, st, s.used, op);
    var op' := op.(pc := DropStats, index := |s.log|);
    SequencedFacts(e, st, after, s.used, op, |s.log|);
    forall j | j in s.ops && j != i ensures Facts(e, after, s.used, s.ops[j]) && Compatible(e, op', s.ops[j]) {
      OthersKeepFacts(e, st, s.used, op, s.ops[j]);
      FewerGuards(e, op, op', s.ops[j]);
    }
    var commit := WriteCommit(i, op.req, op.id, op.held.existing, op.held.judged, op.held.doc, op.prep.advisory);
    CommitStep(e, s, i, op', after, commit);
    AfterWriteIs(e, st, p, c, op.id, op.held.existing, op.held.doc);
    assert SequenceStep(e, s, i).value == Committed(s, i, op', after, commit);
  }

  lemma AfterWriteIs(e: Env, st: Store, p: Bytes, c: Bytes, id: Bytes, was: Option<Document>, now: Option<Document>)
    ensures AfterWrite(e, st, p, c, id, was, now) == Apply(st, WriteEffect(e, st, p, c, id, was, now))
  {}

  /** While a push holds the exclusive guard nobody else knows anything about the store. */
  lemma ExcludedKnowNothing(e: Env, st: Store, after: Store, used: set<Bytes>, op: Op, other: Op)
    requires Facts(e, st, used, other) && Compatible(e, op, other) && op.guards.schema == Exclusive
    ensures Facts(e, after, used, other)
  {
    hide WriteOk, Prepared;
  }

  lemma PushMoves(e: Env, st: Store, used: set<Bytes>, op: Op, index: nat)
    requires Facts(e, st, used, op) && op.req.Push? && op.pc == PushWrite && Typed(st) && UsedOk(st, used)
    ensures var after, op' := AfterPush(e, st, op.req.p, op.req.schema), op.(pc := PushDurable, index := index);
            && op.snap == st && op.guards.schema == Exclusive
            && WellNamed(op.req.schema) && op.req.spre(SchemaAt(st, op.req.p))
            && Typed(after) && UsedOk(after, used) && Facts(e, after, used, op') && Eases(op, op')
  {
    hide AfterPush, PushEffect;
    var after := AfterPush(e, st, op.req.p, op.req.schema);
    PushTyped(e, st, op.req.p, op.req.schema);
    PushDocs(e, st, op.req.p, op.req.schema);
    forall k | k in after && k.DocKey? ensures k.id in used {
      assert Look(after, DocKey(k.p, k.c, k.id)) == Look(st, DocKey(k.p, k.c, k.id));
    }
  }

  lemma PushWriteKeeps(e: Env, s: State, i: OpId)
    requires Inv(e, s) && i in s.ops && s.ops[i].req.Push? && s.ops[i].pc == PushWrite
    ensures Inv(e, PushWriteStep(e, s, i))
  {
    hide Compatible, AfterPush, PushEffect, Facts, Eases;
    var op, st := s.ops[i], Now(s);
    assert Placed(s, i, op);
    var p, schema := op.req.p, op.req.schema;
    assert Facts(e, st, s.used, op) && Typed(st) && UsedOk(st, s.used);
    var after := AfterPush(e, st, p, schema);
    PushMoves(e, st, s.used, op, |s.log|);
    var op' := op.(pc := PushDurable, index := |s.log|);
    forall j | j in s.ops && j != i ensures Facts(e, after, s.used, s.ops[j]) && Compatible(e, op', s.ops[j]) {
      ExcludedKnowNothing(e, st, after, s.used, op, s.ops[j]);
      FewerGuards(e, op, op', s.ops[j]);
    }
    var commit := PushCommit(i, p, schema, op.req.spre);
    CommitStep(e, s, i, op', after, commit);
    assert after == Apply(st, PushEffect(e, st, p, schema)) by { AfterPushIs(e, st, p, schema); }
    assert PushWriteStep(e, s, i) == Committed(s, i, op', after, commit);
  }

  lemma AfterPushIs(e: Env, st: Store, p: Bytes, schema: ProjectSchema)
    ensures AfterPush(e, st, p, schema) == Apply(st, PushEffect(e, st, p, schema))
  {}

  // ---- Bookkeeping that leaves operations alone ----

  /** Counters, cache and generation may move as long as what operations rely on about them holds. */
  lemma SharedStep(e: Env, s: State, s': State)
    requires Inv(e, s)
    requires s' == s.(durable := s'.durable, acked := s'.acked, pending := s'.pending, cache := s'.cache, gen := s'.gen)
    requires forall j | j in s.ops :: Placed(s', j, s.ops[j])
    requires s'.pending <= s.pending && CountersOk(s')
    ensures Inv(e, s')
  {
    hide Facts, Compatible, AtomicStep, Placed;
    forall n | n in s'.pending ensures PendingHas(s', n) { assert PendingHas(s, n); }
    assert Now(s') == Now(s);
  }

  lemma DurableKeeps(e: Env, s: State, n: nat)
    requires Inv(e, s) && s.durable <= n <= |s.log|
    ensures Inv(e, s.(durable := n))
  {
    hide Facts, Compatible, AtomicStep;
    var s' := s.(durable := n);
    forall j | j in s.ops ensures Placed(s', j, s.ops[j]) { assert Placed(s, j, s.ops[j]); }
    SharedStep(e, s, s');
  }

  // ---- Document writes ----

  ghost predicate SameWork(a: Op, b: Op) {
    b.req == a.req && b.id == a.id && b.prep == a.prep && b.held == a.held && b.index == a.index
  }

  /** The log entry an operation awaits stays its own. */
  ghost predicate KeepsPlace(a: Op, b: Op) {
    && b.scan.startLen == a.scan.startLen
    && (AfterSequence(a.pc) <==> AfterSequence(b.pc))
    && (AfterSequence(a.pc) ==> SameWork(a, b))
    && !(b.pc.PushInvalidate? || b.pc.PushUnlock? || (b.pc.Done? && IsWriter(b))) && !(b.pc.Invalidate? && b.flushed)
  }

  /** One operation moves on its own: its facts hold again and it takes no guard. */
  lemma OwnStep(e: Env, s: State, i: OpId, op: Op)
    requires Inv(e, s) && i in s.ops && KeepsPlace(s.ops[i], op)
    requires Facts(e, Now(s), s.used, op) && Eases(s.ops[i], op)
    ensures Inv(e, Update(s, i, op))
  {
    hide Facts, Compatible, AtomicStep, Eases;
    assert Placed(s, i, s.ops[i]);
    QuietStep(e, s, i, op);
  }

  ghost predicate Moves(a: Op, b: Op) { GuardsFit(b) && Eases(a, b) && KeepsPlace(a, b) && b.req == a.req }

  lemma ReadGuards(st: Store, op: Op)
    requires GuardsFit(op) && IsWriteReq(op.req)
    requires op.pc.AdvSchema? || op.pc.ReadSchema? || op.pc.ReadStats?
    ensures Moves(op, ReadStep(st, op))
  {
    hide DocAt, SchemaAt, StatsAt, SearchDefs;
  }

  lemma ReadDocGuards(st: Store, op: Op)
    requires GuardsFit(op) && IsWriteReq(op.req) && (op.pc.AdvDoc? || op.pc.ReadDoc?)
    ensures Moves(op, ReadStep(st, op))
  {
    hide DocAt, SearchDefs;
  }

  lemma DropGuardsFit(st: Store, op: Op)
    requires GuardsFit(op) && IsWriteReq(op.req) && (op.pc.DropStats? || op.pc.DropGuards?)
    ensures Moves(op, ReadStep(st, op))
  {
    hide SearchDefs;
  }

  lemma ReadStepGuards(st: Store, op: Op)
    requires GuardsFit(op) && IsWriteReq(op.req) && Reads(op.pc)
    ensures Moves(op, ReadStep(st, op))
  {
    hide GuardsFit, ReadStep, Moves;
    match op.pc
    case AdvSchema => ReadGuards(st, op);
    case AdvDoc => ReadDocGuards(st, op);
    case ReadSchema => ReadGuards(st, op);
    case ReadDoc => ReadDocGuards(st, op);
    case ReadStats => ReadGuards(st, op);
    case DropStats => DropGuardsFit(st, op);
    case DropGuards => DropGuardsFit(st, op);
  }

  lemma AdvisoryReadFacts(e: Env, st: Store, used: set<Bytes>, op: Op)
    requires WriteReqFacts(e, st, used, op) && (op.pc.AdvSchema? || op.pc.AdvDoc?) && (op.pc.AdvDoc? ==> op.req.Patch?)
    ensures WriteReqFacts(e, st, used, ReadStep(st, op))
  {
    hide WriteOk, Prepared;
  }

  lemma LockedReadFacts(e: Env, st: Store, used: set<Bytes>, op: Op)
    requires WriteReqFacts(e, st, used, op) && (op.pc.ReadSchema? || op.pc.ReadDoc?)
    requires op.pc.ReadDoc? ==> !op.req.Insert?
    ensures WriteReqFacts(e, st, used, ReadStep(st, op))
  {
    hide WriteOk, Follows, Embed.Merge;
  }

  lemma StatsReadFacts(e: Env, st: Store, used: set<Bytes>, op: Op)
    requires WriteReqFacts(e, st, used, op) && op.pc.ReadStats?
    ensures WriteReqFacts(e, st, used, ReadStep(st, op))
  {
    hide WriteOk, Follows, Embed.Merge;
    assert ReadStep(st, op).held.read == op.held.read || ReadStep(st, op).held.read[..|op.held.read|] == op.held.read;
  }

  lemma DropFacts(e: Env, st: Store, used: set<Bytes>, op: Op)
    requires WriteReqFacts(e, st, used, op) && (op.pc.DropStats? || op.pc.DropGuards?)
    ensures WriteReqFacts(e, st, used, ReadStep(st, op))
  {
    hide WriteOk, Prepared;
  }

  lemma ReadStepFacts(e: Env, st: Store, used: set<Bytes>, op: Op)
    requires Facts(e, st, used, op) && IsWriteReq(op.req) && Reads(op.pc)
    ensures Facts(e, st, used, ReadStep(st, op)) && Eases(op, ReadStep(st, op)) && KeepsPlace(op, ReadStep(st, op))
  {
    hide WriteReqFacts, ReadStep, Eases, KeepsPlace;
    ReadStepGuards(st, op);
    match op.pc
    case AdvSchema => AdvisoryReadFacts(e, st, used, op);
    case AdvDoc => AdvisoryReadFacts(e, st, used, op);
    case ReadSchema => LockedReadFacts(e, st, used, op);
    case ReadDoc => LockedReadFacts(e, st, used, op);
    case ReadStats => StatsReadFacts(e, st, used, op);
    case DropStats => DropFacts(e, st, used, op);
    case DropGuards => DropFacts(e, st, used, op);
  }

  lemma ReadKeeps(e: Env, s: State, i: OpId)
    requires Inv(e, s) && i in s.ops && IsWriteReq(s.ops[i].req) && Reads(s.ops[i].pc)
    ensures GoWrite(e, s, i).Some? && Inv(e, GoWrite(e, s, i).value)
  {
    hide Facts, Compatible, AtomicStep, Eases, KeepsPlace, ReadStep;
    ReadStepFacts(e, Now(s), s.used, s.ops[i]);
    OwnStep(e, s, i, ReadStep(Now(s), s.ops[i]));
  }

  lemma AcquiredGuards(op: Op)
    requires GuardsFit(op) && IsWriteReq(op.req) && Waits(op.pc)
    ensures GuardsFit(Acquired(op)) && KeepsPlace(op, Acquired(op)) && Acquired(op).req == op.req
  {}

  lemma AcquiredFacts(e: Env, st: Store, used: set<Bytes>, op: Op)
    requires Facts(e, st, used, op) && IsWriteReq(op.req) && Waits(op.pc)
    ensures Facts(e, st, used, Acquired(op)) && KeepsPlace(op, Acquired(op))
  {
    hide WriteOk, Follows, GuardsFit, KeepsPlace, Embed.Merge;
    AcquiredGuards(op);
  }

  lemma AcquiredCompatible(e: Env, s: State, i: OpId, j: OpId)
    requires i in s.ops && IsWriteReq(s.ops[i].req) && Waits(s.ops[i].pc) && CanAcquire(e, s, i)
    requires j in s.ops && j != i && Compatible(e, s.ops[i], s.ops[j])
    ensures Compatible(e, Acquired(s.ops[i]), s.ops[j])
  {}

  lemma AcquireKeeps(e: Env, s: State, i: OpId)
    requires Inv(e, s) && i in s.ops && IsWriteReq(s.ops[i].req) && Waits(s.ops[i].pc) && CanAcquire(e, s, i)
    ensures Inv(e, Update(s, i, Acquired(s.ops[i])))
  {
    hide Facts, Compatible, AtomicStep, CanAcquire, Acquired;
    var op := s.ops[i];
    AcquiredFacts(e, Now(s), s.used, op);
    forall j | j in s.ops && j != i ensures Compatible(e, Acquired(op), s.ops[j]) { AcquiredCompatible(e, s, i, j); }
    LocalStep(e, s, i, Acquired(op), s.used);
    assert Update(s, i, Acquired(op)).(used := s.used) == Update(s, i, Acquired(op));
  }

  lemma EmbedKeeps(e: Env, s: State, i: OpId, provider: Option<Embed.Provider>)
    requires Inv(e, s) && i in s.ops && IsWriteReq(s.ops[i].req) && s.ops[i].pc == EmbedCall && !s.ops[i].req.Remove?
    ensures Inv(e, Update(s, i, EmbedStep(s.ops[i], Prepare(e, s.ops[i], provider))))
  {
    hide Compatible, AtomicStep, Eases, Prepare, Facts, Follows;
    var op := s.ops[i];
    PreparedInput(e, Now(s), s.used, op);
    PrepareFollows(e, op, provider);
    EmbedKeepsFacts(e, Now(s), s.used, op, Prepare(e, op, provider));
    OwnStep(e, s, i, EmbedStep(op, Prepare(e, op, provider)));
  }

  lemma PreparedInput(e: Env, st: Store, used: set<Bytes>, op: Op)
    requires Facts(e, st, used, op) && IsWriteReq(op.req) && op.pc == EmbedCall && !op.req.Remove?
    ensures op.req.Patch? || op.prep.data == op.req.data
  {}

  lemma DecideInput(e: Env, st: Store, used: set<Bytes>, op: Op)
    requires Facts(e, st, used, op) && IsWriteReq(op.req) && op.pc == Decide && Typed(st)
    ensures (op.req.Insert? <==> op.held.existing.None?) && Prepared(e, op)
    ensures !op.req.Insert? ==> op.id == op.req.id && op.held.existing.value.id == op.id
  {
    hide WriteOk, Prepared;
  }

  lemma DecideKeeps(e: Env, s: State, i: OpId, time: nat, provider: Option<Embed.Provider>)
    requires Inv(e, s) && i in s.ops && IsWriteReq(s.ops[i].req) && s.ops[i].pc == Decide && !s.ops[i].req.Insert?
    ensures s.ops[i].held.existing.Some?
    ensures Inv(e, Update(s, i, DecideStep(s.ops[i], Judge(e, s.ops[i], time, provider))))
  {
    hide Facts, Compatible, AtomicStep, WriteOk, Prepared, Judge, DecideStep, KeepsPlace, Eases;
    var op := s.ops[i];
    DecideInput(e, Now(s), s.used, op);
    AcceptedIsOk(e, op, time, provider);
    RetryOnlyEmbedded(e, op, time, provider);
    DecideKeepsFacts(e, Now(s), s.used, op, Judge(e, op, time, provider));
    DecidedPlace(op, Judge(e, op, time, provider));
    OwnStep(e, s, i, DecideStep(op, Judge(e, op, time, provider)));
  }

  lemma RetryOnlyEmbedded(e: Env, op: Op, time: nat, provider: Option<Embed.Provider>)
    requires IsWriteReq(op.req) && (op.req.Insert? <==> op.held.existing.None?)
    ensures Judge(e, op, time, provider).Retry? ==> op.req.Patch? && op.prep.embedded
  {
    hide FinalData, Validation.SchemaAccepts, Allowed;
  }

  /** An insert takes an id no document and no other insert has. */
  lemma DecideInsertKeeps(e: Env, s: State, i: OpId, time: nat, newId: Bytes, provider: Option<Embed.Provider>)
    requires Inv(e, s) && i in s.ops && s.ops[i].req.Insert? && s.ops[i].pc == Decide && newId !in s.used
    ensures s.ops[i].held.existing.None?
    ensures var named := s.ops[i].(id := newId);
            Inv(e, Update(s, i, DecideStep(named, Judge(e, named, time, provider))).(used := s.used + {newId}))
  {
    hide Facts, Compatible, AtomicStep, WriteOk, Prepared, Judge, DecideStep;
    var op, st, used := s.ops[i], Now(s), s.used + {newId};
    var named := op.(id := newId);
    DecideInput(e, st, s.used, op);
    FactsGrow(e, st, s.used, used, op);
    InsertHoldsNoDoc(e, st, used, op);
    NamedFacts(e, st, used, op, newId);
    assert UsedOk(st, s.used);
    assert DocAt(st, op.req.p, op.req.c, newId) == None;
    AcceptedIsOk(e, named, time, provider);
    RetryOnlyEmbedded(e, named, time, provider);
    var d := DecideStep(named, Judge(e, named, time, provider));
    DecideKeepsFacts(e, st, used, named, Judge(e, named, time, provider));
    forall j | j in s.ops && j != i ensures Compatible(e, d, s.ops[j]) {
      assert Facts(e, st, s.used, s.ops[j]);
      InsertCompatible(e, s, op, newId, Judge(e, named, time, provider), s.ops[j]);
    }
    DecidedPlace(named, Judge(e, named, time, provider));
    LocalStep(e, s, i, d, used);
  }

  lemma InsertHoldsNoDoc(e: Env, st: Store, used: set<Bytes>, op: Op)
    requires Facts(e, st, used, op) && op.req.Insert?
    ensures !op.guards.doc
  {}

  lemma NamedFacts(e: Env, st: Store, used: set<Bytes>, op: Op, newId: Bytes)
    requires Facts(e, st, used, op) && op.req.Insert? && op.pc == Decide
    ensures Facts(e, st, used, op.(id := newId)) && Prepared(e, op.(id := newId))
  {
    hide WriteOk, Follows;
  }

  lemma DecidedPlace(op: Op, decision: Decision)
    requires IsWriteReq(op.req) && op.pc == Decide
    ensures KeepsPlace(op, DecideStep(op, decision))
    ensures !op.req.Insert? ==> Eases(op, DecideStep(op, decision))
  {}

  lemma InsertCompatible(e: Env, s: State, op: Op, newId: Bytes, decision: Decision, other: Op)
    requires s.stores != [] && Facts(e, Now(s), s.used, other) && Compatible(e, op, other)
    requires op.req.Insert? && op.pc == Decide && !op.guards.doc && newId !in s.used
    ensures Compatible(e, DecideStep(op.(id := newId), decision), other)
  {
    hide WriteOk, Prepared;
  }

  lemma FlushedFacts(e: Env, st: Store, used: set<Bytes>, op: Op)
    requires Facts(e, st, used, op) && ((op.pc.Flush? && IsWriteReq(op.req)) || (op.pc.PushDurable? && op.req.Push?))
    ensures Facts(e, st, used, Flushed(op)) && Eases(op, Flushed(op))
  {
    hide WriteOk, Prepared;
  }

  lemma FlushedPlace(s: State, i: OpId, op: Op, n: nat)
    requires Placed(s, i, op) && (op.pc.Flush? || op.pc.PushDurable?) && op.index < n
    requires op.pc.Flush? <==> !op.req.Push?
    ensures Placed(s.(durable := n), i, Flushed(op)) && AfterSequence(Flushed(op).pc) && Flushed(op).index == op.index
  {}

  lemma InvCounters(e: Env, s: State)
    requires Inv(e, s)
    ensures s.durable <= |s.log|
  {
    hide Facts, Compatible, AtomicStep;
  }

  lemma FlushIndex(s: State, i: OpId, op: Op)
    requires Placed(s, i, op) && (op.pc.Flush? || op.pc.PushDurable?)
    ensures op.index < |s.log|
  {}

  lemma FlushKeeps(e: Env, s: State, i: OpId)
    requires Inv(e, s) && i in s.ops
    requires (s.ops[i].pc.Flush? && IsWriteReq(s.ops[i].req)) || (s.ops[i].pc.PushDurable? && s.ops[i].req.Push?)
    ensures Inv(e, Update(s, i, Flushed(s.ops[i])).(durable := Max(s.durable, s.ops[i].index + 1)))
  {
    hide Inv, Placed, Facts, Eases, Flushed;
    var op := s.ops[i];
    InvUnfold(e, s, i);
    FlushIndex(s, i, op);
    InvCounters(e, s);
    var n := Max(s.durable, op.index + 1);
    DurableKeeps(e, s, n);
    var s1 := s.(durable := n);
    FlushedFacts(e, Now(s), s.used, op);
    FlushedPlace(s, i, op, n);
    QuietStep(e, s1, i, Flushed(op));
    assert Update(s1, i, Flushed(op)) == Update(s, i, Flushed(op)).(durable := n);
  }

  lemma FailedFlushFacts(e: Env, st: Store, used: set<Bytes>, op: Op)
    requires Facts(e, st, used, op) && (op.pc == Flush || op.pc == PushDurable)
    ensures Failing(op).Some?
    ensures Facts(e, st, used, Failing(op).value) && Eases(op, Failing(op).value) && KeepsPlace(op, Failing(op).value)
  {
    hide WriteOk, Prepared;
  }

  lemma StopKeepsPlace(op: Op)
    requires Unsequenced(op.pc)
    ensures KeepsPlace(op, Stop(op, Failed))
  {}

  lemma FailingFacts(e: Env, st: Store, used: set<Bytes>, op: Op)
    requires Facts(e, st, used, op) && Failing(op).Some?
    ensures Facts(e, st, used, Failing(op).value) && Eases(op, Failing(op).value) && KeepsPlace(op, Failing(op).value)
  {
    hide Facts, Eases, KeepsPlace, Stop;
    if Unsequenced(op.pc) {
      StopFacts(e, st, used, op);
      StopEases(op);
      StopKeepsPlace(op);
    } else {
      FailedFlushFacts(e, st, used, op);
    }
  }

  lemma FailKeeps(e: Env, s: State, i: OpId)
    requires Inv(e, s) && i in s.ops && FailStep(s, i).Some?
    ensures Inv(e, FailStep(s, i).value)
  {
    hide Compatible, AtomicStep, Facts, Eases, Failing, KeepsPlace;
    FailingFacts(e, Now(s), s.used, s.ops[i]);
    OwnStep(e, s, i, Failing(s.ops[i]).value);
  }

  /** Invalidation takes the operation's own log entry off the pending list, and only that. */
  lemma DroppedPending(s: State, t: State, i: OpId)
    requires PendingOk(s) && i in s.ops && i in t.ops && t.ops == s.ops[i := t.ops[i]] && t.log == s.log
    requires t.pending == s.pending - {s.ops[i].index}
    ensures PendingOk(t)
  {
    forall n | n in t.pending ensures PendingHas(t, n) { assert PendingHas(s, n); }
  }

  lemma PairsEase(e: Env, s: State, t: State, i: OpId)
    requires PairsOk(e, s) && i in s.ops && i in t.ops && t.ops == s.ops[i := t.ops[i]] && Eases(s.ops[i], t.ops[i])
    ensures PairsOk(e, t)
  {
    hide Compatible, Eases;
    forall a, b | a in t.ops && b in t.ops && a != b ensures Compatible(e, t.ops[a], t.ops[b]) {
      if a == i { FewerGuards(e, s.ops[i], t.ops[i], s.ops[b]); }
      if b == i { FewerGuards(e, s.ops[i], t.ops[i], s.ops[a]); CompatibleSymmetric(e, t.ops[i], s.ops[a]); }
    }
  }

  lemma InvalidateKeeps(e: Env, s: State, i: OpId, op: Op, p: Bytes, c: Option<Bytes>)
    requires Inv(e, s) && i in s.ops && AfterSequence(s.ops[i].pc)
    requires Facts(e, Now(s), s.used, op) && Eases(s.ops[i], op) && op.index == s.ops[i].index && !AfterSequence(op.pc)
    requires Placed(DropVectors(s, p, c, op.index), i, op)
    ensures Inv(e, Update(DropVectors(s, p, c, op.index), i, op))
  {
    hide Facts, Compatible, AtomicStep, Eases, PendingOk, PairsOk;
    var s' := Update(DropVectors(s, p, c, op.index), i, op);
    assert Placed(s, i, s.ops[i]);
    forall j | j in s'.ops ensures Facts(e, Now(s'), s'.used, s'.ops[j]) && Placed(s', j, s'.ops[j]) {
      if j != i { assert Facts(e, Now(s), s.used, s.ops[j]) && Placed(s, j, s.ops[j]); }
    }
    PairsEase(e, s, s', i);
    DroppedPending(s, s', i);
  }

  // ---- Acknowledging ----

  lemma FinishedFacts(e: Env, st: Store, used: set<Bytes>, op: Op, pc: Pc)
    requires Facts(e, st, used, op) && (op.pc.Invalidate? || op.pc.PushUnlock?) && (pc == Done || pc == Failed)
    ensures Facts(e, st, used, Stop(op, pc)) && Eases(op, Stop(op, pc))
  {
    hide WriteOk, Prepared;
  }

  /** A write drops its collection's cached vectors, then reports how its flush went. */
  lemma InvalidateWriteKeeps(e: Env, s: State, i: OpId)
    requires Inv(e, s) && i in s.ops && IsWriteReq(s.ops[i].req) && s.ops[i].pc == Invalidate
    ensures var op := s.ops[i]; Inv(e, Acknowledge(DropVectors(s, op.req.p, Some(op.req.c), op.index), i))
  {
    hide Facts, Compatible, AtomicStep, Eases, Inv;
    var op := s.ops[i];
    InvUnfold(e, s, i);
    var pc := if op.flushed then Done else Failed;
    FinishedFacts(e, Now(s), s.used, op, pc);
    if op.flushed {
      AckKeeps(e, s, op.index);
      InvalidateKeeps(e, s.(acked := s.acked + {op.index}), i, Stop(op, Done), op.req.p, Some(op.req.c));
    } else {
      InvalidateKeeps(e, s, i, Stop(op, Failed), op.req.p, Some(op.req.c));
    }
  }

  lemma AckKeeps(e: Env, s: State, index: nat)
    requires Inv(e, s) && index < s.durable
    ensures Inv(e, s.(acked := s.acked + {index}))
  {
    hide Facts, Compatible, AtomicStep;
    var s' := s.(acked := s.acked + {index});
    forall j | j in s.ops ensures Placed(s', j, s.ops[j]) { assert Placed(s, j, s.ops[j]); }
    SharedStep(e, s, s');
  }

  // ---- Schema pushes ----

  lemma PushStepFacts(e: Env, st: Store, used: set<Bytes>, op: Op)
    requires Facts(e, st, used, op) && op.req.Push?
    ensures op.pc == PushLock ==> Facts(e, st, used, op.(guards := op.guards.(schema := Exclusive), pc := PushCheck))
    ensures op.pc == PushCheck && op.req.spre(SchemaAt(st, op.req.p)) ==>
              Facts(e, st, used, op.(pc := PushScan)) && Eases(op, op.(pc := PushScan))
    ensures op.pc == PushScan ==>
              Facts(e, st, used, op.(snap := st, pc := PushWrite)) && Eases(op, op.(snap := st, pc := PushWrite))
    ensures op.pc == PushInvalidate ==>
              Facts(e, st, used, op.(pc := PushUnlock)) && Eases(op, op.(pc := PushUnlock))
  {
    hide SchemaAt;
  }

  lemma ExclusiveCompatible(e: Env, s: State, i: OpId, j: OpId)
    requires i in s.ops && s.ops[i].req.Push? && CanExclude(s, i) && j in s.ops && j != i
    requires Compatible(e, s.ops[i], s.ops[j])
    ensures Compatible(e, s.ops[i].(guards := s.ops[i].guards.(schema := Exclusive), pc := PushCheck), s.ops[j])
  {}

  lemma PushLockKeeps(e: Env, s: State, i: OpId)
    requires Inv(e, s) && i in s.ops && s.ops[i].req.Push? && s.ops[i].pc == PushLock && CanExclude(s, i)
    ensures Inv(e, Update(s, i, s.ops[i].(guards := s.ops[i].guards.(schema := Exclusive), pc := PushCheck)))
  {
    hide Facts, Compatible, AtomicStep, CanExclude, Inv;
    var op := s.ops[i];
    var op' := op.(guards := op.guards.(schema := Exclusive), pc := PushCheck);
    InvUnfold(e, s, i);
    PushStepFacts(e, Now(s), s.used, op);
    forall j | j in s.ops && j != i ensures Compatible(e, op', s.ops[j]) {
      InvPairs(e, s, i, j);
      ExclusiveCompatible(e, s, i, j);
    }
    LocalStep(e, s, i, op', s.used);
    assert Update(s, i, op').(used := s.used) == Update(s, i, op');
  }

  lemma InvPairs(e: Env, s: State, i: OpId, j: OpId)
    requires Inv(e, s) && i in s.ops && j in s.ops && i != j
    ensures Compatible(e, s.ops[i], s.ops[j])
  {
    hide Facts, Compatible, AtomicStep;
  }

  /** The project's cached vectors go before the exclusive guard does. */
  lemma PushInvalidateKeeps(e: Env, s: State, i: OpId)
    requires Inv(e, s) && i in s.ops && s.ops[i].req.Push? && s.ops[i].pc == PushInvalidate
    ensures var op := s.ops[i]; Inv(e, Update(DropVectors(s, op.req.p, None, op.index), i, op.(pc := PushUnlock)))
  {
    hide Facts, Compatible, AtomicStep, Eases, Inv;
    InvUnfold(e, s, i);
    PushStepFacts(e, Now(s), s.used, s.ops[i]);
    InvalidateKeeps(e, s, i, s.ops[i].(pc := PushUnlock), s.ops[i].req.p, None);
  }

  lemma PushUnlockKeeps(e: Env, s: State, i: OpId)
    requires Inv(e, s) && i in s.ops && s.ops[i].req.Push? && s.ops[i].pc == PushUnlock
    ensures Inv(e, Acknowledge(s, i))
  {
    hide Facts, Compatible, AtomicStep, Eases, Inv;
    var op := s.ops[i];
    InvUnfold(e, s, i);
    FinishedFacts(e, Now(s), s.used, op, Done);
    AckKeeps(e, s, op.index);
    QuietStep(e, s.(acked := s.acked + {op.index}), i, Stop(op, Done));
  }

  lemma GoPushKeeps(e: Env, s: State, i: OpId)
    requires Inv(e, s) && i in s.ops && s.ops[i].req.Push? && s.stores != [] && GoPush(e, s, i).Some?
    ensures Inv(e, GoPush(e, s, i).value)
  {
    hide Facts, Compatible, AtomicStep, Eases, Inv, KeepsPlace, CanExclude;
    var op, st := s.ops[i], Now(s);
    InvUnfold(e, s, i);
    PushStepFacts(e, st, s.used, op);
    match op.pc
    case PushLock => PushLockKeeps(e, s, i);
    case PushCheck =>
      if op.req.spre(SchemaAt(st, op.req.p)) { OwnPush(e, s, i, op.(pc := PushScan)); } else { StopStep(e, s, i); }
    case PushScan => OwnPush(e, s, i, op.(snap := st, pc := PushWrite));
    case PushWrite => PushWriteKeeps(e, s, i);
    case PushDurable => FlushKeeps(e, s, i);
    case PushInvalidate => PushInvalidateKeeps(e, s, i);
    case PushUnlock => PushUnlockKeeps(e, s, i);
    case _ =>
  }

  lemma OwnPush(e: Env, s: State, i: OpId, op: Op)
    requires Inv(e, s) && i in s.ops && (s.ops[i].pc.PushCheck? || s.ops[i].pc.PushScan?)
    requires (op.pc.PushScan? || op.pc.PushWrite?)
    requires Facts(e, Now(s), s.used, op) && Eases(s.ops[i], op) && op.scan.startLen == s.ops[i].scan.startLen
    ensures Inv(e, Update(s, i, op))
  {
    hide Facts, Compatible, AtomicStep, Eases, Inv;
    OwnStep(e, s, i, op);
  }

  // ---- Vector reads ----

  lemma VectorMoves(e: Env, st: Store, used: set<Bytes>, op: Op, op': Op)
    requires Facts(e, st, used, op) && op.req.Vectors? && op'.req == op.req && op'.guards == op.guards
    requires VectorPc(op'.pc)
    requires !op.pc.Done?
    ensures Facts(e, st, used, op') && Eases(op, op')
  {}

  /** Whatever a vector read does to itself, the cache or the generation, the invariant does not mind. */
  lemma VectorKeeps(e: Env, s: State, i: OpId, op: Op, cache: map<CacheKey, VectorSet>)
    requires Inv(e, s) && i in s.ops && s.ops[i].req.Vectors? && op.req == s.ops[i].req && op.guards == s.ops[i].guards
    requires VectorPc(op.pc) && VectorPc(s.ops[i].pc) && !s.ops[i].pc.Done?
    requires op.scan.startLen == s.ops[i].scan.startLen
    ensures Inv(e, Update(s, i, op).(cache := cache))
  {
    hide Facts, Compatible, AtomicStep, Eases, Inv;
    InvUnfold(e, s, i);
    VectorMoves(e, Now(s), s.used, s.ops[i], op);
    QuietStep(e, s, i, op);
    CacheKeeps(e, Update(s, i, op), cache);
  }

  lemma CacheKeeps(e: Env, s: State, cache: map<CacheKey, VectorSet>)
    requires Inv(e, s)
    ensures Inv(e, s.(cache := cache))
  {
    hide Facts, Compatible, AtomicStep;
    var s' := s.(cache := cache);
    forall j | j in s.ops ensures Placed(s', j, s.ops[j]) { assert Placed(s, j, s.ops[j]); }
    SharedStep(e, s, s');
  }

  lemma VectorsArePure(s: State, i: OpId)
    requires s.stores != [] && i in s.ops && s.ops[i].req.Vectors? && GoVectors(s, i).Some?
    ensures var s' := GoVectors(s, i).value;
            && i in s'.ops && s'.ops[i].req == s.ops[i].req && s'.ops[i].guards == s.ops[i].guards
            && VectorPc(s'.ops[i].pc) && VectorPc(s.ops[i].pc) && !s.ops[i].pc.Done?
            && s'.ops[i].scan.startLen == s.ops[i].scan.startLen
            && s' == Update(s, i, s'.ops[i]).(cache := s'.cache)
  {}

  lemma NextVectorKeeps(e: Env, s: State, i: OpId, id: Bytes, v: seq<bits32>)
    requires Inv(e, s) && i in s.ops && s.ops[i].req.Vectors? && s.ops[i].pc == VecScan
    ensures var op := s.ops[i];
            Inv(e, Update(s, i, op.(scan := op.scan.(pos := Some(id), seen := op.scan.seen[id := v]))))
  {
    hide Facts, Compatible, AtomicStep, Inv;
    var op := s.ops[i];
    var op' := op.(scan := op.scan.(pos := Some(id), seen := op.scan.seen[id := v]));
    VectorKeeps(e, s, i, op', s.cache);
    assert Update(s, i, op').(cache := s.cache) == Update(s, i, op');
  }

  // ---- Beginning and crashing ----

  lemma StartFacts(e: Env, s: State, req: Request, other: Op)
    requires s.stores != [] && (req.Push? ==> WellNamed(req.schema))
    ensures Facts(e, Now(s), s.used, Start(s, req))
    ensures GuardsFit(other) ==> Compatible(e, Start(s, req), other) && Compatible(e, other, Start(s, req))
    ensures !AfterSequence(Start(s, req).pc) && Start(s, req).pc != Done && Start(s, req).pc != PushUnlock
    ensures Start(s, req).scan.startLen == |s.log|
  {
    hide Follows;
  }

  lemma BeginKeeps(e: Env, s: State, i: OpId, req: Request)
    requires Inv(e, s) && i !in s.ops && (req.Push? ==> WellNamed(req.schema)) && s.stores != []
    ensures Inv(e, Update(s, i, Start(s, req)))
  {
    hide Facts, Compatible, AtomicStep, Start;
    var op := Start(s, req);
    var s' := Update(s, i, op);
    StartFacts(e, s, req, op);
    forall j | j in s'.ops ensures Facts(e, Now(s'), s'.used, s'.ops[j]) && Placed(s', j, s'.ops[j]) {
      if j != i { assert Placed(s, j, s.ops[j]); }
    }
    forall a, b | a in s'.ops && b in s'.ops && a != b ensures Compatible(e, s'.ops[a], s'.ops[b]) {
      if a == i { FactsFit(e, Now(s), s.used, s.ops[b]); StartFacts(e, s, req, s.ops[b]); }
      if b == i { FactsFit(e, Now(s), s.used, s.ops[a]); StartFacts(e, s, req, s.ops[a]); }
    }
    forall n | n in s'.pending ensures PendingHas(s', n) { assert PendingHas(s, n); }
  }

  lemma FactsFit(e: Env, st: Store, used: set<Bytes>, op: Op)
    requires Facts(e, st, used, op)
    ensures GuardsFit(op)
  {}

  /** Recovery starts from a durable prefix: every acknowledged batch is in it, and nothing is in flight. */
  lemma CrashKeeps(e: Env, s: State, n: nat)
    requires Inv(e, s) && CrashStep(s, n).Some?
    ensures Inv(e, CrashStep(s, n).value)
  {
    hide Facts, Compatible, AtomicStep;
    var s' := CrashStep(s, n).value;
    forall m | 0 <= m < |s'.log| ensures AtomicStep(e, s'.stores[m], s'.log[m], s'.stores[m + 1]) {
      assert AtomicStep(e, s.stores[m], s.log[m], s.stores[m + 1]);
    }
  }

  // ---- Every step ----

  lemma GoWriteKeeps(e: Env, s: State, i: OpId)
    requires Inv(e, s) && s.stores != [] && i in s.ops && IsWriteReq(s.ops[i].req) && GoWrite(e, s, i).Some?
    ensures Inv(e, GoWrite(e, s, i).value)
  {
    hide Inv, ReadStep, Acquired, CanAcquire, SequenceStep, Flushed, Acknowledge, DropVectors;
    if Reads(s.ops[i].pc) {
      ReadKeeps(e, s, i);
    } else if Waits(s.ops[i].pc) {
      AcquireKeeps(e, s, i);
    } else {
      match s.ops[i].pc
      case Sequence => SequenceKeeps(e, s, i);
      case Flush => FlushKeeps(e, s, i);
      case Invalidate => InvalidateWriteKeeps(e, s, i);
      case _ =>
    }
  }

  lemma GoVectorsKeeps(e: Env, s: State, i: OpId)
    requires Inv(e, s) && s.stores != [] && i in s.ops && s.ops[i].req.Vectors? && GoVectors(s, i).Some?
    ensures Inv(e, GoVectors(s, i).value)
  {
    hide Inv, GoVectors;
    VectorsArePure(s, i);
    var s' := GoVectors(s, i).value;
    VectorKeeps(e, s, i, s'.ops[i], s'.cache);
  }

  /** Every step of every interleaving keeps the invariant. */
  lemma NextKeeps(e: Env, s: State, l: Label)
    requires Inv(e, s) && Next(e, s, l).Some?
    ensures Inv(e, Next(e, s, l).value)
  {
    hide Inv, GoWrite, GoPush, GoVectors, CrashStep, FailStep, EmbedStep, Prepare, Judge, DecideStep, Start;
    match l
    case Begin(i, req) => BeginKeeps(e, s, i, req);
    case Go(i) =>
      if s.ops[i].req.Push? { GoPushKeeps(e, s, i); }
      else if s.ops[i].req.Vectors? { GoVectorsKeeps(e, s, i); }
      else { GoWriteKeeps(e, s, i); }
    case CallProvider(i, provider) => EmbedKeeps(e, s, i, provider);
    case DecideNow(i, time, newId, provider) =>
      if s.ops[i].req.Insert? {
        DecideInsertKeeps(e, s, i, time, newId, provider);
      } else {
        DecideKeeps(e, s, i, time, provider);
      }
    case NextVector(i, id) =>
      var req := s.ops[i].req;
      NextVectorKeeps(e, s, i, id, VecAt(Now(s), req.p, req.c, req.name, id).value);
    case Fail(i) => FailKeeps(e, s, i);
    case Durable(n) => DurableKeeps(e, s, n);
    case Crash(n) => CrashKeeps(e, s, n);
  }

  lemma InitialInv(e: Env, s: State)
    requires Initial(e, s)
    ensures Inv(e, s)
  {
  }

  lemma {:induction false} RunKeeps(e: Env, s: State, labels: seq<Label>)
    requires Inv(e, s) && Run(e, s, labels).Some?
    ensures Inv(e, Run(e, s, labels).value)
  {
    hide Inv, Next;
    if labels != [] {
      var n := |labels| - 1;
      RunKeeps(e, s, labels[..n]);
      NextKeeps(e, Run(e, s, labels[..n]).value, labels[n]);
    }
  }

  /** The invariant holds in every reachable state: any number of operations, any interleaving, any failures
      and crashes, any shard hash. */
  lemma ReachableInv(e: Env, s: State)
    requires Reachable(e, s)
    ensures Inv(e, s)
  {
    hide Inv, Initial, Run;
    var s0, labels :| Initial(e, s0) && Run(e, s0, labels) == Some(s);
    InitialInv(e, s0);
    RunKeeps(e, s0, labels);
  }

  /** A step that appends a batch appends its operation's own commit. */
  lemma AppendedCommit(e: Env, s: State, i: OpId)
    requires Inv(e, s) && i in s.ops && s.stores != [] && Next(e, s, Go(i)).Some?
    requires (IsWriteReq(s.ops[i].req) && s.ops[i].pc.Sequence?) || (s.ops[i].req.Push? && s.ops[i].pc.PushWrite?)
    ensures var op, t := s.ops[i], Next(e, s, Go(i)).value;
            && |t.stores| == |s.stores| + 1 && s.stores <= t.stores && |t.log| == |s.log| + 1 && s.log <= t.log
            && |s.stores| == |s.log| + 1
            && AtomicStep(e, Now(s), t.log[|s.log|], Now(t)) && Typed(Now(s))
            && i in t.ops && t.ops == s.ops[i := t.ops[i]] && t.ops[i].req == op.req && !HasEarly(t.ops[i].pc)
            && !t.ops[i].pc.AdvDoc?
            && (op.req.Push? ==> t.log[|s.log|] == PushCommit(i, op.req.p, op.req.schema, op.req.spre))
            && (!op.req.Push? ==>
                  && t.log[|s.log|].WriteCommit? && t.log[|s.log|].req == op.req && t.log[|s.log|].id == op.id
                  && t.log[|s.log|].was == op.held.existing && t.log[|s.log|].now == op.held.doc)
  {
    hide Inv, AtomicStep, WriteEffectWith, PushEffect;
    NextKeeps(e, s, Go(i));
    NowTyped(e, s);
    LastStep(e, s, Next(e, s, Go(i)).value);
  }

  lemma LastStep(e: Env, s: State, t: State)
    requires Inv(e, t) && |t.log| == |s.log| + 1 && |s.stores| == |s.log| + 1 && s.stores <= t.stores
    ensures AtomicStep(e, Now(s), t.log[|s.log|], Now(t))
  {
    hide Facts, Compatible, AtomicStep;
    assert AtomicStep(e, t.stores[|s.log|], t.log[|s.log|], t.stores[|s.log| + 1]);
  }
}
