/** An id is used once: what an insert stores is new in the whole history, so a document's life is one interval. */
module Lives {
  import opened ByteStrings
  import opened Values
  import opened Keys
  import opened Stores
  import opened Agreement
  import opened Machine
  import opened Safety
  import opened Steps
  import opened Consistency
  import Embed

  predicate Unheld(st: Store, id: Bytes) {
    forall k | k in st && k.DocKey? :: k.id != id
  }

  predicate IsInsert(commit: Commit) { commit.WriteCommit? && commit.req.Insert? }

  predicate DecidedInsert(op: Op) { op.req.Insert? && IsDecided(op.pc) }

  predicate NeverHeld(stores: seq<Store>, n: nat, id: Bytes) {
    forall m | 0 <= m < n && m < |stores| :: Unheld(stores[m], id)
  }

  /** What inserts stored, and what decided inserts are about to, was in no store before. */
  predicate FreshInserts(s: State) {
    && (forall n | 0 <= n < |s.log| && IsInsert(s.log[n]) :: NeverHeld(s.stores, n + 1, s.log[n].id))
    && (forall i | i in s.ops && DecidedInsert(s.ops[i]) :: NeverHeld(s.stores, |s.stores|, s.ops[i].id))
  }

  // ---- Every step keeps it ----

  /** Nothing was appended and nothing newly decided. */
  ghost predicate Calm(s: State, t: State) {
    && t.stores == s.stores && t.log == s.log
    && forall j | j in t.ops && DecidedInsert(t.ops[j]) ::
         j in s.ops && DecidedInsert(s.ops[j]) && s.ops[j].id == t.ops[j].id
  }

  lemma CalmKeeps(s: State, t: State)
    requires FreshInserts(s) && Calm(s, t)
    ensures FreshInserts(t)
  {
    hide NeverHeld;
  }

  lemma OwnCalm(s: State, t: State, i: OpId)
    requires t.stores == s.stores && t.log == s.log && i in s.ops && i in t.ops && t.ops == s.ops[i := t.ops[i]]
    requires DecidedInsert(t.ops[i]) ==> DecidedInsert(s.ops[i]) && s.ops[i].id == t.ops[i].id
    ensures Calm(s, t)
  {
    hide DecidedInsert;
  }

  lemma EasesCalm(a: Op, b: Op)
    requires Eases(a, b)
    ensures DecidedInsert(b) ==> DecidedInsert(a) && a.id == b.id
  {}

  lemma AcquiredCalm(op: Op)
    requires Waits(op.pc)
    ensures DecidedInsert(Acquired(op)) ==> DecidedInsert(op) && op.id == Acquired(op).id
  {}

  lemma EndCalm(op: Op, outcome: Embed.Outcome)
    ensures !DecidedInsert(Stop(op, Done)) && !DecidedInsert(Stop(op, Failed)) && !DecidedInsert(Flushed(op))
    ensures !DecidedInsert(EmbedStep(op, outcome))
    ensures Failing(op).Some? ==> !DecidedInsert(Failing(op).value)
  {}

  lemma GoWriteCalm(e: Env, s: State, i: OpId)
    requires Inv(e, s) && s.stores != [] && i in s.ops && IsWriteReq(s.ops[i].req) && GoWrite(e, s, i).Some?
    requires !s.ops[i].pc.Sequence?
    ensures Calm(s, GoWrite(e, s, i).value)
  {
    hide Inv, ReadStep, Acquired, CanAcquire, Facts, Flushed, Stop, Eases, DecidedInsert, Calm;
    var op := s.ops[i];
    InvUnfold(e, s, i);
    if Reads(op.pc) {
      ReadStepFacts(e, Now(s), s.used, op);
      EasesCalm(op, ReadStep(Now(s), op));
    } else if Waits(op.pc) {
      AcquiredCalm(op);
    } else {
      EndCalm(op, Embed.Failed);
    }
    OwnCalm(s, GoWrite(e, s, i).value, i);
  }

  lemma GoPushCalm(e: Env, s: State, i: OpId)
    requires s.stores != [] && i in s.ops && s.ops[i].req.Push? && GoPush(e, s, i).Some? && !s.ops[i].pc.PushWrite?
    ensures Calm(s, GoPush(e, s, i).value)
  {
    hide CanExclude, SchemaAt, Stop, Flushed, PushWriteStep, Calm;
    PushReqs(s.ops[i]);
    OwnCalm(s, GoPush(e, s, i).value, i);
  }

  lemma PushReqs(op: Op)
    ensures Stop(op, Done).req == Stop(op, Failed).req == Flushed(op).req == op.req
  {}

  lemma GoVectorsCalm(s: State, i: OpId)
    requires s.stores != [] && i in s.ops && s.ops[i].req.Vectors? && GoVectors(s, i).Some?
    ensures Calm(s, GoVectors(s, i).value)
  {
    hide GoVectors, Calm;
    VectorsArePure(s, i);
    OwnCalm(s, GoVectors(s, i).value, i);
  }

  /** After a batch an id that no store held and the batch did not write is still unheld. */
  lemma AppendUnheld(e: Env, before: Store, commit: Commit, after: Store, id: Bytes)
    requires AtomicStep(e, before, commit, after) && Typed(before) && Unheld(before, id)
    requires IsInsert(commit) ==> commit.id != id
    ensures Unheld(after, id)
  {
    hide AfterWrite, AfterPush, AtomicStep, WriteOk;
    forall k | k in after && k.DocKey? ensures k.id != id {
      AppendedDoc(e, before, commit, after, k);
      if k !in before && !IsInsert(commit) { WroteExisting(e, before, commit, after); }
    }
  }

  lemma WroteExisting(e: Env, before: Store, commit: Commit, after: Store)
    requires AtomicStep(e, before, commit, after) && commit.WriteCommit? && !commit.req.Insert?
    ensures DocKey(commit.req.p, commit.req.c, commit.id) in before
  {}

  /** A document key in the new store was there before or is the one written. */
  lemma AppendedDoc(e: Env, before: Store, commit: Commit, after: Store, k: Key)
    requires AtomicStep(e, before, commit, after) && Typed(before) && k in after && k.DocKey?
    ensures k in before || (commit.WriteCommit? && k.id == commit.id)
  {
    hide AfterWrite, AfterPush, WriteOk;
    match commit
    case WriteCommit(_, req, id, was, _, now, _) =>
      CommitIds(e, before, commit, after);
      WriteDocs(e, before, req.p, req.c, id, was, now);
      assert DocAt(after, k.p, k.c, k.id).Some?;
    case PushCommit(_, p, schema, _) =>
      PushDocs(e, before, p, schema);
      assert Look(after, DocKey(k.p, k.c, k.id)) == Look(before, DocKey(k.p, k.c, k.id));
  }

  lemma DistinctInserts(e: Env, a: Op, b: Op)
    requires Compatible(e, a, b) && DecidedInsert(a) && DecidedInsert(b)
    ensures a.id != b.id
  {}

  lemma AppendKeeps(e: Env, s: State, i: OpId)
    requires Inv(e, s) && FreshInserts(s) && i in s.ops && s.stores != [] && Next(e, s, Go(i)).Some?
    requires (IsWriteReq(s.ops[i].req) && s.ops[i].pc.Sequence?) || (s.ops[i].req.Push? && s.ops[i].pc.PushWrite?)
    ensures FreshInserts(Next(e, s, Go(i)).value)
  {
    hide Inv, AtomicStep, Next, Unheld, Compatible;
    AppendedCommit(e, s, i);
    var op, t := s.ops[i], Next(e, s, Go(i)).value;
    var commit := t.log[|s.log|];
    assert forall n | 0 <= n < |s.log| :: t.log[n] == s.log[n];
    assert forall m | 0 <= m < |s.stores| :: t.stores[m] == s.stores[m];
    forall j | j in t.ops && DecidedInsert(t.ops[j]) ensures NeverHeld(t.stores, |t.stores|, t.ops[j].id) {
      if IsInsert(commit) {
        InvPairs(e, s, i, j);
        DistinctInserts(e, op, s.ops[j]);
      }
      AppendUnheld(e, Now(s), commit, Now(t), s.ops[j].id);
    }
  }

  lemma DecideKeeps(e: Env, s: State, i: OpId, time: nat, newId: Bytes, provider: Option<Embed.Provider>)
    requires Inv(e, s) && FreshInserts(s) && Next(e, s, DecideNow(i, time, newId, provider)).Some?
    ensures FreshInserts(Next(e, s, DecideNow(i, time, newId, provider)).value)
  {
    hide Inv, Judge, DecideStep, NeverHeld;
    var t := Next(e, s, DecideNow(i, time, newId, provider)).value;
    var op := s.ops[i];
    var named := if op.req.Insert? then op.(id := newId) else op;
    DecidedId(named, Judge(e, named, time, provider));
    NewIdUnheld(e, s, newId);
    forall j | j in t.ops && DecidedInsert(t.ops[j]) ensures NeverHeld(t.stores, |t.stores|, t.ops[j].id) {}
  }

  lemma DecidedId(op: Op, decision: Decision)
    requires IsWriteReq(op.req)
    ensures DecideStep(op, decision).id == op.id && DecideStep(op, decision).req == op.req
  {}

  lemma NewIdUnheld(e: Env, s: State, newId: Bytes)
    requires Inv(e, s)
    ensures newId !in s.used ==> NeverHeld(s.stores, |s.stores|, newId)
  {
    hide Facts, Compatible, AtomicStep;
    if newId !in s.used {
      forall m | 0 <= m < |s.stores| ensures Unheld(s.stores[m], newId) { assert UsedOk(s.stores[m], s.used); }
    }
  }

  lemma NextFresh(e: Env, s: State, l: Label)
    requires Inv(e, s) && FreshInserts(s) && Next(e, s, l).Some?
    ensures FreshInserts(Next(e, s, l).value)
  {
    hide Inv, FreshInserts, GoWrite, GoPush, GoVectors, Prepare, Judge, DecideStep, EmbedStep, Failing, IsNextVector;
    hide Calm, CrashStep;
    var t := Next(e, s, l).value;
    match l
    case Go(i) =>
      if (IsWriteReq(s.ops[i].req) && s.ops[i].pc.Sequence?) || (s.ops[i].req.Push? && s.ops[i].pc.PushWrite?) {
        AppendKeeps(e, s, i);
      } else {
        if s.ops[i].req.Push? { GoPushCalm(e, s, i); }
        else if s.ops[i].req.Vectors? { GoVectorsCalm(s, i); }
        else { GoWriteCalm(e, s, i); }
        CalmKeeps(s, t);
      }
    case DecideNow(i, time, newId, provider) => DecideKeeps(e, s, i, time, newId, provider);
    case Crash(n) => CrashFresh(s, n);
    case _ =>
      OtherCalm(e, s, l);
      CalmKeeps(s, t);
  }

  lemma OtherCalm(e: Env, s: State, l: Label)
    requires Next(e, s, l).Some? && (l.Begin? || l.CallProvider? || l.NextVector? || l.Fail? || l.Durable?)
    ensures Calm(s, Next(e, s, l).value)
  {
    hide Prepare, EmbedStep, Failing, IsNextVector, VecAt;
    match l
    case CallProvider(i, provider) => EndCalm(s.ops[i], Prepare(e, s.ops[i], provider));
    case Fail(i) => EndCalm(s.ops[i], Embed.Failed);
    case _ =>
  }

  lemma CrashFresh(s: State, n: nat)
    requires FreshInserts(s) && CrashStep(s, n).Some?
    ensures FreshInserts(CrashStep(s, n).value)
  {
    hide Unheld;
    var t := CrashStep(s, n).value;
    assert forall m | 0 <= m < n :: t.log[m] == s.log[m];
    assert forall m | 0 <= m < n + 1 :: t.stores[m] == s.stores[m];
  }

  lemma {:induction false} RunFresh(e: Env, s: State, labels: seq<Label>)
    requires Inv(e, s) && FreshInserts(s) && Run(e, s, labels).Some?
    ensures FreshInserts(Run(e, s, labels).value)
  {
    hide Inv, Next, FreshInserts;
    if labels != [] {
      var n := |labels| - 1;
      RunFresh(e, s, labels[..n]);
      RunKeeps(e, s, labels[..n]);
      NextFresh(e, Run(e, s, labels[..n]).value, labels[n]);
    }
  }

  /** The id an insert commits was held by no document of any collection in any store before it. */
  lemma InsertsAreFresh(e: Env, s: State, n: nat, m: nat)
    requires Reachable(e, s) && n < |s.log| && IsInsert(s.log[n]) && m <= n && m < |s.stores|
    ensures Unheld(s.stores[m], s.log[n].id)
  {
    hide Inv, Run, Unheld;
    var s0, labels :| Initial(e, s0) && Run(e, s0, labels) == Some(s);
    InitialInv(e, s0);
    RunFresh(e, s0, labels);
  }

  // ---- One life ----

  /** Where a document that was missing at `n` and is there at `b` was created. */
  lemma {:induction false} Creation(e: Env, s: State, p: Bytes, c: Bytes, id: Bytes, n: nat, b: nat) returns (q: nat)
    requires Serial(e, s) && AllTyped(s) && n <= b <= |s.log|
    requires DocAt(s.stores[n], p, c, id).None? && DocAt(s.stores[b], p, c, id).Some?
    ensures n <= q < b && IsInsert(s.log[q]) && s.log[q].id == id
  {
    hide AtomicStep;
    if DocAt(s.stores[b - 1], p, c, id).Some? {
      q := Creation(e, s, p, c, id, n, b - 1);
    } else {
      q := b - 1;
      var before, commit, after := s.stores[q], s.log[q], s.stores[b];
      assert AtomicStep(e, before, commit, after) && Typed(before);
      if !Writes(commit, p, c, id) { OthersKeepDoc(e, before, commit, after, p, c, id); }
      CreatedByInsert(e, before, commit, after, p, c, id);
    }
  }

  lemma CreatedByInsert(e: Env, before: Store, commit: Commit, after: Store, p: Bytes, c: Bytes, id: Bytes)
    requires AtomicStep(e, before, commit, after) && Typed(before) && Writes(commit, p, c, id)
    requires DocAt(before, p, c, id).None?
    ensures IsInsert(commit) && commit.id == id
  {}

  /** Present at two moments, a document is present at every moment between: deletion is final. */
  lemma OneLife(e: Env, s: State, p: Bytes, c: Bytes, id: Bytes, a: nat, n: nat, b: nat)
    requires Reachable(e, s) && a <= n <= b < |s.stores|
    requires DocAt(s.stores[a], p, c, id).Some? && DocAt(s.stores[b], p, c, id).Some?
    ensures DocAt(s.stores[n], p, c, id).Some?
  {
    hide Reachable, Serial, AllTyped;
    ReachableSerial(e, s);
    SerialLength(e, s);
    assert DocKey(p, c, id) in s.stores[a];
    if DocAt(s.stores[n], p, c, id).None? {
      var q := Creation(e, s, p, c, id, n, b);
      InsertsAreFresh(e, s, q, a);
    }
  }

  lemma SerialLength(e: Env, s: State)
    requires Serial(e, s)
    ensures |s.stores| == |s.log| + 1
  {
    hide AtomicStep;
  }

  /** Its creation time is the same at any two of them: replacing and patching keep it. */
  lemma {:induction false} CreatedOnce(e: Env, s: State, p: Bytes, c: Bytes, id: Bytes, a: nat, b: nat)
    requires Reachable(e, s) && a <= b < |s.stores|
    requires DocAt(s.stores[a], p, c, id).Some? && DocAt(s.stores[b], p, c, id).Some?
    ensures DocAt(s.stores[a], p, c, id).value.createdAt == DocAt(s.stores[b], p, c, id).value.createdAt
    decreases b
  {
    hide Reachable, AtomicStep, DocAt;
    if a < b {
      OneLife(e, s, p, c, id, a, b - 1, b);
      CreatedOnce(e, s, p, c, id, a, b - 1);
      ReachableSerial(e, s);
      SerialLength(e, s);
      var before, commit, after := s.stores[b - 1], s.log[b - 1], s.stores[b];
      assert AtomicStep(e, before, commit, after) && Typed(before);
      if Writes(commit, p, c, id) {
        WriterSetsDoc(e, before, commit, after, p, c, id);
        KeepsCreation(e, before, commit, after);
      } else {
        OthersKeepDoc(e, before, commit, after, p, c, id);
      }
    }
  }

  lemma KeepsCreation(e: Env, before: Store, commit: Commit, after: Store)
    requires AtomicStep(e, before, commit, after) && commit.WriteCommit? && commit.was.Some? && commit.now.Some?
    ensures commit.now.value.createdAt == commit.was.value.createdAt
  {}
}
