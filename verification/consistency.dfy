/** What the machine's invariant means to a client: serialisability, index agreement, exact statistics and
    recovery after a crash. */
module Consistency {
  import opened ByteStrings
  import opened Values
  import opened Keys
  import opened Fts
  import opened Stores
  import opened Agreement
  import opened Machine
  import opened Safety
  import opened Steps
  import Intent

  // ---- Serialisability ----

  /** One committed operation run alone on a store. */
  ghost function RunAlone(e: Env, st: Store, commit: Commit): Store {
    match commit
    case WriteCommit(_, req, id, _, _, now, _) =>
      if IsWriteReq(req) then AfterWrite(e, st, req.p, req.c, id, DocAt(st, req.p, req.c, id), now) else st
    case PushCommit(_, p, schema, _) => AfterPush(e, st, p, schema)
  }

  ghost function Replay(e: Env, st: Store, log: seq<Commit>): Store {
    if log == [] then st else RunAlone(e, Replay(e, st, log[..|log| - 1]), log[|log| - 1])
  }

  /** Every interleaving leaves the store that running the committed operations one at a time, in sequencing
      order, leaves; and each was permitted and valid when judged against the schema and document just before its own
      batch. What an insert, replacement or patch stored is exactly what its request asks over the document it found,
      with the vectors a provider's answers give it under a schema that had been in force: the one it read before
      locking or, for a patch that embeds under its locks, the one just before its own batch. */
  lemma Serialisable(e: Env, s: State, n: nat)
    requires Reachable(e, s) && n <= |s.log|
    ensures |s.stores| == |s.log| + 1
    ensures s.stores[n] == Replay(e, s.stores[0], s.log[..n])
    ensures n < |s.log| ==> AtomicStep(e, s.stores[n], s.log[n], s.stores[n + 1])
    ensures n < |s.log| && s.log[n].WriteCommit? && Intent.IsStore(s.log[n].req) ==>
              var c := s.log[n];
              exists m :: Intent.StoresAsked(e, s.stores, c.req, c.advisory, c.was, c.now, m, n)
  {
    hide AtomicStep, Intent.StoresAsked, Reachable;
    ReachableInv(e, s);
    ReplayStores(e, s, n);
    Intent.ReachableIntended(e, s);
    if n < |s.log| { assert Intent.CommitIntent(e, s.stores, s.log[n], n); }
  }

  /** In particular a field no schema up to then declared for embedding is stored as asked, and a write to a
      collection no schema declared stores exactly its data. */
  lemma AskedFieldsStored(e: Env, s: State, n: nat, field: Bytes)
    requires Reachable(e, s) && n < |s.log| < |s.stores| && s.log[n].WriteCommit? && Intent.IsStore(s.log[n].req)
    requires forall m | 0 <= m <= n :: !Fillable(e, CollectionAt(s.stores[m], s.log[n].req.p, s.log[n].req.c), field)
    ensures (s.log[n].req.Patch? ==> s.log[n].was.Some?) && s.log[n].now.Some?
    ensures Get(s.log[n].now.value.data, field) ==
            var req := s.log[n].req;
            if !req.Patch? then Get(req.data, field)
            else if field in req.updates then Some(req.updates[field])
            else Get(s.log[n].was.value.data, field)
  {
    hide Reachable, Fillable, Intent.Embeds, AtomicStep;
    Serialisable(e, s, n);
    var c := s.log[n];
    var m: nat :| Intent.StoresAsked(e, s.stores, c.req, c.advisory, c.was, c.now, m, n);
    var was, data := OptData(c.was), c.now.value.data;
    if Intent.Embeds(e, CollectionAt(s.stores[m], c.req.p, c.req.c), c.req, was, data) {
      Intent.EmbedsFollows(e, CollectionAt(s.stores[m], c.req.p, c.req.c), c.req, was, data);
    } else {
      Intent.EmbedsFollows(e, CollectionAt(s.stores[n], c.req.p, c.req.c), c.req, was, data);
    }
  }

  lemma {:induction false} ReplayStores(e: Env, s: State, n: nat)
    requires Serial(e, s) && n <= |s.log|
    ensures s.stores[n] == Replay(e, s.stores[0], s.log[..n])
  {
    hide WriteOk, AfterWrite, AfterPush;
    if n > 0 {
      ReplayStores(e, s, n - 1);
      assert s.log[..n][..n - 1] == s.log[..n - 1];
      assert AtomicStep(e, s.stores[n - 1], s.log[n - 1], s.stores[n]);
    }
  }

  /** The order is real-time order: an operation's commit lies between its beginning and its success, so one that
      begins after another returned comes after it in the log. The schema it embedded under was in force between the
      two, and it stored exactly what it judged unless it is a patch on its last attempt. */
  lemma CommitsWithinOperation(e: Env, s: State, i: OpId)
    requires Reachable(e, s) && i in s.ops && s.ops[i].pc == Done && !s.ops[i].req.Vectors?
    ensures s.ops[i].scan.startLen <= s.ops[i].index < |s.log| && IsCommitOf(s.log[s.ops[i].index], i, s.ops[i])
    ensures forall req :: s.ops[i].index < Start(s, req).scan.startLen
    ensures Intent.IsStore(s.ops[i].req) ==>
              var op, c := s.ops[i], s.log[s.ops[i].index];
              && c.WriteCommit?
              && (exists m :: op.scan.startLen <= m
                    && Intent.StoresAsked(e, s.stores, op.req, c.advisory, c.was, c.now, m, op.index))
              && (!Intent.LastAttempt(op) ==> c.now.Some? && c.now.value.data == c.judged)
  {
    hide Facts, Compatible, AtomicStep, Reachable, Intent.StoresAsked;
    ReachableInv(e, s);
    assert Placed(s, i, s.ops[i]);
    Intent.ReachableIntended(e, s);
    Intent.IntendedOp(e, s, i);
  }

  // ---- Racing transfers ----

  /** A write its precondition lets through only while the field holds `from`, and only if it takes the
      field away from it. */
  ghost predicate Transfers(req: Request, field: Bytes, from: Value) {
    && (req.Replace? || req.Patch?)
    && forall ctx | req.pre(ctx) ::
         && ctx.existing.Some? && Get(ctx.existing.value, field) == Some(from)
         && ctx.next.Some? && Get(ctx.next.value, field) != Some(from)
  }

  predicate Writes(commit: Commit, p: Bytes, c: Bytes, id: Bytes) {
    commit.WriteCommit? && commit.req.p == p && IsWriteReq(commit.req) && commit.req.c == c && commit.id == id
  }

  lemma OthersKeepDoc(e: Env, before: Store, commit: Commit, after: Store, p: Bytes, c: Bytes, id: Bytes)
    requires AtomicStep(e, before, commit, after) && Typed(before) && !Writes(commit, p, c, id)
    ensures DocAt(after, p, c, id) == DocAt(before, p, c, id)
  {
    hide AfterWrite, AfterPush;
    match commit
    case WriteCommit(_, req, id', was, _, now, _) => WriteDocs(e, before, req.p, req.c, id', was, now);
    case PushCommit(_, p', schema, _) =>
      PushDocs(e, before, p', schema);
      assert Look(after, DocKey(p, c, id)) == Look(before, DocKey(p, c, id));
  }

  lemma WriterSetsDoc(e: Env, before: Store, commit: Commit, after: Store, p: Bytes, c: Bytes, id: Bytes)
    requires AtomicStep(e, before, commit, after) && Typed(before) && Writes(commit, p, c, id)
    ensures DocAt(before, p, c, id) == commit.was && DocAt(after, p, c, id) == commit.now
  {
    hide AfterWrite;
    WriteDocs(e, before, p, c, id, commit.was, commit.now);
  }

  lemma ReachableSerial(e: Env, s: State)
    requires Reachable(e, s)
    ensures Serial(e, s) && AllTyped(s)
  {
    hide Reachable, OpsOk, PairsOk, PendingOk, CountersOk, AllUsedOk, Serial, AllTyped;
    ReachableInv(e, s);
  }

  predicate Holds(doc: Option<Document>, field: Bytes, from: Value) {
    doc.Some? && Get(doc.value.data, field) == Some(from)
  }

  /** A write of the document that leaves the field holding the value. */
  predicate PutsBack(commit: Commit, p: Bytes, c: Bytes, id: Bytes, field: Bytes, from: Value) {
    Writes(commit, p, c, id) && Holds(commit.now, field, from)
  }

  /** Of any number of racing "only while alice owns it" transfers of a document at most one commits: between
      two that did, some write that is not such a transfer put the value back. */
  lemma TransferOnce(e: Env, s: State, p: Bytes, c: Bytes, id: Bytes, field: Bytes, from: Value, a: nat, b: nat)
    requires Reachable(e, s) && a < b < |s.log| < |s.stores|
    requires Writes(s.log[a], p, c, id) && Transfers(s.log[a].req, field, from)
    requires Writes(s.log[b], p, c, id) && Transfers(s.log[b].req, field, from)
    requires !Fillable(e, CollectionAt(s.stores[a], p, c), field)
    ensures exists n :: a < n < b && PutsBack(s.log[n], p, c, id, field, from) && !Transfers(s.log[n].req, field, from)
  {
    hide Serial, AllTyped, Transfers, Fillable, Reachable, PutsBack;
    ReachableSerial(e, s);
    TransferEffect(e, s, p, c, id, field, from, a);
    TransferNeeds(e, s, p, c, id, field, from, b);
    var n := FirstPutBack(s, p, c, id, field, from, a + 1, b);
    NotPutBack(e, s, p, c, id, field, from, a + 1, n);
    PutBackWrites(s.log[n], p, c, id, field, from);
    if Transfers(s.log[n].req, field, from) { TransferNeeds(e, s, p, c, id, field, from, n); }
  }

  lemma PutBackWrites(commit: Commit, p: Bytes, c: Bytes, id: Bytes, field: Bytes, from: Value)
    ensures PutsBack(commit, p, c, id, field, from) ==> Writes(commit, p, c, id)
  {}

  /** The first write from `a` on that puts the value back, or `b` if none before it does. */
  lemma FirstPutBack(s: State, p: Bytes, c: Bytes, id: Bytes, field: Bytes, from: Value, a: nat,
                     b: nat) returns (n: nat)
    requires a <= b < |s.log|
    ensures a <= n <= b && (n < b ==> PutsBack(s.log[n], p, c, id, field, from))
    ensures forall m | a <= m < n :: !PutsBack(s.log[m], p, c, id, field, from)
    decreases b - a
  {
    hide PutsBack;
    if a == b || PutsBack(s.log[a], p, c, id, field, from) {
      n := a;
    } else {
      n := FirstPutBack(s, p, c, id, field, from, a + 1, b);
    }
  }

  /** Until some write puts it back the value stays away. */
  lemma {:induction false} NotPutBack(e: Env, s: State, p: Bytes, c: Bytes, id: Bytes, field: Bytes, from: Value,
                                      a: nat, b: nat)
    requires Serial(e, s) && AllTyped(s) && a <= b <= |s.log|
    requires forall m | a <= m < b :: !PutsBack(s.log[m], p, c, id, field, from)
    requires !Holds(DocAt(s.stores[a], p, c, id), field, from)
    ensures !Holds(DocAt(s.stores[b], p, c, id), field, from)
  {
    hide AtomicStep, Holds, DocAt;
    if a < b {
      NotPutBack(e, s, p, c, id, field, from, a, b - 1);
      assert AtomicStep(e, s.stores[b - 1], s.log[b - 1], s.stores[b]) && Typed(s.stores[b - 1]);
      if Writes(s.log[b - 1], p, c, id) {
        WriterSetsDoc(e, s.stores[b - 1], s.log[b - 1], s.stores[b], p, c, id);
      } else {
        OthersKeepDoc(e, s.stores[b - 1], s.log[b - 1], s.stores[b], p, c, id);
      }
    }
  }

  lemma TransferEffect(e: Env, s: State, p: Bytes, c: Bytes, id: Bytes, field: Bytes, from: Value, n: nat)
    requires Serial(e, s) && AllTyped(s) && n < |s.log|
    requires Writes(s.log[n], p, c, id) && Transfers(s.log[n].req, field, from)
    requires !Fillable(e, CollectionAt(s.stores[n], p, c), field)
    ensures !Holds(DocAt(s.stores[n + 1], p, c, id), field, from)
  {
    var commit := s.log[n];
    assert AtomicStep(e, s.stores[n], commit, s.stores[n + 1]) && Typed(s.stores[n]);
    WriterSetsDoc(e, s.stores[n], commit, s.stores[n + 1], p, c, id);
    assert WriteOk(e, CollectionAt(s.stores[n], p, c), commit.req, id, commit.was, commit.judged, commit.now,
                   commit.advisory);
    assert Get(commit.now.value.data, field) == Get(commit.judged, field);
  }

  lemma TransferNeeds(e: Env, s: State, p: Bytes, c: Bytes, id: Bytes, field: Bytes, from: Value, n: nat)
    requires Serial(e, s) && AllTyped(s) && n < |s.log|
    requires Writes(s.log[n], p, c, id) && Transfers(s.log[n].req, field, from)
    ensures Holds(DocAt(s.stores[n], p, c, id), field, from)
  {
    var commit := s.log[n];
    assert AtomicStep(e, s.stores[n], commit, s.stores[n + 1]) && Typed(s.stores[n]);
    WriterSetsDoc(e, s.stores[n], commit, s.stores[n + 1], p, c, id);
  }

  // ---- Index agreement and exact statistics ----

  /** Fewer than 2^32 documents in the collection. */
  ghost predicate FewDocs(st: Store, p: Bytes, c: Bytes) { |Ids(st, p, c)| < 0x1_0000_0000 }

  lemma {:induction false} SumBound(m: map<Bytes, nat>)
    requires forall k | k in m :: m[k] <= MAX32
    ensures Sum(m) <= |m| * MAX32
  {
    if m != map[] {
      var k :| k in m && Sum(m) == m[k] + Sum(m - {k});
      SumBound(m - {k});
      assert (m - {k}).Keys == m.Keys - {k};
      assert |m - {k}| == |m| - 1;
    }
  }

  /** With fewer than 2^32 documents no statistic can saturate. */
  lemma FewDocsFit(e: Env, st: Store, p: Bytes, c: Bytes)
    requires FewDocs(st, p, c)
    ensures Fits(e, st, p, c)
  {
    forall index ensures FitsStats(ExactStats(e, st, p, c, index)) {
      var m := Lengths(e, st, p, c, index);
      SumBound(m);
      assert m.Keys == Ids(st, p, c);
      assert |m| == |Ids(st, p, c)| < 0x1_0000_0000;
      assert |m| * MAX32 <= 0xFFFF_FFFF * MAX32;
    }
  }

  lemma StepKeepsEntries(e: Env, before: Store, commit: Commit, after: Store)
    requires AtomicStep(e, before, commit, after) && EntriesAgree(e, before)
    ensures EntriesAgree(e, after)
  {
    hide AfterWrite, AfterPush, EntriesAgree;
    match commit
    case WriteCommit(_, req, id, was, _, now, _) => WriteKeepsEntries(e, before, req.p, req.c, id, was, now);
    case PushCommit(_, p, schema, _) =>
      EntriesUnfold(e, before, p);
      PushKeepsEntries(e, before, p, schema);
  }

  lemma EntriesUnfold(e: Env, st: Store, p: Bytes)
    requires EntriesAgree(e, st)
    ensures Typed(st) && forall k | PerDocument(k) && k.p != p :: Look(st, k) == Expected(e, st, k)
  {}

  lemma {:induction false} EntriesAlong(e: Env, s: State, n: nat)
    requires Serial(e, s) && n < |s.stores| && EntriesAgree(e, s.stores[0])
    ensures EntriesAgree(e, s.stores[n])
  {
    hide AtomicStep, EntriesAgree;
    if n > 0 {
      EntriesAlong(e, s, n - 1);
      assert AtomicStep(e, s.stores[n - 1], s.log[n - 1], s.stores[n]);
      StepKeepsEntries(e, s.stores[n - 1], s.log[n - 1], s.stores[n]);
    }
  }

  /** The commit replaces or deletes a document of the collection. */
  predicate TakesOut(commit: Commit, p: Bytes, c: Bytes) {
    commit.WriteCommit? && IsWriteReq(commit.req) && commit.req.p == p && commit.req.c == c && commit.was.Some?
  }

  /** A commit keeps a search index's statistics equal to their recomputation, unless it takes a document out of
      a collection of 2^32 or more; a push makes them so. */
  lemma StepKeepsStats(e: Env, before: Store, commit: Commit, after: Store, p: Bytes, c: Bytes, name: Bytes)
    requires AtomicStep(e, before, commit, after) && Typed(before)
    requires StatsCurrent(e, before, p, c, name) || (commit.PushCommit? && commit.p == p)
    requires TakesOut(commit, p, c) ==> FewDocs(before, p, c)
    ensures StatsCurrent(e, after, p, c, name)
  {
    hide AfterWrite, AfterPush, FewDocs, Fits, Expected, WriteOk;
    var k := StatsKey(p, c, name);
    match commit
    case WriteCommit(_, req, id, was, _, now, _) =>
      CommitIds(e, before, commit, after);
      if TakesOut(commit, p, c) { FewDocsFit(e, before, p, c); }
      WriteStats(e, before, req.p, req.c, id, was, now, k);
    case PushCommit(_, p', schema, _) => PushCurrent(e, before, p', schema, k);
  }

  /** Between the two points documents left the collection only while it held fewer than 2^32. */
  ghost predicate FewWhenTaken(s: State, p: Bytes, c: Bytes, m: nat, n: nat)
    requires n <= |s.log| && n <= |s.stores|
  {
    forall i | m <= i < n && TakesOut(s.log[i], p, c) :: FewDocs(s.stores[i], p, c)
  }

  /** Statistics were right at a point: as found when the database was opened, or just after a push. */
  ghost predicate StatsRightAt(e: Env, s: State, p: Bytes, c: Bytes, name: Bytes, m: nat)
    requires m < |s.stores|
  {
    if 0 < m <= |s.log| && s.log[m - 1].PushCommit? && s.log[m - 1].p == p then true
    else m == 0 && StatsCurrent(e, s.stores[0], p, c, name)
  }

  lemma {:induction false} StatsAlong(e: Env, s: State, p: Bytes, c: Bytes, name: Bytes, m: nat, n: nat)
    requires Serial(e, s) && AllTyped(s) && m <= n <= |s.log|
    requires StatsRightAt(e, s, p, c, name, m) && FewWhenTaken(s, p, c, m, n)
    ensures StatsCurrent(e, s.stores[n], p, c, name)
  {
    hide AtomicStep, FewDocs, StatsCurrent, TakesOut;
    if m < n { StatsAlong(e, s, p, c, name, m, n - 1); }
    if n > 0 && (m < n || s.log[n - 1].PushCommit?) {
      assert AtomicStep(e, s.stores[n - 1], s.log[n - 1], s.stores[n]) && Typed(s.stores[n - 1]);
      PushTakesNothing(s.log[n - 1], p, c);
      StepKeepsStats(e, s.stores[n - 1], s.log[n - 1], s.stores[n], p, c, name);
    }
  }

  lemma PushTakesNothing(commit: Commit, p: Bytes, c: Bytes)
    ensures commit.PushCommit? ==> !TakesOut(commit, p, c)
  {}

  /** The store a database was opened on never changes. */
  lemma NextKeepsFirst(e: Env, s: State, l: Label)
    requires s.stores != [] && Next(e, s, l).Some?
    ensures Next(e, s, l).value.stores != [] && Next(e, s, l).value.stores[0] == s.stores[0]
  {
    hide Prepare, Judge, DecideStep, EmbedStep, ReadStep, Acquired, CanAcquire, Start, WriteEffectWith, PushEffect;
  }

  lemma {:induction false} RunKeepsFirst(e: Env, s: State, labels: seq<Label>)
    requires s.stores != [] && Run(e, s, labels).Some?
    ensures Run(e, s, labels).value.stores != [] && Run(e, s, labels).value.stores[0] == s.stores[0]
  {
    hide Next;
    if labels != [] {
      var n := |labels| - 1;
      RunKeepsFirst(e, s, labels[..n]);
      NextKeepsFirst(e, Run(e, s, labels[..n]).value, labels[n]);
    }
  }

  /** In every reachable state, now and at every point before, every equality entry, posting and vector entry is
      exactly the one recomputed from the stored documents under the stored schema: none missing, none stale. */
  lemma IndexesAgree(e: Env, s: State, n: nat)
    requires Reachable(e, s) && n < |s.stores|
    ensures EntriesAgree(e, s.stores[n])
  {
    hide EntriesAgree, Run;
    var s0, labels :| Initial(e, s0) && Run(e, s0, labels) == Some(s);
    RunKeepsFirst(e, s0, labels);
    ReachableInv(e, s);
    EntriesAlong(e, s, n);
  }

  /** From a point where they are right on, a search index's stored statistics count its collection's documents
      and add up their lengths, as long as documents are taken out only while the collection is below 2^32. */
  lemma StatisticsExact(e: Env, s: State, p: Bytes, c: Bytes, name: Bytes, m: nat, n: nat)
    requires Reachable(e, s) && m <= n <= |s.log| < |s.stores|
    requires StatsRightAt(e, s, p, c, name, m) && FewWhenTaken(s, p, c, m, n) && FewDocs(s.stores[n], p, c)
    requires CollectionAt(s.stores[n], p, c).Some?
    requires FindSearch(CollectionAt(s.stores[n], p, c).value.searchIndexes, name).Some?
    ensures var index := FindSearch(CollectionAt(s.stores[n], p, c).value.searchIndexes, name).value;
            Look(s.stores[n], StatsKey(p, c, name)) == Some(StatsVal(ExactStats(e, s.stores[n], p, c, index)))
  {
    hide Reachable, FewDocs, Serial, AllTyped, StatsRightAt, FewWhenTaken;
    ReachableSerial(e, s);
    StatsAlong(e, s, p, c, name, m, n);
    FewDocsFit(e, s.stores[n], p, c);
    var index := FindSearch(CollectionAt(s.stores[n], p, c).value.searchIndexes, name).value;
    assert FitsStats(ExactStats(e, s.stores[n], p, c, index));
  }

  // ---- Crashes ----

  /** Recovering any durable prefix, at any point of any run, gives a state that replays the recovered log, whose
      index entries agree with its documents, and which holds every acknowledged batch. Its statistics are right
      under the same conditions as before the crash. */
  lemma CrashRecovers(e: Env, s: State, n: nat)
    requires Reachable(e, s) && CrashStep(s, n).Some?
    ensures var t := CrashStep(s, n).value;
            && Inv(e, t) && EntriesAgree(e, Now(t)) && Now(t) == Replay(e, s.stores[0], s.log[..n])
            && (forall a | a in s.acked :: a < |t.log| && t.log[a] == s.log[a])
    ensures forall p, c, name, m: nat ::
              m <= n && StatsRightAt(e, s, p, c, name, m) && FewWhenTaken(s, p, c, m, n) ==>
                StatsCurrent(e, Now(CrashStep(s, n).value), p, c, name)
  {
    hide EntriesAgree, Run, Replay, Serial, AllTyped, StatsRightAt, FewWhenTaken, StatsCurrent;
    ReachableInv(e, s);
    CrashKeeps(e, s, n);
    Serialisable(e, s, n);
    IndexesAgree(e, s, n);
    ReachableSerial(e, s);
    forall p, c, name, m: nat | m <= n && StatsRightAt(e, s, p, c, name, m) && FewWhenTaken(s, p, c, m, n)
      ensures StatsCurrent(e, s.stores[n], p, c, name)
    {
      StatsAlong(e, s, p, c, name, m, n);
    }
  }

  /** An operation that reported success is in the log as itself, durably and with its readers told; so it
      survives any crash. */
  lemma SuccessIsDurable(e: Env, s: State, i: OpId)
    requires Reachable(e, s) && i in s.ops && s.ops[i].pc == Done && !s.ops[i].req.Vectors?
    ensures var n := s.ops[i].index;
            && n < s.durable <= |s.log| && n in s.acked && n !in s.pending && IsCommitOf(s.log[n], i, s.ops[i])
  {
    hide Facts, Compatible, AtomicStep, Reachable;
    ReachableInv(e, s);
    assert Placed(s, i, s.ops[i]);
  }
}
