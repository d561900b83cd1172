/** What a committed write stores is what its request asked for: the request's own data over the document it found,
    embedded under a schema that was in force while the operation ran. */
module Intent {
  import opened ByteStrings
  import opened Values
  import opened Stores
  import opened Machine
  import opened Safety
  import opened Steps
  import Embed
  import Validation

  function ContextOf(req: Request, was: Option<Data>): Option<Embed.PatchContext>
    requires req.Patch? ==> was.Some?
  {
    if req.Patch? then Some(Embed.PatchContext(was.value, req.updates)) else None
  }

  /** Exactly what was asked, with the vectors some provider's answers give it under this collection schema. */
  ghost predicate Embeds(e: Env, cs: Option<CollectionSchema>, req: Request, was: Option<Data>, data: Data)
    requires IsWriteReq(req) && (req.Patch? ==> was.Some?)
  {
    exists provider: Option<Embed.Provider> :: EmbedsWith(e, provider, cs, req, was, data)
  }

  predicate EmbedsWith(e: Env, provider: Option<Embed.Provider>, cs: Option<CollectionSchema>, req: Request,
                       was: Option<Data>, data: Data)
    requires IsWriteReq(req) && (req.Patch? ==> was.Some?)
  {
    var out := Embed.ApplyEmbeddings(e, provider, cs, Requested(req, was), ContextOf(req, was));
    out.Done? && out.data == data
  }

  /** An undeclared collection has nothing to embed: exactly what was asked is stored. */
  lemma UndeclaredIsVerbatim(e: Env, req: Request, was: Option<Data>, data: Data)
    requires IsWriteReq(req) && (req.Patch? ==> was.Some?)
    ensures Embeds(e, None, req, was, data) <==> data == Requested(req, was)
  {
    if data == Requested(req, was) { assert EmbedsWith(e, None, None, req, was, data); }
  }

  /** Under a declared one only fields with embed settings may differ. */
  lemma EmbedsFollows(e: Env, cs: Option<CollectionSchema>, req: Request, was: Option<Data>, data: Data)
    requires IsWriteReq(req) && (req.Patch? ==> was.Some?) && Embeds(e, cs, req, was, data)
    ensures Follows(e, cs, Requested(req, was), data)
  {
    hide Follows, Embed.ApplyEmbeddings;
    var provider :| EmbedsWith(e, provider, cs, req, was, data);
    EmbeddingFollows(e, provider, cs, Requested(req, was), ContextOf(req, was));
  }

  // ---- The invariant ----

  predicate IsStore(req: Request) { req.Insert? || req.Replace? || req.Patch? }

  /** What a write stores, having read its advisory schema after the first m batches and committed after the first n. */
  ghost predicate StoresAsked(e: Env, stores: seq<Store>, req: Request, advisory: Option<ProjectSchema>,
                              was: Option<Document>, now: Option<Document>, m: nat, n: nat)
    requires IsStore(req)
  {
    && m <= n < |stores| && (req.Patch? ==> was.Some?) && now.Some? && advisory == SchemaAt(stores[m], req.p)
    && (|| Embeds(e, CollectionAt(stores[m], req.p, req.c), req, OptData(was), now.value.data)
        || (req.Patch? && Embeds(e, CollectionAt(stores[n], req.p, req.c), req, OptData(was), now.value.data)))
  }

  predicate Advised(pc: Pc) { pc.AdvDoc? || pc.EmbedCall? || IsPrepared(pc) }

  predicate HasLanded(pc: Pc) { AfterSequence(pc) || pc.Done? }

  predicate LastAttempt(op: Op) { op.req.Patch? && op.prep.attempt == EMBED_RETRIES }

  predicate InForce(stores: seq<Store>, op: Op, m: nat) {
    op.scan.startLen <= m < |stores| && op.prep.advisory == SchemaAt(stores[m], op.req.p)
  }

  ghost predicate PreparedAsked(e: Env, op: Op)
    requires IsStore(op.req)
  {
    if op.req.Patch? then
      op.prep.embedded ==>
        Embeds(e, Collection(op.prep.advisory, op.req.c), op.req, Some(op.prep.early), op.prep.data)
    else Embeds(e, Collection(op.prep.advisory, op.req.c), op.req, None, op.prep.data)
  }

  ghost predicate DecidedAsked(e: Env, op: Op)
    requires IsStore(op.req)
  {
    && (op.req.Patch? ==> op.held.existing.Some?) && op.held.doc.Some?
    && (!LastAttempt(op) ==> op.held.doc.value.data == op.held.judged)
    && var was, data := OptData(op.held.existing), op.held.doc.value.data;
       || Embeds(e, Collection(op.prep.advisory, op.req.c), op.req, was, data)
       || (LastAttempt(op) && Embeds(e, Collection(op.held.schema, op.req.c), op.req, was, data))
  }

  ghost predicate LandedAsked(e: Env, stores: seq<Store>, op: Op)
    requires IsStore(op.req)
  {
    && (exists m :: op.scan.startLen <= m
          && StoresAsked(e, stores, op.req, op.prep.advisory, op.held.existing, op.held.doc, m, op.index))
    && (!LastAttempt(op) ==> op.held.doc.Some? && op.held.doc.value.data == op.held.judged)
  }

  ghost predicate OpIntent(e: Env, stores: seq<Store>, op: Op) {
    IsStore(op.req) ==>
      && op.scan.startLen < |stores|
      && (Advised(op.pc) ==> exists m :: InForce(stores, op, m))
      && (IsPrepared(op.pc) ==> PreparedAsked(e, op))
      && (IsDecided(op.pc) ==> DecidedAsked(e, op))
      && (HasLanded(op.pc) ==> LandedAsked(e, stores, op))
  }

  ghost predicate CommitIntent(e: Env, stores: seq<Store>, commit: Commit, n: nat) {
    commit.WriteCommit? && IsStore(commit.req) ==>
      exists m :: StoresAsked(e, stores, commit.req, commit.advisory, commit.was, commit.now, m, n)
  }

  ghost predicate Intended(e: Env, s: State) {
    && (forall i | i in s.ops :: OpIntent(e, s.stores, s.ops[i]))
    && (forall n | 0 <= n < |s.log| :: CommitIntent(e, s.stores, s.log[n], n))
  }

  // ---- Frames ----

  lemma StoresAskedGrows(e: Env, a: seq<Store>, b: seq<Store>, req: Request, advisory: Option<ProjectSchema>,
                         was: Option<Document>, now: Option<Document>, m: nat, n: nat)
    requires IsStore(req) && n < |a| && n < |b| && (forall k | 0 <= k <= n :: a[k] == b[k])
    requires StoresAsked(e, a, req, advisory, was, now, m, n)
    ensures StoresAsked(e, b, req, advisory, was, now, m, n)
  {
    hide Embeds;
  }

  lemma OpGrows(e: Env, a: seq<Store>, b: seq<Store>, op: Op)
    requires OpIntent(e, a, op) && a <= b
    ensures OpIntent(e, b, op)
  {
    hide Embeds, StoresAsked, PreparedAsked, DecidedAsked, IsPrepared, HasLanded;
    if IsStore(op.req) {
      if Advised(op.pc) {
        var m :| InForce(a, op, m);
        assert InForce(b, op, m);
      }
      if HasLanded(op.pc) { LandedGrows(e, a, b, op); }
    }
  }

  lemma LandedGrows(e: Env, a: seq<Store>, b: seq<Store>, op: Op)
    requires IsStore(op.req) && LandedAsked(e, a, op) && a <= b
    ensures LandedAsked(e, b, op)
  {
    hide StoresAsked;
    var m :| op.scan.startLen <= m
      && StoresAsked(e, a, op.req, op.prep.advisory, op.held.existing, op.held.doc, m, op.index);
    StoresAskedBound(e, a, op.req, op.prep.advisory, op.held.existing, op.held.doc, m, op.index);
    StoresAskedGrows(e, a, b, op.req, op.prep.advisory, op.held.existing, op.held.doc, m, op.index);
  }

  lemma StoresAskedBound(e: Env, stores: seq<Store>, req: Request, advisory: Option<ProjectSchema>,
                         was: Option<Document>, now: Option<Document>, m: nat, n: nat)
    requires IsStore(req) && StoresAsked(e, stores, req, advisory, was, now, m, n)
    ensures n < |stores|
  {}

  lemma CommitGrows(e: Env, a: seq<Store>, b: seq<Store>, commit: Commit, n: nat)
    requires CommitIntent(e, a, commit, n) && n < |a| && n < |b| && (forall k | 0 <= k <= n :: a[k] == b[k])
    ensures CommitIntent(e, b, commit, n)
  {
    hide StoresAsked;
    if commit.WriteCommit? && IsStore(commit.req) {
      var m: nat :| StoresAsked(e, a, commit.req, commit.advisory, commit.was, commit.now, m, n);
      StoresAskedGrows(e, a, b, commit.req, commit.advisory, commit.was, commit.now, m, n);
    }
  }

  /** One operation moved and nothing was appended. */
  lemma OneMoved(e: Env, s: State, t: State, i: OpId)
    requires Intended(e, s) && t.stores == s.stores && t.log == s.log && i in t.ops && OpIntent(e, s.stores, t.ops[i])
    requires forall j | j in t.ops && j != i :: j in s.ops && t.ops[j] == s.ops[j]
    ensures Intended(e, t)
  {
    hide OpIntent, CommitIntent;
  }

  /** A move that keeps request, preparation and decision, into a phase that asks for no more. */
  ghost predicate Carries(a: Op, b: Op) {
    && b.req == a.req && b.scan.startLen == a.scan.startLen
    && (Advised(b.pc) ==> Advised(a.pc) && b.prep.advisory == a.prep.advisory)
    && (IsPrepared(b.pc) ==> IsPrepared(a.pc) && b.prep == a.prep)
    && (IsDecided(b.pc) ==>
          && IsDecided(a.pc) && b.prep == a.prep && b.held.schema == a.held.schema && b.held.existing == a.held.existing
          && b.held.judged == a.held.judged && b.held.doc == a.held.doc)
    && (HasLanded(b.pc) ==> HasLanded(a.pc) && b.prep == a.prep && b.held == a.held && b.index == a.index)
  }

  lemma CarriesIntent(e: Env, stores: seq<Store>, a: Op, b: Op)
    requires OpIntent(e, stores, a) && Carries(a, b)
    ensures OpIntent(e, stores, b)
  {
    hide Embeds, StoresAsked, IsPrepared, HasLanded, Advised, IsDecided;
    if IsStore(b.req) && Advised(b.pc) {
      var m :| InForce(stores, a, m);
      assert InForce(stores, b, m);
    }
    if IsStore(b.req) && HasLanded(b.pc) {
      var m :| a.scan.startLen <= m
        && StoresAsked(e, stores, a.req, a.prep.advisory, a.held.existing, a.held.doc, m, a.index);
      assert StoresAsked(e, stores, b.req, b.prep.advisory, b.held.existing, b.held.doc, m, b.index);
    }
  }

  // ---- Steps of a write ----

  lemma AdvisoryRead(e: Env, stores: seq<Store>, op: Op)
    requires OpIntent(e, stores, op) && IsWriteReq(op.req) && op.pc.AdvSchema? && stores != []
    ensures OpIntent(e, stores, ReadStep(stores[|stores| - 1], op))
  {
    hide Embeds, StoresAsked, SchemaAt;
    var b := ReadStep(stores[|stores| - 1], op);
    if IsStore(op.req) { assert InForce(stores, b, |stores| - 1); }
  }

  lemma ReadCarries(st: Store, op: Op)
    requires IsWriteReq(op.req) && Reads(op.pc) && !op.pc.AdvSchema?
    ensures Carries(op, ReadStep(st, op))
  {
    hide ReadStep, Carries;
    if op.pc.AdvDoc? {
      EarlyReadCarries(st, op);
    } else if op.pc.ReadSchema? || op.pc.ReadDoc? {
      LockedReadCarries(st, op);
    } else {
      StatsAndDropsCarry(st, op);
    }
  }

  lemma EarlyReadCarries(st: Store, op: Op)
    requires IsWriteReq(op.req) && op.pc.AdvDoc?
    ensures Carries(op, ReadStep(st, op))
  {
    hide DocAt;
  }

  lemma LockedReadCarries(st: Store, op: Op)
    requires IsWriteReq(op.req) && (op.pc.ReadSchema? || op.pc.ReadDoc?)
    ensures Carries(op, ReadStep(st, op))
  {
    hide DocAt, SchemaAt;
  }

  lemma StatsAndDropsCarry(st: Store, op: Op)
    requires IsWriteReq(op.req) && (op.pc.ReadStats? || op.pc.DropStats? || op.pc.DropGuards?)
    ensures Carries(op, ReadStep(st, op))
  {
    hide SearchDefs, StatsAt, Coll;
  }

  lemma AcquiredCarries(op: Op)
    requires Waits(op.pc)
    ensures Carries(op, Acquired(op))
  {}

  lemma EndsCarry(op: Op)
    ensures Carries(op, Stop(op, Failed))
    ensures IsWriteReq(op.req) && op.pc.Flush? ==> Carries(op, Flushed(op))
    ensures op.pc.Invalidate? ==> Carries(op, Stop(op, Done))
    ensures Failing(op).Some? ==> Carries(op, Failing(op).value)
  {}

  lemma EmbedIntent(e: Env, stores: seq<Store>, op: Op, provider: Option<Embed.Provider>)
    requires OpIntent(e, stores, op) && IsWriteReq(op.req) && !op.req.Remove? && op.pc.EmbedCall?
    requires op.req.Patch? || op.prep.data == op.req.data
    ensures OpIntent(e, stores, EmbedStep(op, Prepare(e, op, provider)))
  {
    hide Embeds, StoresAsked, Prepare;
    var b := EmbedStep(op, Prepare(e, op, provider));
    if Advised(b.pc) {
      var m :| InForce(stores, op, m);
      assert InForce(stores, b, m);
      var out := Prepare(e, op, provider);
      PrepareAsked(e, op, provider);
      SamePreparation(e, op.(prep := op.prep.(data := out.data, embedded := out.embedded)), b);
    }
  }

  lemma PrepareAsked(e: Env, op: Op, provider: Option<Embed.Provider>)
    requires IsWriteReq(op.req) && !op.req.Remove? && (op.req.Patch? || op.prep.data == op.req.data)
    ensures var out := Prepare(e, op, provider);
            out.Done? ==> PreparedAsked(e, op.(prep := op.prep.(data := out.data, embedded := out.embedded)))
  {
    hide Embed.ApplyEmbeddings, Validation.SchemaAccepts;
    var out := Prepare(e, op, provider);
    if out.Done? && (op.req.Patch? ==> out.embedded) {
      var was := if op.req.Patch? then Some(op.prep.early) else None;
      assert EmbedsWith(e, provider, Coll(op, op.prep.advisory), op.req, was, out.data);
    }
  }

  lemma DecideAsked(e: Env, op: Op, time: nat, provider: Option<Embed.Provider>)
    requires IsStore(op.req) && op.pc.Decide? && PreparedAsked(e, op) && (op.req.Insert? <==> op.held.existing.None?)
    requires op.prep.attempt <= EMBED_RETRIES && (LastAttempt(op) ==> !op.prep.embedded)
    ensures var d := Judge(e, op, time, provider);
            d.Accept? ==> DecidedAsked(e, op.(held := op.held.(judged := d.judged, doc := d.doc, read := [])))
  {
    hide Embed.ApplyEmbeddings, Validation.SchemaAccepts, Allowed;
    var d := Judge(e, op, time, provider);
    if d.Accept? {
      var data, was := d.doc.value.data, OptData(op.held.existing);
      if LastAttempt(op) {
        assert EmbedsWith(e, provider, Coll(op, op.held.schema), op.req, was, data);
      } else if op.req.Patch? && !op.prep.embedded {
        PlainIsAsked(e, Coll(op, op.prep.advisory), op.req, was);
      } else if !op.req.Patch? {
        WholeWriteAsked(e, Coll(op, op.prep.advisory), op.req, was, data);
      }
    }
  }

  /** What is asked for, without any vector, is what a server without a provider stores. */
  lemma PlainIsAsked(e: Env, cs: Option<CollectionSchema>, req: Request, was: Option<Data>)
    requires IsWriteReq(req) && (req.Patch? ==> was.Some?)
    ensures Embeds(e, cs, req, was, Requested(req, was))
  {
    assert EmbedsWith(e, None, cs, req, was, Requested(req, was));
  }

  lemma WholeWriteAsked(e: Env, cs: Option<CollectionSchema>, req: Request, was: Option<Data>, data: Data)
    requires (req.Insert? || req.Replace?) && Embeds(e, cs, req, None, data)
    ensures Embeds(e, cs, req, was, data)
  {
    hide Embed.ApplyEmbeddings;
    var provider :| EmbedsWith(e, provider, cs, req, None, data);
    assert EmbedsWith(e, provider, cs, req, was, data);
  }

  lemma DecideIntent(e: Env, stores: seq<Store>, op: Op, time: nat, provider: Option<Embed.Provider>)
    requires OpIntent(e, stores, op) && IsWriteReq(op.req) && op.pc.Decide?
    requires op.req.Insert? <==> op.held.existing.None?
    requires op.prep.attempt <= EMBED_RETRIES && (LastAttempt(op) ==> !op.prep.embedded)
    ensures OpIntent(e, stores, DecideStep(op, Judge(e, op, time, provider)))
  {
    hide Embeds, StoresAsked, Judge, SearchDefs, SchemaAt, PreparedAsked, DecidedAsked, LandedAsked;
    var d := Judge(e, op, time, provider);
    var b := DecideStep(op, d);
    if IsStore(op.req) && d.Accept? {
      DecideAsked(e, op, time, provider);
      var m :| InForce(stores, op, m);
      assert InForce(stores, b, m);
      SamePreparation(e, op, b);
      SameDecision(e, op.(held := op.held.(judged := d.judged, doc := d.doc, read := [])), b);
    }
  }

  lemma SamePreparation(e: Env, a: Op, b: Op)
    requires IsStore(a.req) && b.req == a.req && b.prep == a.prep
    ensures PreparedAsked(e, a) <==> PreparedAsked(e, b)
  {
    hide Embeds;
  }

  lemma SameDecision(e: Env, a: Op, b: Op)
    requires IsStore(a.req) && b.req == a.req && b.prep == a.prep && b.held == a.held
    ensures DecidedAsked(e, a) <==> DecidedAsked(e, b)
  {
    hide Embeds;
  }

  lemma NamedIntent(e: Env, stores: seq<Store>, op: Op, id: Bytes)
    requires OpIntent(e, stores, op)
    ensures OpIntent(e, stores, op.(id := id))
  {
    CarriesIntent(e, stores, op, op.(id := id));
  }

  // ---- Committing ----

  /** What was decided lands as decided, under the schema still in force. */
  lemma LandsAsked(e: Env, stores: seq<Store>, after: seq<Store>, op: Op, b: Op)
    requires stores != [] && stores <= after && OpIntent(e, stores, op) && IsStore(op.req) && op.pc.Sequence?
    requires op.held.schema == SchemaAt(stores[|stores| - 1], op.req.p)
    requires b.req == op.req && b.prep == op.prep && b.held == op.held && b.scan == op.scan
    requires b.index == |stores| - 1
    ensures LandedAsked(e, after, b)
  {
    hide Embeds, SchemaAt;
    assert Advised(op.pc) && IsDecided(op.pc) && DecidedAsked(e, op);
    var m: nat :| InForce(stores, op, m);
    assert b.index < |stores| <= |after|;
    assert after[m] == stores[m] && after[b.index] == stores[b.index];
    assert StoresAsked(e, after, b.req, b.prep.advisory, b.held.existing, b.held.doc, m, b.index);
  }

  lemma SequenceShape(e: Env, s: State, i: OpId)
    requires s.stores != [] && i in s.ops && IsWriteReq(s.ops[i].req) && s.ops[i].pc.Sequence?
    requires Next(e, s, Go(i)).Some?
    ensures var op, t := s.ops[i], Next(e, s, Go(i)).value;
            && i in t.ops && t.ops == s.ops[i := t.ops[i]] && t.ops[i] == op.(pc := DropStats, index := |s.log|)
            && |t.log| == |s.log| + 1 && s.log <= t.log && t.log[|s.log|].WriteCommit?
            && t.log[|s.log|].advisory == op.prep.advisory
  {
    hide WriteEffectWith;
  }

  /** What was read of the schema under the guard is still so. */
  lemma SchemaStands(e: Env, s: State, i: OpId)
    requires Inv(e, s) && i in s.ops && s.stores != [] && IsWriteReq(s.ops[i].req) && s.ops[i].pc.Sequence?
    ensures |s.stores| == |s.log| + 1 && s.ops[i].held.schema == SchemaAt(Now(s), s.ops[i].req.p)
  {
    hide WriteOk, Prepared, Compatible, AtomicStep, Placed, SchemaAt;
    assert Facts(e, Now(s), s.used, s.ops[i]);
  }

  lemma WriteAppends(e: Env, s: State, i: OpId, t: State)
    requires Inv(e, s) && Intended(e, s) && i in s.ops && s.stores != [] && Next(e, s, Go(i)) == Some(t)
    requires IsWriteReq(s.ops[i].req) && s.ops[i].pc.Sequence?
    requires i in t.ops && |s.log| < |t.log|
    ensures OpIntent(e, t.stores, t.ops[i]) && CommitIntent(e, t.stores, t.log[|s.log|], |s.log|)
  {
    hide Inv, AtomicStep, Next, StoresAsked, OpIntent, CommitIntent, LandedAsked;
    AppendedCommit(e, s, i);
    SequenceShape(e, s, i);
    SchemaStands(e, s, i);
    var op := s.ops[i];
    IntendedOp(e, s, i);
    if IsStore(op.req) {
      LandsAsked(e, s.stores, t.stores, op, t.ops[i]);
      CommitLands(e, t.stores, t.ops[i], t.log[|s.log|], |s.log|);
    } else {
      NoStoreIntent(e, t.stores, t.log[|s.log|], |s.log|);
    }
    LandedIntent(e, t.stores, t.ops[i]);
  }

  lemma NoStoreIntent(e: Env, stores: seq<Store>, commit: Commit, n: nat)
    requires commit.WriteCommit? && !IsStore(commit.req)
    ensures CommitIntent(e, stores, commit, n)
  {}

  lemma CommitLands(e: Env, stores: seq<Store>, op: Op, commit: Commit, n: nat)
    requires IsStore(op.req) && LandedAsked(e, stores, op) && op.index == n && commit.WriteCommit?
    requires commit.req == op.req && commit.advisory == op.prep.advisory
    requires commit.was == op.held.existing && commit.now == op.held.doc
    ensures CommitIntent(e, stores, commit, n)
  {
    hide StoresAsked;
    var m: nat :| op.scan.startLen <= m
      && StoresAsked(e, stores, op.req, op.prep.advisory, op.held.existing, op.held.doc, m, op.index);
    assert StoresAsked(e, stores, commit.req, commit.advisory, commit.was, commit.now, m, n);
  }

  lemma LandedIntent(e: Env, stores: seq<Store>, op: Op)
    requires op.pc.DropStats? && (IsStore(op.req) ==> LandedAsked(e, stores, op))
    ensures OpIntent(e, stores, op)
  {
    hide StoresAsked;
    if IsStore(op.req) {
      var m: nat :| op.scan.startLen <= m
        && StoresAsked(e, stores, op.req, op.prep.advisory, op.held.existing, op.held.doc, m, op.index);
      StoresAskedOrder(e, stores, op.req, op.prep.advisory, op.held.existing, op.held.doc, m, op.index);
    }
  }

  lemma StoresAskedOrder(e: Env, stores: seq<Store>, req: Request, advisory: Option<ProjectSchema>,
                         was: Option<Document>, now: Option<Document>, m: nat, n: nat)
    requires IsStore(req) && StoresAsked(e, stores, req, advisory, was, now, m, n)
    ensures m <= n < |stores|
  {}

  lemma AppendIntended(e: Env, s: State, i: OpId)
    requires Inv(e, s) && Intended(e, s) && i in s.ops && s.stores != [] && Next(e, s, Go(i)).Some?
    requires (IsWriteReq(s.ops[i].req) && s.ops[i].pc.Sequence?) || (s.ops[i].req.Push? && s.ops[i].pc.PushWrite?)
    ensures Intended(e, Next(e, s, Go(i)).value)
  {
    hide Inv, AtomicStep, Next, OpIntent, CommitIntent;
    AppendedCommit(e, s, i);
    var t := Next(e, s, Go(i)).value;
    if s.ops[i].req.Push? {
      PushIntent(e, t.stores, t.ops[i], t.log[|s.log|], |s.log|);
    } else {
      WriteAppends(e, s, i, t);
    }
    forall j | j in t.ops ensures OpIntent(e, t.stores, t.ops[j]) {
      if j != i { OpGrows(e, s.stores, t.stores, s.ops[j]); }
    }
    forall n | 0 <= n < |t.log| ensures CommitIntent(e, t.stores, t.log[n], n) {
      if n < |s.log| {
        assert t.log[n] == s.log[n];
        CommitGrows(e, s.stores, t.stores, s.log[n], n);
      }
    }
  }

  lemma PushIntent(e: Env, stores: seq<Store>, op: Op, commit: Commit, n: nat)
    requires op.req.Push? && commit.PushCommit?
    ensures OpIntent(e, stores, op) && CommitIntent(e, stores, commit, n)
  {}

  // ---- Every step ----

  lemma CarriesIntended(e: Env, s: State, t: State, i: OpId)
    requires Intended(e, s) && t.stores == s.stores && t.log == s.log && i in s.ops && i in t.ops
    requires t.ops == s.ops[i := t.ops[i]] && Carries(s.ops[i], t.ops[i])
    ensures Intended(e, t)
  {
    hide OpIntent, CommitIntent, Carries;
    CarriesIntent(e, s.stores, s.ops[i], t.ops[i]);
    OneMoved(e, s, t, i);
  }

  lemma GoWriteIntended(e: Env, s: State, i: OpId)
    requires Intended(e, s) && i in s.ops && s.stores != [] && IsWriteReq(s.ops[i].req) && GoWrite(e, s, i).Some?
    requires !s.ops[i].pc.Sequence?
    ensures Intended(e, GoWrite(e, s, i).value)
  {
    hide Intended, OpIntent, CommitIntent, Carries, ReadStep, Acquired, CanAcquire, Flushed, Stop;
    var op, t := s.ops[i], GoWrite(e, s, i).value;
    if op.pc.AdvSchema? {
      IntendedOp(e, s, i);
      AdvisoryRead(e, s.stores, op);
      OneMoved(e, s, t, i);
    } else {
      if Reads(op.pc) {
        ReadCarries(Now(s), op);
      } else if Waits(op.pc) {
        AcquiredCarries(op);
      } else {
        EndsCarry(op);
      }
      CarriesIntended(e, s, t, i);
    }
  }

  lemma IntendedOp(e: Env, s: State, i: OpId)
    requires Intended(e, s) && i in s.ops
    ensures OpIntent(e, s.stores, s.ops[i])
  {}

  /** Pushes and vector reads have nothing to store as asked. */
  lemma OthersIntended(e: Env, s: State, i: OpId)
    requires Intended(e, s) && i in s.ops && s.stores != [] && !IsWriteReq(s.ops[i].req)
    requires Next(e, s, Go(i)).Some? && !(s.ops[i].req.Push? && s.ops[i].pc.PushWrite?)
    ensures Intended(e, Next(e, s, Go(i)).value)
  {
    hide Intended, OpIntent, CommitIntent, Carries, GoVectors, GoPush;
    var op, t := s.ops[i], Next(e, s, Go(i)).value;
    if op.req.Push? { PushShape(e, s, i); } else { VectorsArePure(s, i); }
    NotStoring(e, s.stores, t.ops[i]);
    OneMoved(e, s, t, i);
  }

  lemma NotStoring(e: Env, stores: seq<Store>, op: Op)
    requires !IsStore(op.req)
    ensures OpIntent(e, stores, op)
  {}

  lemma PushShape(e: Env, s: State, i: OpId)
    requires i in s.ops && s.stores != [] && s.ops[i].req.Push? && GoPush(e, s, i).Some? && !s.ops[i].pc.PushWrite?
    ensures var t := GoPush(e, s, i).value;
            && t.stores == s.stores && t.log == s.log
            && i in t.ops && t.ops == s.ops[i := t.ops[i]] && t.ops[i].req.Push?
  {
    hide CanExclude, SchemaAt, PushWriteStep;
  }

  lemma EmbedIntended(e: Env, s: State, i: OpId, provider: Option<Embed.Provider>)
    requires Inv(e, s) && Intended(e, s) && Next(e, s, CallProvider(i, provider)).Some?
    ensures Intended(e, Next(e, s, CallProvider(i, provider)).value)
  {
    hide Inv, Intended, OpIntent, CommitIntent, Prepare, EmbedStep;
    IntendedOp(e, s, i);
    EmbedInput(e, s, i);
    EmbedIntent(e, s.stores, s.ops[i], provider);
    OneMoved(e, s, Next(e, s, CallProvider(i, provider)).value, i);
  }

  lemma EmbedInput(e: Env, s: State, i: OpId)
    requires Inv(e, s) && i in s.ops && s.stores != [] && IsWriteReq(s.ops[i].req) && s.ops[i].pc.EmbedCall?
    ensures s.ops[i].req.Insert? || s.ops[i].req.Replace? ==> s.ops[i].prep.data == s.ops[i].req.data
  {
    hide WriteOk, Prepared, Compatible, AtomicStep, Placed, SchemaAt;
    assert Facts(e, Now(s), s.used, s.ops[i]);
  }

  lemma DecideInputs(e: Env, s: State, i: OpId)
    requires Inv(e, s) && i in s.ops && s.stores != [] && IsWriteReq(s.ops[i].req) && s.ops[i].pc.Decide?
    ensures var op := s.ops[i];
            && (op.req.Insert? <==> op.held.existing.None?) && op.prep.attempt <= EMBED_RETRIES
            && (LastAttempt(op) ==> !op.prep.embedded)
  {
    hide WriteOk, Compatible, AtomicStep, Placed, SchemaAt, Follows;
    assert Facts(e, Now(s), s.used, s.ops[i]);
  }

  lemma DecideIntended(e: Env, s: State, i: OpId, time: nat, newId: Bytes, provider: Option<Embed.Provider>)
    requires Inv(e, s) && Intended(e, s) && Next(e, s, DecideNow(i, time, newId, provider)).Some?
    ensures Intended(e, Next(e, s, DecideNow(i, time, newId, provider)).value)
  {
    hide Inv, Intended, OpIntent, CommitIntent, Judge, DecideStep;
    var op := s.ops[i];
    var named := if op.req.Insert? then op.(id := newId) else op;
    IntendedOp(e, s, i);
    DecideInputs(e, s, i);
    NamedIntent(e, s.stores, op, newId);
    DecideIntent(e, s.stores, named, time, provider);
    OneMoved(e, s, Next(e, s, DecideNow(i, time, newId, provider)).value, i);
  }

  lemma StartIntent(e: Env, s: State, req: Request)
    requires |s.stores| == |s.log| + 1
    ensures OpIntent(e, s.stores, Start(s, req))
  {}

  lemma CrashIntended(e: Env, s: State, n: nat)
    requires Intended(e, s) && CrashStep(s, n).Some?
    ensures Intended(e, CrashStep(s, n).value)
  {
    hide OpIntent, CommitIntent;
    var t := CrashStep(s, n).value;
    forall k | 0 <= k < |t.log| ensures CommitIntent(e, t.stores, t.log[k], k) {
      assert t.log[k] == s.log[k];
      CommitGrows(e, s.stores, t.stores, s.log[k], k);
    }
  }

  lemma NextIntended(e: Env, s: State, l: Label)
    requires Inv(e, s) && Intended(e, s) && Next(e, s, l).Some?
    ensures Intended(e, Next(e, s, l).value)
  {
    hide Inv, Intended, OpIntent, CommitIntent, Carries, GoWrite, GoPush, GoVectors, Prepare, Judge, DecideStep;
    hide EmbedStep, Failing, Start, IsNextVector, CrashStep;
    var t := Next(e, s, l).value;
    match l
    case Begin(i, req) =>
      InvLengths(e, s);
      StartIntent(e, s, req);
      OneMoved(e, s, t, i);
    case Go(i) =>
      if (IsWriteReq(s.ops[i].req) && s.ops[i].pc.Sequence?) || (s.ops[i].req.Push? && s.ops[i].pc.PushWrite?) {
        AppendIntended(e, s, i);
      } else if IsWriteReq(s.ops[i].req) {
        GoWriteIntended(e, s, i);
      } else {
        OthersIntended(e, s, i);
      }
    case CallProvider(i, provider) => EmbedIntended(e, s, i, provider);
    case DecideNow(i, time, newId, provider) => DecideIntended(e, s, i, time, newId, provider);
    case NextVector(i, id) =>
      NotStoring(e, s.stores, t.ops[i]);
      OneMoved(e, s, t, i);
    case Fail(i) =>
      EndsCarry(s.ops[i]);
      CarriesIntended(e, s, t, i);
    case Durable(n) => SameIntended(e, s, t);
    case Crash(n) => CrashIntended(e, s, n);
  }

  lemma InvLengths(e: Env, s: State)
    requires Inv(e, s)
    ensures |s.stores| == |s.log| + 1
  {
    hide Facts, Compatible, AtomicStep, Placed;
  }

  lemma SameIntended(e: Env, s: State, t: State)
    requires Intended(e, s) && t.stores == s.stores && t.log == s.log && t.ops == s.ops
    ensures Intended(e, t)
  {
    hide OpIntent, CommitIntent;
  }

  lemma {:induction false} RunIntended(e: Env, s: State, labels: seq<Label>)
    requires Inv(e, s) && Intended(e, s) && Run(e, s, labels).Some?
    ensures Intended(e, Run(e, s, labels).value)
  {
    hide Inv, Next, Intended;
    if labels != [] {
      var n := |labels| - 1;
      RunIntended(e, s, labels[..n]);
      RunKeeps(e, s, labels[..n]);
      NextIntended(e, Run(e, s, labels[..n]).value, labels[n]);
    }
  }

  lemma ReachableIntended(e: Env, s: State)
    requires Reachable(e, s)
    ensures Intended(e, s)
  {
    hide Inv, Run;
    var s0, labels :| Initial(e, s0) && Run(e, s0, labels) == Some(s);
    InitialInv(e, s0);
    RunIntended(e, s0, labels);
  }
}
