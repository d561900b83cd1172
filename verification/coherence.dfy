/** The vector cache: what a cached set, and the answer of a vector read, may differ from the store in. */
module Coherence {
  import opened ByteStrings
  import opened Values
  import opened Keys
  import opened Stores
  import opened Agreement
  import opened Machine
  import opened Safety
  import opened Steps
  import opened Consistency
  import Embed
  import Validation
  import Vectors

  /** A commit that may change the vectors behind a cache key. */
  predicate Touches(commit: Commit, k: CacheKey) {
    match commit
    case WriteCommit(_, req, _, _, _, _, _) => IsWriteReq(req) && req.p == k.p && req.c == k.c
    case PushCommit(_, p, _, _) => p == k.p
  }

  function Entry(v: VectorSet, id: Bytes): Option<seq<bits32>> {
    if id in v then Some(v[id]) else None
  }

  function VectorOf(st: Store, k: CacheKey, id: Bytes): Option<seq<bits32>> {
    VecAt(st, k.p, k.c, k.name, id)
  }

  /** A fresh scan of the index would answer exactly this set. */
  ghost predicate IsScan(st: Store, k: CacheKey, v: VectorSet) {
    forall id :: Entry(v, id) == VectorOf(st, k, id)
  }

  // ---- The invariant ----

  /** For this id the set holds what the store held after the first `n` batches. */
  predicate SeenAt(s: State, k: CacheKey, v: VectorSet, id: Bytes, n: nat) {
    n < |s.stores| && VectorOf(s.stores[n], k, id) == Entry(v, id)
  }

  /** Every later commit on these vectors is still between its batch and its invalidation. */
  predicate Awaited(s: State, k: CacheKey, n: nat) {
    forall j | n <= j < |s.log| && Touches(s.log[j], k) :: j in s.pending
  }

  ghost predicate Backed(s: State, k: CacheKey, v: VectorSet, id: Bytes) {
    exists n :: SeenAt(s, k, v, id, n) && Awaited(s, k, n)
  }

  ghost predicate CachedOk(s: State, k: CacheKey, id: Bytes)
    requires k in s.cache
  {
    Backed(s, k, s.cache[k], id)
  }

  ghost predicate CacheOk(s: State) {
    forall k, id | k in s.cache :: CachedOk(s, k, id)
  }

  /** An entry a running scan has passed: read since the scan began, and if no invalidation happened since
      the generation was loaded, still awaited. */
  ghost predicate Scanned(s: State, op: Op, id: Bytes)
    requires op.req.Vectors?
  {
    exists n :: op.scan.startLen <= n && SeenAt(s, KeyOf(op), op.scan.seen, id, n)
      && (op.scan.gen == s.gen ==> Awaited(s, KeyOf(op), n))
  }

  /** An answer for one id: a store that holds every commit on these vectors sequenced before the call
      began, except those that had not yet invalidated by then. */
  ghost predicate Answered(s: State, op: Op, id: Bytes)
    requires op.req.Vectors?
  {
    exists n :: SeenAt(s, KeyOf(op), op.scan.seen, id, n) && Missed(s, op, n)
  }

  predicate Missed(s: State, op: Op, n: nat)
    requires op.req.Vectors?
  {
    forall j | n <= j < op.scan.startLen && j < |s.log| && Touches(s.log[j], KeyOf(op)) :: j in op.scan.startPending
  }

  ghost predicate ReaderOk(s: State, op: Op)
    requires op.req.Vectors?
  {
    && op.scan.startLen <= |s.log|
    && (forall j | j in s.pending && j < op.scan.startLen :: j in op.scan.startPending)
    && ((op.pc.VecScan? || op.pc.VecPublish?) ==> op.scan.gen <= s.gen)
    && (op.pc.VecScan? ==>
          && (forall id | id in op.scan.seen :: !After(op.scan.pos, id))
          && (forall id | !After(op.scan.pos, id) :: Scanned(s, op, id)))
    && (op.pc.VecPublish? ==> forall id :: Scanned(s, op, id))
    && (op.pc.Done? ==> forall id :: Answered(s, op, id))
  }

  ghost predicate ReadersOk(s: State) {
    forall i | i in s.ops && s.ops[i].req.Vectors? :: ReaderOk(s, s.ops[i])
  }

  ghost predicate Coherent(s: State) {
    |s.stores| == |s.log| + 1 && CacheOk(s) && ReadersOk(s)
  }

  // ---- How other operations move the shared state ----

  ghost predicate ReadersSame(s: State, t: State) {
    forall j | j in t.ops && t.ops[j].req.Vectors? :: j in s.ops && s.ops[j] == t.ops[j]
  }

  ghost predicate Still(s: State, t: State) {
    ReadersSame(s, t) && t.log == s.log && t.stores == s.stores && t.pending == s.pending && t.cache == s.cache
    && t.gen == s.gen
  }

  ghost predicate Grew(s: State, t: State) {
    && ReadersSame(s, t) && t.cache == s.cache && t.gen == s.gen && t.pending == s.pending + {|s.log|}
    && s.log <= t.log && |t.log| == |s.log| + 1 && s.stores <= t.stores && |t.stores| == |s.stores| + 1
  }

  ghost predicate Dropped(s: State, t: State, p: Bytes, c: Option<Bytes>, index: nat) {
    && ReadersSame(s, t) && t.log == s.log && t.stores == s.stores
    && t.gen == s.gen + 1 && t.pending == s.pending - {index} && t.cache == DropVectors(s, p, c, index).cache
  }

  lemma GrewKeepsCached(s: State, t: State, k: CacheKey, v: VectorSet, id: Bytes, n: nat)
    requires |s.stores| == |s.log| + 1 && Grew(s, t)
    ensures SeenAt(s, k, v, id, n) ==> SeenAt(t, k, v, id, n)
    ensures Awaited(s, k, n) ==> Awaited(t, k, n)
  {
    if Awaited(s, k, n) {
      forall j | n <= j < |t.log| && Touches(t.log[j], k) ensures j in t.pending {
        if j < |s.log| { assert s.log[j] == t.log[j]; }
      }
    }
  }

  lemma GrewKeeps(s: State, t: State)
    requires Coherent(s) && Grew(s, t)
    ensures Coherent(t)
  {
    hide Touches, VectorOf, SeenAt, Awaited;
    forall k, id | k in t.cache ensures CachedOk(t, k, id) {
      assert CachedOk(s, k, id);
      var n :| SeenAt(s, k, s.cache[k], id, n) && Awaited(s, k, n);
      GrewKeepsCached(s, t, k, s.cache[k], id, n);
    }
    forall i | i in t.ops && t.ops[i].req.Vectors? ensures ReaderOk(t, t.ops[i]) {
      GrewKeepsReader(s, t, s.ops[i]);
    }
  }

  lemma GrewKeepsReader(s: State, t: State, op: Op)
    requires |s.stores| == |s.log| + 1 && op.req.Vectors? && ReaderOk(s, op) && Grew(s, t)
    ensures ReaderOk(t, op)
  {
    hide Touches, VectorOf, SeenAt, Awaited, After;
    forall id ensures Scanned(s, op, id) ==> Scanned(t, op, id) {
      if Scanned(s, op, id) {
        var n :| op.scan.startLen <= n && SeenAt(s, KeyOf(op), op.scan.seen, id, n)
            && (op.scan.gen == s.gen ==> Awaited(s, KeyOf(op), n));
        GrewKeepsCached(s, t, KeyOf(op), op.scan.seen, id, n);
      }
    }
    forall id ensures Answered(s, op, id) ==> Answered(t, op, id) {
      if Answered(s, op, id) {
        var n :| SeenAt(s, KeyOf(op), op.scan.seen, id, n) && Missed(s, op, n);
        GrewKeepsCached(s, t, KeyOf(op), op.scan.seen, id, n);
        assert Missed(t, op, n);
      }
    }
  }

  /** An invalidation forgets exactly the sets its commit touched, and spoils every scan under way. */
  lemma DroppedKeeps(s: State, t: State, p: Bytes, c: Option<Bytes>, index: nat)
    requires Coherent(s) && Dropped(s, t, p, c, index) && index < |s.log|
    requires forall k | Touches(s.log[index], k) :: k.p == p && (c.None? || k.c == c.value)
    ensures Coherent(t)
  {
    hide VectorOf, Touches;
    forall k, id | k in t.cache ensures CachedOk(t, k, id) {
      assert k in s.cache && CachedOk(s, k, id) && !Touches(s.log[index], k);
      var n :| SeenAt(s, k, s.cache[k], id, n) && Awaited(s, k, n);
      assert SeenAt(t, k, t.cache[k], id, n) && Awaited(t, k, n);
    }
    forall i | i in t.ops && t.ops[i].req.Vectors? ensures ReaderOk(t, t.ops[i]) {
      DroppedKeepsReader(s, t, s.ops[i], p, c, index);
    }
  }

  lemma DroppedKeepsReader(s: State, t: State, op: Op, p: Bytes, c: Option<Bytes>, index: nat)
    requires op.req.Vectors? && ReaderOk(s, op) && Dropped(s, t, p, c, index)
    ensures ReaderOk(t, op)
  {
    hide Touches, VectorOf, Awaited, After;
    forall id ensures (op.scan.gen <= s.gen && Scanned(s, op, id)) ==> Scanned(t, op, id) {
      if op.scan.gen <= s.gen && Scanned(s, op, id) {
        var n :| op.scan.startLen <= n && SeenAt(s, KeyOf(op), op.scan.seen, id, n)
            && (op.scan.gen == s.gen ==> Awaited(s, KeyOf(op), n));
        assert SeenAt(t, KeyOf(op), op.scan.seen, id, n);
      }
    }
    forall id ensures Answered(s, op, id) ==> Answered(t, op, id) {
      if Answered(s, op, id) {
        var n :| SeenAt(s, KeyOf(op), op.scan.seen, id, n) && Missed(s, op, n);
        assert SeenAt(t, KeyOf(op), op.scan.seen, id, n) && Missed(t, op, n);
      }
    }
  }

  lemma StillKeeps(s: State, t: State)
    requires Coherent(s) && Still(s, t)
    ensures Coherent(t)
  {
    hide Touches, VectorOf, SeenAt, Awaited, After, Missed;
    forall k, id | k in t.cache ensures CachedOk(t, k, id) {
      assert CachedOk(s, k, id);
      var n :| SeenAt(s, k, s.cache[k], id, n) && Awaited(s, k, n);
      StillSame(s, t, k, s.cache[k], id, n);
    }
    forall i | i in t.ops && t.ops[i].req.Vectors? ensures ReaderOk(t, t.ops[i]) {
      StillKeepsReader(s, t, s.ops[i]);
    }
  }

  lemma StillSame(s: State, t: State, k: CacheKey, v: VectorSet, id: Bytes, n: nat)
    requires t.log == s.log && t.stores == s.stores && t.pending == s.pending
    ensures SeenAt(s, k, v, id, n) == SeenAt(t, k, v, id, n)
    ensures Awaited(s, k, n) == Awaited(t, k, n)
  {}

  lemma StillKeepsReader(s: State, t: State, op: Op)
    requires op.req.Vectors? && ReaderOk(s, op)
    requires t.log == s.log && t.stores == s.stores && t.pending == s.pending && t.gen == s.gen
    ensures ReaderOk(t, op)
  {
    hide Touches, VectorOf, SeenAt, Awaited, After;
    forall id ensures (Scanned(s, op, id) ==> Scanned(t, op, id)) && (Answered(s, op, id) ==> Answered(t, op, id)) {
      forall n ensures SeenAt(s, KeyOf(op), op.scan.seen, id, n) == SeenAt(t, KeyOf(op), op.scan.seen, id, n)
        && Awaited(s, KeyOf(op), n) == Awaited(t, KeyOf(op), n) && Missed(s, op, n) == Missed(t, op, n)
      {
        StillSame(s, t, KeyOf(op), op.scan.seen, id, n);
      }
    }
  }

  // ---- Steps of a vector read ----

  /** One reader moved; the rest of the shared state stayed, except perhaps the cache. */
  lemma ReaderStep(s: State, i: OpId, op: Op, cache: map<CacheKey, VectorSet>)
    requires Coherent(s) && i in s.ops && op.req.Vectors? && ReaderOk(s, op)
    requires forall k, id | k in cache :: Backed(s, k, cache[k], id)
    ensures Coherent(Update(s, i, op).(cache := cache))
  {
    hide Touches, VectorOf, SeenAt, Awaited, After, ReaderOk;
    var t := Update(s, i, op).(cache := cache);
    forall k, id | k in t.cache ensures CachedOk(t, k, id) {
      assert Backed(s, k, cache[k], id);
      var n :| SeenAt(s, k, cache[k], id, n) && Awaited(s, k, n);
      StillSame(s, t, k, cache[k], id, n);
    }
    forall j | j in t.ops && t.ops[j].req.Vectors? ensures ReaderOk(t, t.ops[j]) {
      StillKeepsReader(s, t, t.ops[j]);
    }
  }

  /** A hit: the cached set answers for everything the caller can have waited for. */
  lemma HitAnswers(s: State, op: Op, id: Bytes)
    requires op.req.Vectors? && ReaderOk(s, op) && KeyOf(op) in s.cache && CachedOk(s, KeyOf(op), id)
    ensures Answered(s, op.(scan := op.scan.(seen := s.cache[KeyOf(op)]), pc := Done), id)
  {
    hide Touches, VectorOf;
    var k := KeyOf(op);
    var op' := op.(scan := op.scan.(seen := s.cache[k]), pc := Done);
    var n :| SeenAt(s, k, s.cache[k], id, n) && Awaited(s, k, n);
    assert SeenAt(s, KeyOf(op'), op'.scan.seen, id, n) && Missed(s, op', n);
  }

  /** A set scanned since the call began answers too. */
  lemma ScanAnswers(s: State, op: Op, id: Bytes)
    requires op.req.Vectors? && ReaderOk(s, op) && Scanned(s, op, id)
    ensures Answered(s, op.(pc := Done), id)
  {
    hide Touches, VectorOf, Awaited;
    var n :| op.scan.startLen <= n && SeenAt(s, KeyOf(op), op.scan.seen, id, n)
        && (op.scan.gen == s.gen ==> Awaited(s, KeyOf(op), n));
    var op' := op.(pc := Done);
    assert SeenAt(s, KeyOf(op'), op'.scan.seen, id, n) && Missed(s, op', n);
  }

  /** What is read from the current store is current. */
  lemma ScannedNow(s: State, op: Op, id: Bytes)
    requires |s.stores| == |s.log| + 1 && op.req.Vectors? && op.scan.startLen <= |s.log|
    requires VectorOf(Now(s), KeyOf(op), id) == Entry(op.scan.seen, id)
    ensures Scanned(s, op, id)
  {
    hide Touches;
    assert SeenAt(s, KeyOf(op), op.scan.seen, id, |s.log|) && Awaited(s, KeyOf(op), |s.log|);
  }

  /** Passing one entry: the ids in between hold nothing now, earlier ids are as they were read. */
  lemma NextVectorOk(s: State, op: Op, id: Bytes)
    requires |s.stores| == |s.log| + 1 && op.req.Vectors? && ReaderOk(s, op) && op.pc.VecScan?
    requires IsNextVector(Now(s), op, id)
    ensures ReaderOk(s, PassVector(Now(s), op, id))
  {
    hide Touches, Awaited, Answered;
    var op' := PassVector(Now(s), op, id);
    forall x ensures After(op'.scan.pos, x) <==> x != id && !Less(x, id) { LessTrichotomy(x, id); }
    forall x | x in op'.scan.seen ensures !After(op'.scan.pos, x) {
      if x != id { NotAfter(op.scan.pos, id, x); }
    }
    forall x | !After(op'.scan.pos, x) ensures Scanned(s, op', x) {
      if x == id || After(op.scan.pos, x) {
        ScannedNow(s, op', x);
      } else {
        assert Scanned(s, op, x);
        var n :| op.scan.startLen <= n && SeenAt(s, KeyOf(op), op.scan.seen, x, n)
            && (op.scan.gen == s.gen ==> Awaited(s, KeyOf(op), n));
        assert SeenAt(s, KeyOf(op'), op'.scan.seen, x, n);
      }
    }
  }

  lemma NotAfter(pos: Option<Bytes>, id: Bytes, x: Bytes)
    requires After(pos, id) && !After(pos, x)
    ensures Less(x, id)
  {
    LessTrichotomy(x, pos.value);
    if x != pos.value { LessTransitive(x, pos.value, id); }
  }

  lemma ExhaustedOk(s: State, op: Op)
    requires |s.stores| == |s.log| + 1 && op.req.Vectors? && ReaderOk(s, op) && op.pc.VecScan?
    requires ScanExhausted(Now(s), op)
    ensures ReaderOk(s, op.(pc := VecPublish))
  {
    hide Touches, Awaited, Answered;
    var op' := op.(pc := VecPublish);
    forall x ensures Scanned(s, op', x) {
      if After(op.scan.pos, x) {
        ScannedNow(s, op', x);
      } else {
        assert Scanned(s, op, x);
        var n :| op.scan.startLen <= n && SeenAt(s, KeyOf(op), op.scan.seen, x, n)
            && (op.scan.gen == s.gen ==> Awaited(s, KeyOf(op), n));
        assert SeenAt(s, KeyOf(op'), op'.scan.seen, x, n);
      }
    }
  }

  /** Publishing under an unchanged generation. */
  lemma PublishOk(s: State, i: OpId)
    requires Coherent(s) && i in s.ops && s.ops[i].req.Vectors? && s.ops[i].pc.VecPublish?
    ensures Coherent(GoVectors(s, i).value)
  {
    hide Touches, VectorOf, SeenAt, Awaited, After, CacheOk;
    var op := s.ops[i];
    var k, op' := KeyOf(op), op.(pc := Done);
    assert ReaderOk(s, op);
    forall id ensures Answered(s, op', id) { ScanAnswers(s, op, id); }
    var cache := if s.gen == op.scan.gen then s.cache[k := op.scan.seen] else s.cache;
    forall k', id | k' in cache ensures Backed(s, k', cache[k'], id) {
      if k' == k && s.gen == op.scan.gen {
        assert Scanned(s, op, id);
      } else {
        CachedHere(s, k', id);
      }
    }
    ReaderStep(s, i, op', cache);
    assert GoVectors(s, i).value == Update(s, i, op').(cache := cache);
  }

  lemma CachedHere(s: State, k: CacheKey, id: Bytes)
    requires CacheOk(s) && k in s.cache
    ensures CachedOk(s, k, id)
  {}

  lemma OwnReaderStep(s: State, i: OpId, op: Op)
    requires Coherent(s) && i in s.ops && op.req.Vectors? && ReaderOk(s, op)
    ensures Coherent(Update(s, i, op))
  {
    hide Touches, VectorOf, SeenAt, Awaited, After, ReaderOk, CacheOk;
    forall k, id | k in s.cache ensures Backed(s, k, s.cache[k], id) {
      CachedHere(s, k, id);
    }
    ReaderStep(s, i, op, s.cache);
    assert Update(s, i, op).(cache := s.cache) == Update(s, i, op);
  }

  lemma GoVectorsCoherent(s: State, i: OpId)
    requires Coherent(s) && i in s.ops && s.ops[i].req.Vectors? && GoVectors(s, i).Some?
    ensures Coherent(GoVectors(s, i).value)
  {
    hide Touches, VectorOf, SeenAt, Awaited, ScanExhausted, CacheOk, Scanned, Answered;
    var op := s.ops[i];
    assert ReaderOk(s, op);
    match op.pc
    case VecCheck =>
      if KeyOf(op) in s.cache {
        var op' := op.(scan := op.scan.(seen := s.cache[KeyOf(op)]), pc := Done);
        forall id ensures Answered(s, op', id) {
          CachedHere(s, KeyOf(op), id);
          HitAnswers(s, op, id);
        }
        OwnReaderStep(s, i, op');
      } else {
        OwnReaderStep(s, i, op.(pc := VecLoad));
      }
    case VecLoad => OwnReaderStep(s, i, op.(scan := op.scan.(gen := s.gen, pos := None, seen := map[]), pc := VecScan));
    case VecScan =>
      ExhaustedOk(s, op);
      OwnReaderStep(s, i, op.(pc := VecPublish));
    case VecPublish => PublishOk(s, i);
    case _ =>
  }

  // ---- Every step ----

  lemma GoWriteShape(e: Env, s: State, i: OpId)
    requires s.stores != [] && i in s.ops && IsWriteReq(s.ops[i].req) && GoWrite(e, s, i).Some?
    ensures var t, op := GoWrite(e, s, i).value, s.ops[i];
            if op.pc.Sequence? then Grew(s, t)
            else if op.pc.Invalidate? then Dropped(s, t, op.req.p, Some(op.req.c), op.index)
            else Still(s, t)
  {
    hide CanAcquire, WriteEffectWith;
    KeepsReq(e, s, i);
  }

  lemma KeepsReq(e: Env, s: State, i: OpId)
    requires s.stores != [] && i in s.ops && IsWriteReq(s.ops[i].req)
    ensures Reads(s.ops[i].pc) ==> ReadStep(Now(s), s.ops[i]).req == s.ops[i].req
    ensures Waits(s.ops[i].pc) ==> Acquired(s.ops[i]).req == s.ops[i].req
  {
    hide DocAt, SchemaAt, StatsAt, SearchDefs;
  }

  lemma PushMovesKeepReq(op: Op)
    ensures Stop(op, Failed).req == Stop(op, Done).req == Flushed(op).req == op.req
  {}

  lemma OneWriterMoved(s: State, t: State, i: OpId)
    requires i in t.ops && t.ops == s.ops[i := t.ops[i]] && !t.ops[i].req.Vectors?
    ensures ReadersSame(s, t)
  {}

  lemma GoPushShape(e: Env, s: State, i: OpId)
    requires s.stores != [] && i in s.ops && s.ops[i].req.Push? && GoPush(e, s, i).Some?
    ensures var t, op := GoPush(e, s, i).value, s.ops[i];
            if op.pc.PushWrite? then Grew(s, t)
            else if op.pc.PushInvalidate? then Dropped(s, t, op.req.p, None, op.index)
            else Still(s, t)
  {
    hide PushEffect, SchemaAt, CanExclude, Stop, Flushed, ReadersSame;
    PushMovesKeepReq(s.ops[i]);
    OneWriterMoved(s, GoPush(e, s, i).value, i);
  }

  lemma InvalidationMatches(e: Env, s: State, i: OpId)
    requires Inv(e, s) && i in s.ops && (s.ops[i].pc.Invalidate? || s.ops[i].pc.PushInvalidate?)
    requires s.ops[i].pc.Invalidate? <==> !s.ops[i].req.Push?
    requires !s.ops[i].req.Vectors?
    ensures var op := s.ops[i];
            && op.index < |s.log|
            && forall k | Touches(s.log[op.index], k) :: k.p == op.req.p && (op.req.Push? || k.c == op.req.c)
  {
    hide Facts, Compatible, AtomicStep;
    assert Placed(s, i, s.ops[i]);
  }

  lemma GoCoherent(e: Env, s: State, i: OpId)
    requires Inv(e, s) && Coherent(s) && s.stores != [] && i in s.ops && Next(e, s, Go(i)).Some?
    ensures Coherent(Next(e, s, Go(i)).value)
  {
    hide Inv, Coherent, GoWrite, GoPush, GoVectors, Still, Grew, Dropped, Touches;
    var op, t := s.ops[i], Next(e, s, Go(i)).value;
    if op.req.Vectors? {
      GoVectorsCoherent(s, i);
    } else if op.req.Push? {
      GoPushShape(e, s, i);
      if op.pc.PushWrite? { GrewKeeps(s, t); }
      else if op.pc.PushInvalidate? { InvalidationMatches(e, s, i); DroppedKeeps(s, t, op.req.p, None, op.index); }
      else { StillKeeps(s, t); }
    } else {
      GoWriteShape(e, s, i);
      if op.pc.Sequence? { GrewKeeps(s, t); }
      else if op.pc.Invalidate? {
        InvalidationMatches(e, s, i);
        DroppedKeeps(s, t, op.req.p, Some(op.req.c), op.index);
      }
      else { StillKeeps(s, t); }
    }
  }

  lemma OtherShapes(e: Env, s: State, l: Label)
    requires s.stores != [] && Next(e, s, l).Some?
    requires l.CallProvider? || l.DecideNow? || l.Durable? || (l.Fail? && l.i in s.ops && !s.ops[l.i].req.Vectors?)
          || (l.Begin? && !l.req.Vectors?)
    ensures Still(s, Next(e, s, l).value)
  {
    hide Prepare, Judge, DecideStep, EmbedStep, Start, Failing;
    match l
    case CallProvider(i, provider) => OwnMoveKeepsReq(s.ops[i], Refuse, Prepare(e, s.ops[i], provider));
    case DecideNow(i, time, newId, provider) =>
      var named := if s.ops[i].req.Insert? then s.ops[i].(id := newId) else s.ops[i];
      OwnMoveKeepsReq(named, Judge(e, named, time, provider), Embed.Failed);
    case Fail(i) => FailingKeepsReq(s.ops[i]);
    case Begin(i, req) => StartHasReq(s, req);
    case _ =>
  }

  lemma OwnMoveKeepsReq(op: Op, decision: Decision, outcome: Embed.Outcome)
    requires IsWriteReq(op.req)
    ensures DecideStep(op, decision).req == op.req && EmbedStep(op, outcome).req == op.req
  {}

  lemma FailingKeepsReq(op: Op)
    ensures Failing(op).Some? ==> Failing(op).value.req == op.req
  {}

  lemma StartHasReq(s: State, req: Request)
    ensures Start(s, req).req == req
  {}

  lemma BeginReader(s: State, i: OpId, req: Request)
    requires Coherent(s) && req.Vectors?
    ensures Coherent(Update(s, i, Start(s, req)))
  {
    hide Touches, VectorOf, SeenAt, Awaited, After, Scanned, Answered, CacheOk;
    var t := Update(s, i, Start(s, req));
    assert ReaderOk(s, Start(s, req));
    forall k, id | k in s.cache ensures CachedOk(t, k, id) {
      CachedHere(s, k, id);
      var n :| SeenAt(s, k, s.cache[k], id, n) && Awaited(s, k, n);
      StillSame(s, t, k, s.cache[k], id, n);
    }
    CacheGathers(t);
    forall j | j in t.ops && t.ops[j].req.Vectors? ensures ReaderOk(t, t.ops[j]) { StillKeepsReader(s, t, t.ops[j]); }
  }

  lemma CacheGathers(s: State)
    requires forall k, id | k in s.cache :: CachedOk(s, k, id)
    ensures CacheOk(s)
  {}

  lemma NextCoherent(e: Env, s: State, l: Label)
    requires Inv(e, s) && Coherent(s) && Next(e, s, l).Some?
    ensures Coherent(Next(e, s, l).value)
  {
    hide Inv, GoWrite, GoPush, GoVectors, Prepare, Judge, DecideStep, EmbedStep, Start, Still, CacheOk, Scanned;
    hide Answered;
    match l
    case Go(i) => GoCoherent(e, s, i);
    case NextVector(i, id) =>
      NextVectorOk(s, s.ops[i], id);
      OwnReaderStep(s, i, PassVector(Now(s), s.ops[i], id));
    case Begin(i, req) =>
      if req.Vectors? { BeginReader(s, i, req); } else { OtherShapes(e, s, l); StillKeeps(s, Next(e, s, l).value); }
    case Fail(i) =>
      if s.ops[i].req.Vectors? {
        FailedReader(s, i);
      } else {
        OtherShapes(e, s, l);
        StillKeeps(s, Next(e, s, l).value);
      }
    case Crash(n) => CrashCoherent(s, n);
    case _ =>
      OtherShapes(e, s, l);
      StillKeeps(s, Next(e, s, l).value);
  }

  lemma FailedReader(s: State, i: OpId)
    requires Coherent(s) && i in s.ops && s.ops[i].req.Vectors? && FailStep(s, i).Some?
    ensures Coherent(FailStep(s, i).value)
  {
    hide CacheOk, Scanned, Answered;
    var op := s.ops[i];
    assert ReaderOk(s, op);
    var op' := Failing(op).value;
    assert op'.scan == op.scan && op'.req == op.req && (op'.pc.Failed? || op'.pc.Invalidate? || op'.pc.Abandoned?);
    OwnReaderStep(s, i, op');
  }

  lemma CrashCoherent(s: State, n: nat)
    requires CrashStep(s, n).Some?
    ensures Coherent(CrashStep(s, n).value)
  {}

  lemma {:induction false} RunCoherent(e: Env, s: State, labels: seq<Label>)
    requires Inv(e, s) && Coherent(s) && Run(e, s, labels).Some?
    ensures Coherent(Run(e, s, labels).value)
  {
    hide Inv, Next, Coherent;
    if labels != [] {
      var n := |labels| - 1;
      RunCoherent(e, s, labels[..n]);
      RunKeeps(e, s, labels[..n]);
      NextCoherent(e, Run(e, s, labels[..n]).value, labels[n]);
    }
  }

  lemma ReachableCoherent(e: Env, s: State)
    requires Reachable(e, s)
    ensures Coherent(s)
  {
    hide Inv, Run;
    var s0, labels :| Initial(e, s0) && Run(e, s0, labels) == Some(s);
    InitialInv(e, s0);
    RunCoherent(e, s0, labels);
  }

  // ---- What it means ----

  lemma UntouchedVector(e: Env, before: Store, commit: Commit, after: Store, k: CacheKey, id: Bytes)
    requires AtomicStep(e, before, commit, after) && Typed(before) && !Touches(commit, k)
    ensures VectorOf(after, k, id) == VectorOf(before, k, id)
  {
    hide AfterPush, PushEffect, WriteOk, WriteEffect;
    var key := VecKey(k.p, k.c, k.name, id);
    match commit
    case WriteCommit(_, req, id', was, _, now, _) =>
      CommitIds(e, before, commit, after);
      TypedSchema(before, req.p, req.c);
      TypedDoc(before, req.p, req.c, id');
      WriteEffectAt(e, before, req.p, req.c, id', was, now, key);
      ApplyLook(before, WriteEffect(e, before, req.p, req.c, id', was, now), key);
    case PushCommit(_, p, schema, _) => PushLook(e, before, p, schema, key);
  }

  lemma {:induction false} UntouchedVectors(e: Env, s: State, k: CacheKey, id: Bytes, a: nat, b: nat)
    requires Serial(e, s) && AllTyped(s) && a <= b <= |s.log|
    requires forall j | a <= j < b :: !Touches(s.log[j], k)
    ensures VectorOf(s.stores[a], k, id) == VectorOf(s.stores[b], k, id)
  {
    hide AtomicStep, VectorOf, Touches;
    if a < b {
      UntouchedVectors(e, s, k, id, a, b - 1);
      assert AtomicStep(e, s.stores[b - 1], s.log[b - 1], s.stores[b]) && Typed(s.stores[b - 1]);
      UntouchedVector(e, s.stores[b - 1], s.log[b - 1], s.stores[b], k, id);
    }
  }

  /** A cached set that differs from a fresh scan has an operation to blame: a write to that collection or a
      push on that project that is past its batch and has not invalidated, be it still on its way or a push
      that gave up waiting for its batch to become durable. And nothing has invalidated since: neither that
      commit nor any later one on these vectors. */
  lemma StaleOnlyInFlight(e: Env, s: State, k: CacheKey)
    requires Reachable(e, s) && s.stores != [] && k in s.cache && !IsScan(Now(s), k, s.cache[k])
    ensures exists i :: i in s.ops && Blamed(s, k, i)
  {
    hide Facts, Compatible, AtomicStep, Reachable, VectorOf, Touches;
    ReachableInv(e, s);
    ReachableCoherent(e, s);
    var id :| Entry(s.cache[k], id) != VectorOf(Now(s), k, id);
    assert |s.stores| == |s.log| + 1;
    CachedHere(s, k, id);
    var n: nat :| SeenAt(s, k, s.cache[k], id, n) && Awaited(s, k, n);
    if forall j: nat | n <= j < |s.log| :: !Touches(s.log[j], k) {
      UntouchedVectors(e, s, k, id, n, |s.log|);
      assert false;
    }
    var j: nat :| n <= j < |s.log| && Touches(s.log[j], k);
    assert j in s.pending;
    assert PendingHas(s, j);
  }

  /** The operation's commit may have changed these vectors, and every such commit from it on has not invalidated. */
  predicate Blamed(s: State, k: CacheKey, i: OpId)
    requires i in s.ops
  {
    var op := s.ops[i];
    && AfterSequence(op.pc) && op.index < |s.log| && Touches(s.log[op.index], k)
    && forall j | op.index <= j < |s.log| && Touches(s.log[j], k) :: j in s.pending
  }

  /** So an abandoned push spoils the cache only until the next write or push on those vectors invalidates: once
      the last commit on them has, whatever came before, a cached set is what a scan would answer. */
  lemma InvalidationRestores(e: Env, s: State, k: CacheKey, last: nat)
    requires Reachable(e, s) && s.stores != [] && k in s.cache
    requires last < |s.log| && Touches(s.log[last], k) && last !in s.pending
    requires forall j | last < j < |s.log| :: !Touches(s.log[j], k)
    ensures IsScan(Now(s), k, s.cache[k])
  {
    hide Reachable, IsScan, Touches, AfterSequence;
    forall i | i in s.ops ensures !Blamed(s, k, i) { BlameReaches(s, k, i, last); }
    if !IsScan(Now(s), k, s.cache[k]) { StaleOnlyInFlight(e, s, k); }
  }

  lemma BlameReaches(s: State, k: CacheKey, i: OpId, last: nat)
    requires i in s.ops && last < |s.log| && Touches(s.log[last], k)
    requires forall j | last < j < |s.log| :: !Touches(s.log[j], k)
    ensures Blamed(s, k, i) ==> last in s.pending
  {
    hide Touches, AfterSequence;
  }

  /** A vector read answers, for every id, as some store that holds every commit on these vectors sequenced
      before the read began, save those that had not yet invalidated then. In particular it reflects every
      write that had returned. */
  lemma ReadsReflectReturnedWrites(e: Env, s: State, i: OpId, id: Bytes)
    requires Reachable(e, s) && i in s.ops && s.ops[i].req.Vectors? && s.ops[i].pc == Done
    ensures var op := s.ops[i];
            exists n :: SeenAt(s, KeyOf(op), op.scan.seen, id, n)
              && forall j | 0 <= j < op.scan.startLen && j < |s.log| && Touches(s.log[j], KeyOf(op))
                   && j !in op.scan.startPending :: j < n
  {
    hide Reachable, Touches, VectorOf;
    ReachableCoherent(e, s);
    var op := s.ops[i];
    assert ReaderOk(s, op) && Answered(s, op, id);
    var n :| SeenAt(s, KeyOf(op), op.scan.seen, id, n) && Missed(s, op, n);
    assert forall j | 0 <= j < op.scan.startLen && j < |s.log| && Touches(s.log[j], KeyOf(op))
             && j !in op.scan.startPending :: j < n;
  }

  /** A read that begins after a write or push returned success counts that commit among those it must hold. */
  lemma ReturnedBeforeRead(e: Env, s: State, i: OpId, p: Bytes, c: Bytes, name: Bytes)
    requires Reachable(e, s) && i in s.ops && s.ops[i].pc == Done && !s.ops[i].req.Vectors?
    ensures var n, read := s.ops[i].index, Start(s, Vectors(p, c, name));
            n < read.scan.startLen <= |s.log| && n !in read.scan.startPending && IsCommitOf(s.log[n], i, s.ops[i])
  {
    hide Reachable, IsCommitOf;
    SuccessIsDurable(e, s, i);
  }

  /** A read that began with no such write in flight, and met none, answers exactly what a scan would. */
  lemma QuietReadIsScan(e: Env, s: State, i: OpId)
    requires Reachable(e, s) && i in s.ops && s.ops[i].req.Vectors? && s.ops[i].pc == Done && s.stores != []
    requires forall j | j in s.ops[i].scan.startPending && j < |s.log| :: !Touches(s.log[j], KeyOf(s.ops[i]))
    requires forall j | s.ops[i].scan.startLen <= j < |s.log| :: !Touches(s.log[j], KeyOf(s.ops[i]))
    ensures IsScan(Now(s), KeyOf(s.ops[i]), s.ops[i].scan.seen)
  {
    hide Reachable, Touches, VectorOf, AtomicStep, Facts, Compatible;
    ReachableInv(e, s);
    var op := s.ops[i];
    forall id ensures Entry(op.scan.seen, id) == VectorOf(Now(s), KeyOf(op), id) {
      ReadsReflectReturnedWrites(e, s, i, id);
      var n :| SeenAt(s, KeyOf(op), op.scan.seen, id, n)
        && forall j | 0 <= j < op.scan.startLen && j < |s.log| && Touches(s.log[j], KeyOf(op))
             && j !in op.scan.startPending :: j < n;
      UntouchedVectors(e, s, KeyOf(op), id, n, |s.log|);
    }
  }

  // ---- A push that gives up after its batch ----

  lemma Extend(e: Env, s: State, l: Label) returns (t: State)
    requires Reachable(e, s) && Next(e, s, l).Some?
    ensures Reachable(e, t) && Next(e, s, l) == Some(t)
  {
    hide Next, Initial;
    var s0, labels :| Initial(e, s0) && Run(e, s0, labels) == Some(s);
    t := Next(e, s, l).value;
    assert (labels + [l])[..|labels|] == labels;
    assert Run(e, s0, labels + [l]) == Some(t);
  }

  lemma BeginIs(e: Env, s: State, i: OpId, req: Request)
    requires s.stores != [] && i !in s.ops && (req.Push? ==> WellNamed(req.schema))
    ensures Next(e, s, Begin(i, req)) == Some(Update(s, i, Start(s, req)))
  {}

  lemma GoIs(e: Env, s: State, i: OpId)
    requires s.stores != [] && i in s.ops
    ensures s.ops[i].req.Push? ==> Next(e, s, Go(i)) == GoPush(e, s, i)
    ensures s.ops[i].req.Vectors? ==> Next(e, s, Go(i)) == GoVectors(s, i)
    ensures Next(e, s, Fail(i)) == FailStep(s, i)
  {
    hide GoPush, GoVectors, GoWrite, FailStep;
  }

  lemma LoadNothing(e: Env, s: State, k: CacheKey) returns (t: State)
    requires Reachable(e, s) && s.stores != [] && s.ops == map[] && k !in s.cache
    ensures Reachable(e, t) && t.stores == s.stores && t.log == s.log
    ensures t.ops.Keys == {0} && t.cache == s.cache && t.gen == s.gen
    ensures var op := t.ops[0];
            && op.req == Vectors(k.p, k.c, k.name) && op.pc == VecScan && op.guards == NO_GUARDS
            && op.scan.gen == s.gen && op.scan.seen == map[]
  {
    hide Reachable, Next, GoPush, GoWrite, FailStep;
    BeginIs(e, s, 0, Vectors(k.p, k.c, k.name));
    var t1 := Extend(e, s, Begin(0, Vectors(k.p, k.c, k.name)));
    GoIs(e, t1, 0);
    var t2 := Extend(e, t1, Go(0));
    GoIs(e, t2, 0);
    t := Extend(e, t2, Go(0));
  }

  /** A vector read of an index without entries caches the empty set. */
  lemma CacheEmpty(e: Env, s: State, k: CacheKey) returns (t: State)
    requires Reachable(e, s) && s.stores != [] && s.ops == map[] && k !in s.cache
    requires forall id :: VectorOf(Now(s), k, id) == None
    ensures Reachable(e, t) && k in t.cache && t.cache[k] == map[]
    ensures t.stores == s.stores && t.ops.Keys == {0} && t.ops[0].pc == Done && t.ops[0].guards == NO_GUARDS
    ensures t.log == s.log
  {
    hide Reachable, Next, GoPush, GoWrite, FailStep;
    var t3 := LoadNothing(e, s, k);
    assert ScanExhausted(Now(t3), t3.ops[0]) by {
      assert forall other :: VectorOf(Now(s), k, other) == VecAt(Now(t3), k.p, k.c, k.name, other);
    }
    GoIs(e, t3, 0);
    var t4 := Extend(e, t3, Go(0));
    GoIs(e, t4, 0);
    t := Extend(e, t4, Go(0));
  }

  lemma PushChecked(e: Env, s: State, p: Bytes, schema: ProjectSchema) returns (t: State)
    requires Reachable(e, s) && s.stores != [] && s.ops.Keys == {0} && s.ops[0].guards == NO_GUARDS && WellNamed(schema)
    ensures Reachable(e, t) && t.cache == s.cache && t.stores == s.stores && t.log == s.log && t.ops.Keys == {0, 1}
    ensures t.ops[0] == s.ops[0]
    ensures t.ops[1].req == Push(p, schema, _ => true) && t.ops[1].pc == PushScan
  {
    hide Reachable, Next, PushEffect, SchemaAt;
    var req := Push(p, schema, _ => true);
    BeginIs(e, s, 1, req);
    var t1 := Extend(e, s, Begin(1, req));
    GoIs(e, t1, 1);
    var t2 := Extend(e, t1, Go(1));
    GoIs(e, t2, 1);
    t := Extend(e, t2, Go(1));
  }

  /** A push whose wait for durability fails: its batch is visible, the cache was not told. */
  lemma PushAbandons(e: Env, s: State, p: Bytes, schema: ProjectSchema) returns (t: State)
    requires Reachable(e, s) && s.stores != [] && s.ops.Keys == {0} && s.ops[0].guards == NO_GUARDS && WellNamed(schema)
    ensures Reachable(e, t) && t.cache == s.cache && t.stores == s.stores + [AfterPush(e, Now(s), p, schema)]
    ensures |t.log| == |s.log| + 1 && t.log[|s.log|].PushCommit? && t.log[|s.log|].schema == schema
    ensures t.ops.Keys == {0, 1} && t.ops[0] == s.ops[0] && t.ops[1].pc == Abandoned
  {
    hide Reachable, Next, PushEffect;
    var t3 := PushChecked(e, s, p, schema);
    GoIs(e, t3, 1);
    var t4 := Extend(e, t3, Go(1));
    GoIs(e, t4, 1);
    var t5 := Extend(e, t4, Go(1));
    GoIs(e, t5, 1);
    t := Extend(e, t5, Fail(1));
  }

  /** One collection with one vector field of the width the number `bits` reads as, and an index on it. */
  function WidthSchema(c: Bytes, name: Bytes, field: Bytes, bits: bits64, n: nat): ProjectSchema {
    var validator := Object(map[Validation.TYPE := Str(Validation.VECTOR), Validation.DIMS := Number(bits)]);
    ProjectSchema(map[c := CollectionSchema(map[field := validator], [], [], [VectorIndexDef(name, field, Dot, n)],
                                            None)])
  }

  lemma WidthSchemaAccepted(e: Env, c: Bytes, name: Bytes, field: Bytes, bits: bits64, n: nat)
    requires ValidName(c) && ValidIndexName(name) && e.whole(bits) == Some(n) && 1 <= n <= Validation.MAX_DIMS
    requires field !in Validation.RESERVED
    ensures Validation.PushAccepted(e, WidthSchema(c, name, field, bits, n))
  {
    var cs := WidthSchema(c, name, field, bits, n).collections[c];
    var validator := cs.fields[field];
    assert Validation.VECTOR[0] != Validation.OPTIONAL[0];
    assert Validation.Unwrap(validator) == validator;
    assert Validation.TYPE[0] != Validation.FROM[0] && Validation.DIMS[0] != Validation.FROM[0];
  }

  /** The project's schema, one a push accepts, declares the index. */
  predicate Declared(e: Env, st: Store, k: CacheKey) {
    && SchemaAt(st, k.p).Some? && Validation.PushAccepted(e, SchemaAt(st, k.p).value)
    && CollectionAt(st, k.p, k.c).Some? && FindVector(CollectionAt(st, k.p, k.c).value.vectorIndexes, k.name).Some?
  }

  /** So the abandoned push in the condition above is needed. Take any stored document that holds a vector of some
      positive width in one field and nothing in another, an acceptable schema that indexes the other field, a read of
      that declared index, and the push of an acceptable schema that indexes the first field instead: in some
      reachable state every operation has finished and yet the cache serves a set the store no longer holds. */
  lemma AbandonedPushLeavesStaleCache(e: Env, doc: Document, p: Bytes, c: Bytes, name: Bytes, field: Bytes,
                                      other: Bytes, bits: bits64, n: nat)
    requires ValidName(c) && ValidIndexName(name) && e.whole(bits) == Some(n) && 1 <= n <= Validation.MAX_DIMS
    requires field !in Validation.RESERVED && Vectors.DocVector(e, doc.data, field, n).Some?
    requires other !in Validation.RESERVED && other !in doc.data
    ensures exists s, k ::
              && Reachable(e, s) && s.stores != []
              && (forall i | i in s.ops :: s.ops[i].pc.Done? || s.ops[i].pc.Abandoned?)
              && (forall st | st in s.stores :: Declared(e, st, k))
              && (forall j | 0 <= j < |s.log| :: s.log[j].PushCommit? && Validation.PushAccepted(e, s.log[j].schema))
              && k in s.cache && !IsScan(Now(s), k, s.cache[k])
  {
    hide Reachable, IsScan, Validation.PushAccepted, ValidName, ValidIndexName, Vectors.DocVector, Declared;
    var s2, k := StaleAfterPush(e, doc, p, c, name, field, other, bits, n);
    assert forall i | i in s2.ops :: s2.ops[i].pc.Done? || s2.ops[i].pc.Abandoned?;
  }

  /** The document under the schema that indexes the other field. */
  function BlankStore(doc: Document, p: Bytes, c: Bytes, name: Bytes, other: Bytes, bits: bits64, n: nat): Store {
    map[MetaKey(p) := SchemaVal(WidthSchema(c, name, other, bits, n)), DocKey(p, c, doc.id) := DocVal(doc)]
  }

  lemma StaleAfterPush(e: Env, doc: Document, p: Bytes, c: Bytes, name: Bytes, field: Bytes, other: Bytes,
                       bits: bits64, n: nat) returns (s: State, k: CacheKey)
    requires ValidName(c) && ValidIndexName(name) && e.whole(bits) == Some(n) && 1 <= n <= Validation.MAX_DIMS
    requires field !in Validation.RESERVED && Vectors.DocVector(e, doc.data, field, n).Some?
    requires other !in Validation.RESERVED && other !in doc.data
    ensures Reachable(e, s) && s.stores != [] && s.ops.Keys == {0, 1} && s.ops[0].pc == Done && s.ops[1].pc == Abandoned
    ensures |s.log| == 1 && s.log[0].PushCommit? && Validation.PushAccepted(e, s.log[0].schema)
    ensures forall st | st in s.stores :: Declared(e, st, k)
    ensures k in s.cache && !IsScan(Now(s), k, s.cache[k])
  {
    hide Reachable, AfterPush, PushEffect, VectorOf, Validation.PushAccepted, WidthSchema, Vectors.DocVector;
    hide ValidName, ValidIndexName, BlankStore, Declared;
    var st := BlankStore(doc, p, c, name, other, bits, n);
    var s0 := State(map[], [st], [], 0, {}, {}, {doc.id}, map[], 0);
    BlankOpens(e, s0, doc, p, c, name, other, bits, n);
    k := CacheKey(p, c, name);
    BlankHasNoVectors(doc, p, c, name, other, bits, n, k);
    var s1 := CacheEmpty(e, s0, k);
    var schema := WidthSchema(c, name, field, bits, n);
    WidthSchemaAccepted(e, c, name, field, bits, n);
    WidthSchemaAccepted(e, c, name, other, bits, n);
    AcceptedIsNamed(e, schema);
    s := PushAbandons(e, s1, p, schema);
    PushedVector(e, doc, p, c, name, field, other, bits, n);
    PushedDeclares(e, st, p, c, name, field, bits, n);
    BlankDeclares(e, doc, p, c, name, other, bits, n);
    assert VectorOf(Now(s), k, doc.id) != Entry(s.cache[k], doc.id);
  }

  lemma BlankDeclares(e: Env, doc: Document, p: Bytes, c: Bytes, name: Bytes, other: Bytes, bits: bits64, n: nat)
    requires Validation.PushAccepted(e, WidthSchema(c, name, other, bits, n))
    ensures Declared(e, BlankStore(doc, p, c, name, other, bits, n), CacheKey(p, c, name))
  {
    hide Validation.PushAccepted;
  }

  lemma PushedDeclares(e: Env, st: Store, p: Bytes, c: Bytes, name: Bytes, field: Bytes, bits: bits64, n: nat)
    requires Typed(st) && WellNamed(WidthSchema(c, name, field, bits, n))
    requires Validation.PushAccepted(e, WidthSchema(c, name, field, bits, n))
    ensures Declared(e, AfterPush(e, st, p, WidthSchema(c, name, field, bits, n)), CacheKey(p, c, name))
  {
    hide Validation.PushAccepted, AfterPush;
    PushDocs(e, st, p, WidthSchema(c, name, field, bits, n));
  }

  lemma AcceptedIsNamed(e: Env, schema: ProjectSchema)
    requires Validation.PushAccepted(e, schema)
    ensures WellNamed(schema)
  {
    forall c | c in schema.collections ensures UniqueNames(schema.collections[c]) {
      assert Validation.CollectionAccepted(e, c, schema.collections[c]);
    }
  }

  lemma BlankHasNoVectors(doc: Document, p: Bytes, c: Bytes, name: Bytes, other: Bytes, bits: bits64, n: nat,
                          k: CacheKey)
    ensures forall id :: VectorOf(BlankStore(doc, p, c, name, other, bits, n), k, id) == None
  {}

  lemma PushedVector(e: Env, doc: Document, p: Bytes, c: Bytes, name: Bytes, field: Bytes, other: Bytes, bits: bits64,
                     n: nat)
    requires Vectors.DocVector(e, doc.data, field, n).Some?
    ensures var blank := BlankStore(doc, p, c, name, other, bits, n);
            var after := AfterPush(e, blank, p, WidthSchema(c, name, field, bits, n));
            VectorOf(after, CacheKey(p, c, name), doc.id) == Vectors.DocVector(e, doc.data, field, n)
    ensures Typed(BlankStore(doc, p, c, name, other, bits, n))
  {
    hide AfterPush, Vectors.DocVector;
    var st, schema := BlankStore(doc, p, c, name, other, bits, n), WidthSchema(c, name, field, bits, n);
    var cs := schema.collections[c];
    var key := VecKey(p, c, name, doc.id);
    PushLook(e, st, p, schema, key);
    var with := WithSchema(st, p, schema);
    assert DocAt(with, p, c, doc.id) == Some(doc);
    assert EntryAt(e, cs, doc, key) == Some(VecVal(Vectors.DocVector(e, doc.data, field, n).value));
    assert Expected(e, with, key) == EntryAt(e, cs, doc, key);
  }

  /** The document has nothing to index there, so the store agrees with it. */
  lemma BlankOpens(e: Env, s: State, doc: Document, p: Bytes, c: Bytes, name: Bytes, other: Bytes, bits: bits64,
                   n: nat)
    requires s == State(map[], [BlankStore(doc, p, c, name, other, bits, n)], [], 0, {}, {}, {doc.id}, map[], 0)
    requires other !in doc.data
    ensures Reachable(e, s)
  {
    var st := BlankStore(doc, p, c, name, other, bits, n);
    assert Vectors.DocVector(e, doc.data, other, n).None?;
    forall k | PerDocument(k) ensures Look(st, k) == Expected(e, st, k) {
      BlankExpectsNone(e, doc, p, c, name, other, bits, n, k);
    }
    assert Initial(e, s);
    assert Run(e, s, []) == Some(s);
  }

  lemma BlankExpectsNone(e: Env, doc: Document, p: Bytes, c: Bytes, name: Bytes, other: Bytes, bits: bits64, n: nat,
                         k: Key)
    requires PerDocument(k) && other !in doc.data
    ensures var st := BlankStore(doc, p, c, name, other, bits, n); Look(st, k) == Expected(e, st, k) == None
  {
    var defs := [VectorIndexDef(name, other, Dot, n)];
    assert defs[1..] == [];
    assert FindVector(defs, k.name).Some? ==> FindVector(defs, k.name).value == defs[0];
  }
}
