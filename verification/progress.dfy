/** Progress: no state deadlocks, every step an operation takes brings it nearer its end, and a patch needs
    at most three attempts. */
module Progress {
  import opened ByteStrings
  import opened Values
  import opened Keys
  import opened Stores
  import opened Agreement
  import opened Machine
  import opened Safety
  import opened Steps
  import Embed

  predicate Finished(op: Op) { op.pc.Done? || op.pc.Failed? || op.pc.Abandoned? }

  /** A step operation `i` takes by itself, other than giving up. */
  predicate IsMoveOf(l: Label, i: OpId) {
    && (l.Go? || l.CallProvider? || l.DecideNow? || l.NextVector?)
    && l.i == i
  }

  ghost predicate CanMove(e: Env, s: State, i: OpId) {
    exists l :: IsMoveOf(l, i) && Next(e, s, l).Some?
  }

  predicate NeedsLock(op: Op) { Waits(op.pc) || op.pc.PushLock? }

  // ---- Steps that need no lock are always enabled ----

  lemma {:induction false} LongerThanAll(used: set<Bytes>) returns (n: nat)
    ensures forall u | u in used :: |u| < n
  {
    if used == {} {
      n := 0;
    } else {
      var u :| u in used;
      var m := LongerThanAll(used - {u});
      n := if |u| < m then m else |u| + 1;
    }
  }

  /** An insert can always draw an id nobody has used. */
  lemma FreshId(used: set<Bytes>) returns (id: Bytes)
    ensures id !in used
  {
    var n := LongerThanAll(used);
    id := seq(n, _ => 0);
  }

  /** A scan either has a next entry or is through. */
  lemma ScanGoesOn(e: Env, s: State, i: OpId)
    requires s.stores != [] && i in s.ops && s.ops[i].req.Vectors? && s.ops[i].pc.VecScan?
    ensures CanMove(e, s, i)
  {
    hide VecAt;
    var op, st := s.ops[i], Now(s);
    if ScanExhausted(st, op) {
      assert IsMoveOf(Go(i), i) && Next(e, s, Go(i)).Some?;
    } else {
      var p, c, name := op.req.p, op.req.c, op.req.name;
      var ids := set k | k in st && k.VecKey? && After(op.scan.pos, k.id) && VecAt(st, p, c, name, k.id).Some? :: k.id;
      var other :| After(op.scan.pos, other) && VecAt(st, p, c, name, other).Some?;
      HasKey(st, p, c, name, other);
      assert VecKey(p, c, name, other).id in ids;
      var least := LeastOf(ids);
      forall x | After(op.scan.pos, x) && Less(x, least) ensures VecAt(st, p, c, name, x).None? {
        if VecAt(st, p, c, name, x).Some? {
          HasKey(st, p, c, name, x);
          assert VecKey(p, c, name, x).id in ids;
          LessTrichotomy(x, least);
        }
      }
      assert IsNextVector(st, op, least);
      assert IsMoveOf(NextVector(i, least), i) && Next(e, s, NextVector(i, least)).Some?;
    }
  }

  lemma HasKey(st: Store, p: Bytes, c: Bytes, name: Bytes, id: Bytes)
    requires VecAt(st, p, c, name, id).Some?
    ensures VecKey(p, c, name, id) in st
  {}

  lemma DecideIsEnabled(e: Env, s: State, i: OpId)
    requires Inv(e, s) && i in s.ops && IsWriteReq(s.ops[i].req) && s.ops[i].pc.Decide?
    ensures CanMove(e, s, i)
  {
    hide Inv, Judge, DecideStep, Facts, Prepared;
    InvUnfold(e, s, i);
    NowTyped(e, s);
    DecideInput(e, Now(s), s.used, s.ops[i]);
    var id := FreshId(s.used);
    var l := DecideNow(i, 0, id, None);
    assert IsMoveOf(l, i) && Next(e, s, l).Some?;
  }

  /** Whatever needs no lock can go on. */
  lemma UnlockedMoves(e: Env, s: State, i: OpId)
    requires Inv(e, s) && i in s.ops && !Finished(s.ops[i]) && !NeedsLock(s.ops[i])
    ensures CanMove(e, s, i)
  {
    hide Inv, ReadStep, SequenceStep, PushWriteStep, ScanExhausted, Acknowledge, DropVectors, Prepare, EmbedStep;
    hide CanAcquire, WriteReqFacts;
    InvUnfold(e, s, i);
    var op := s.ops[i];
    if op.req.Push? || op.pc.VecCheck? || op.pc.VecLoad? || op.pc.VecPublish? {
      assert IsMoveOf(Go(i), i) && Next(e, s, Go(i)).Some?;
    } else if op.req.Vectors? {
      ScanGoesOn(e, s, i);
    } else if op.pc.EmbedCall? {
      assert IsMoveOf(CallProvider(i, None), i) && Next(e, s, CallProvider(i, None)).Some?;
    } else if op.pc.Decide? {
      DecideIsEnabled(e, s, i);
    } else {
      if op.pc.Sequence? { SequenceKeeps(e, s, i); }
      assert IsMoveOf(Go(i), i) && Next(e, s, Go(i)).Some?;
    }
  }

  // ---- Waiting for a lock ----

  /** `j` holds what `i` waits for. */
  predicate Blocks(e: Env, s: State, j: OpId, i: OpId)
    requires i in s.ops && j in s.ops
  {
    var op, other := s.ops[i], s.ops[j];
    j != i &&
    if op.pc.WantSchema? then other.guards.schema == Exclusive
    else if op.pc.PushLock? then other.guards.schema != NoGuard
    else if op.pc.WantDoc? then other.guards.doc && !op.req.Push? && !other.req.Push? && Shard(e, other) == Shard(e, op)
    else op.pc.WantStats? && other.guards.stats
  }

  /** An operation that waits can go on as soon as nobody holds its lock. */
  lemma WaitsOnlyForHolders(e: Env, s: State, i: OpId)
    requires Inv(e, s) && i in s.ops && NeedsLock(s.ops[i])
    requires forall j | j in s.ops :: !Blocks(e, s, j, i)
    ensures CanMove(e, s, i)
  {
    hide Inv, Acquired, WriteReqFacts;
    InvUnfold(e, s, i);
    if s.ops[i].pc.PushLock? {
      assert CanExclude(s, i) by {
        forall j | j in s.ops && j != i ensures s.ops[j].guards.schema == NoGuard { assert !Blocks(e, s, j, i); }
      }
    } else {
      forall j | j in s.ops && j != i ensures !Blocks(e, s, j, i) {}
      assert CanAcquire(e, s, i);
    }
    assert IsMoveOf(Go(i), i) && Next(e, s, Go(i)).Some?;
  }

  /** The order in which guards are taken: schema, then document, then statistics. */
  function Level(op: Op): nat {
    if op.guards.stats then 3 else if op.guards.doc then 2 else if op.guards.schema != NoGuard then 1 else 0
  }

  /** Whoever blocks an operation is further along that order than the blocked one, so waiting cannot be
      circular. */
  lemma BlockersAreAhead(e: Env, s: State, j: OpId, i: OpId)
    requires Inv(e, s) && i in s.ops && j in s.ops && NeedsLock(s.ops[i]) && Blocks(e, s, j, i)
    ensures Level(s.ops[i]) < Level(s.ops[j])
    ensures !Finished(s.ops[j])
  {
    hide Inv, WriteReqFacts;
    InvUnfold(e, s, i);
    InvUnfold(e, s, j);
  }

  /** From any unfinished operation the chain of blockers leads to one that can go on. */
  lemma {:induction false} ChainEnds(e: Env, s: State, i: OpId) returns (j: OpId)
    requires Inv(e, s) && i in s.ops && !Finished(s.ops[i])
    ensures j in s.ops && !Finished(s.ops[j]) && CanMove(e, s, j)
    ensures j == i || (NeedsLock(s.ops[i]) && Level(s.ops[i]) < Level(s.ops[j]))
    decreases 3 - Level(s.ops[i])
  {
    hide Inv, CanMove, Blocks, Level, Finished, NeedsLock;
    if !NeedsLock(s.ops[i]) {
      UnlockedMoves(e, s, i);
      j := i;
    } else if k :| k in s.ops && Blocks(e, s, k, i) {
      BlockersAreAhead(e, s, k, i);
      LevelBound(s.ops[k]);
      j := ChainEnds(e, s, k);
    } else {
      WaitsOnlyForHolders(e, s, i);
      j := i;
    }
  }

  lemma LevelBound(op: Op)
    ensures Level(op) <= 3
  {}

  /** No deadlock: in every reachable state with an unfinished operation, some unfinished operation has an
      enabled step, and it is that operation or one ahead of it in the lock order. */
  lemma NoDeadlock(e: Env, s: State, i: OpId)
    requires Reachable(e, s) && i in s.ops && !Finished(s.ops[i])
    ensures exists j :: j in s.ops && !Finished(s.ops[j]) && CanMove(e, s, j)
              && (j == i || Level(s.ops[i]) < Level(s.ops[j]))
  {
    hide Inv, Reachable, CanMove, Level, Finished;
    ReachableInv(e, s);
    var j := ChainEnds(e, s, i);
  }

  // ---- Every step gets nearer the end ----

  /** How far from its end an attempt is. */
  function Stage(pc: Pc): nat {
    match pc
    case AdvSchema => 15 case AdvDoc => 14 case EmbedCall => 13
    case WantSchema => 12 case ReadSchema => 11 case WantDoc => 10 case ReadDoc => 9 case Decide => 8
    case WantStats => 7 case ReadStats => 6 case Sequence => 5 case DropStats => 4 case DropGuards => 3
    case Flush => 2 case Invalidate => 1
    case PushLock => 7 case PushCheck => 6 case PushScan => 5 case PushWrite => 4 case PushDurable => 3
    case PushInvalidate => 2 case PushUnlock => 1
    case VecCheck => 4 case VecLoad => 3 case VecScan => 2 case VecPublish => 1
    case Done => 0 case Failed => 0 case Abandoned => 0
  }

  /** Statistics entries still to read. */
  function Unread(op: Op): nat {
    if op.pc.ReadStats? && !op.req.Push? && |op.held.read| <= |SearchDefs(Coll(op, op.held.schema))|
    then |SearchDefs(Coll(op, op.held.schema))| - |op.held.read| else 0
  }

  /** Fewer attempts left, or the same and an earlier end, or the same and fewer statistics to read. */
  predicate Nearer(b: Op, a: Op) {
    || b.prep.attempt > a.prep.attempt
    || (b.prep.attempt == a.prep.attempt && Stage(b.pc) < Stage(a.pc))
    || (b.prep.attempt == a.prep.attempt && b.pc == a.pc && Unread(b) < Unread(a))
  }

  lemma StatsReadIsNearer(st: Store, op: Op)
    requires IsWriteReq(op.req) && op.pc.ReadStats?
    ensures Nearer(ReadStep(st, op), op)
  {
    hide StatsAt, SearchDefs;
  }

  lemma ReadIsNearer(st: Store, op: Op)
    requires IsWriteReq(op.req) && Reads(op.pc) && GuardsFit(op)
    ensures Nearer(ReadStep(st, op), op)
  {
    hide Nearer, ReadStep, GuardsFit;
    if op.pc.ReadStats? { StatsReadIsNearer(st, op); } else { OtherReadIsNearer(st, op); }
  }

  lemma OtherReadIsNearer(st: Store, op: Op)
    requires IsWriteReq(op.req) && Reads(op.pc) && GuardsFit(op) && !op.pc.ReadStats?
    ensures Nearer(ReadStep(st, op), op)
  {
    hide DocAt, SchemaAt, StatsAt, SearchDefs, HoldsSchema, HoldsDoc, WritePc, Unread;
    match op.pc
    case AdvSchema => case AdvDoc => case ReadSchema => case ReadDoc =>
    case DropStats => case DropGuards =>
  }

  lemma DecidedIsNearer(e: Env, op: Op, decision: Decision)
    requires IsWriteReq(op.req) && op.pc.Decide?
    ensures Nearer(DecideStep(op, decision), op)
  {}

  lemma AcquiredIsNearer(op: Op)
    requires Waits(op.pc)
    ensures Nearer(Acquired(op), op)
  {}

  lemma SmallMovesAreNearer(op: Op, outcome: Embed.Outcome)
    ensures op.pc.EmbedCall? ==> Nearer(EmbedStep(op, outcome), op)
    ensures (op.pc.Flush? && !op.req.Push?) || (op.pc.PushDurable? && op.req.Push?) ==> Nearer(Flushed(op), op)
    ensures Stage(op.pc) > 0 ==> Nearer(Stop(op, Done), op) && Nearer(Stop(op, Failed), op)
    ensures Failing(op).Some? ==> Nearer(Failing(op).value, op)
  {
    hide Unread;
  }

  lemma GoWriteIsNearer(e: Env, s: State, i: OpId)
    requires Inv(e, s) && s.stores != [] && i in s.ops && IsWriteReq(s.ops[i].req) && GoWrite(e, s, i).Some?
    ensures i in GoWrite(e, s, i).value.ops && Nearer(GoWrite(e, s, i).value.ops[i], s.ops[i])
  {
    hide Inv, ReadStep, Acquired, CanAcquire, Flushed, Stop, WriteEffectWith, WriteReqFacts, Unread;
    var op := s.ops[i];
    InvUnfold(e, s, i);
    SmallMovesAreNearer(op, Embed.Failed);
    if Reads(op.pc) { ReadIsNearer(Now(s), op); }
    else if Waits(op.pc) { AcquiredIsNearer(op); }
  }

  lemma GoPushIsNearer(e: Env, s: State, i: OpId)
    requires s.stores != [] && i in s.ops && s.ops[i].req.Push? && GoPush(e, s, i).Some?
    ensures i in GoPush(e, s, i).value.ops && Nearer(GoPush(e, s, i).value.ops[i], s.ops[i])
  {
    hide Flushed, Stop, PushEffect, SchemaAt, CanExclude, Unread;
    SmallMovesAreNearer(s.ops[i], Embed.Failed);
  }

  /** Every step an operation takes, failing included, brings it nearer its end; a vector scan instead moves
      its position strictly forward. */
  lemma StepsApproachTheEnd(e: Env, s: State, l: Label)
    requires Reachable(e, s) && Next(e, s, l).Some? && !l.Begin? && !l.Durable? && !l.Crash?
    ensures l.i in s.ops && l.i in Next(e, s, l).value.ops
    ensures var a, b := s.ops[l.i], Next(e, s, l).value.ops[l.i];
            if l.NextVector? then b.scan.pos == Some(l.id) && After(a.scan.pos, l.id) && b.pc == a.pc
            else Nearer(b, a)
  {
    hide Inv, Reachable, GoWrite, GoPush, Nearer, Prepare, Judge, DecideStep, EmbedStep, Failing;
    ReachableInv(e, s);
    var i := l.i;
    SmallMovesAreNearer(s.ops[i], Embed.Failed);
    match l
    case Go(i) =>
      if s.ops[i].req.Push? { GoPushIsNearer(e, s, i); }
      else if s.ops[i].req.Vectors? { GoVectorsIsNearer(s, i); }
      else { GoWriteIsNearer(e, s, i); }
    case DecideNow(i, time, newId, provider) =>
      var op := if s.ops[i].req.Insert? then s.ops[i].(id := newId) else s.ops[i];
      DecidedIsNearer(e, op, Judge(e, op, time, provider));
      NearerIgnoresId(s.ops[i], newId, DecideStep(op, Judge(e, op, time, provider)));
    case CallProvider(i, provider) => SmallMovesAreNearer(s.ops[i], Prepare(e, s.ops[i], provider));
    case _ =>
  }

  lemma GoVectorsIsNearer(s: State, i: OpId)
    requires s.stores != [] && i in s.ops && s.ops[i].req.Vectors? && GoVectors(s, i).Some?
    ensures i in GoVectors(s, i).value.ops && Nearer(GoVectors(s, i).value.ops[i], s.ops[i])
  {
    hide Unread, ScanExhausted, KeyOf;
    match s.ops[i].pc
    case VecCheck => case VecLoad => case VecScan => case VecPublish =>
    case _ =>
  }

  lemma NearerIgnoresId(op: Op, id: Bytes, b: Op)
    requires op.pc.Decide?
    ensures Nearer(b, op.(id := id)) ==> Nearer(b, op)
  {}

  /** A patch makes at most three attempts: the last one never finds its embedding wasted, so the loop is
      left by returning and its end is never reached. */
  lemma PatchEndsInThreeAttempts(e: Env, s: State, i: OpId, time: nat, provider: Option<Embed.Provider>)
    requires Reachable(e, s) && i in s.ops && s.ops[i].req.Patch?
    ensures s.ops[i].prep.attempt <= 2
    ensures s.ops[i].pc.Decide? && s.ops[i].prep.attempt == 2 ==>
              s.ops[i].held.existing.Some? && !Judge(e, s.ops[i], time, provider).Retry?
  {
    hide Inv, Reachable, Allowed, FinalData, Judged, WriteOk;
    ReachableInv(e, s);
    InvUnfold(e, s, i);
  }
}
