/** The database as a step machine: every in-flight operation has its own program counter, holds its lock
    guards itself, and interleaves with the others one shared read or write at a time. */
module Machine {
  import opened ByteStrings
  import opened Values
  import opened Fts
  import opened Stores
  import opened Agreement
  import Embed
  import Validation

  type OpId = nat

  /** What an authorization decision may rest on, as it stands inside the write lock. */
  datatype Ctx = Ctx(coll: Option<CollectionSchema>, existing: Option<Data>, next: Option<Data>)

  datatype Request =
    | Insert(p: Bytes, c: Bytes, data: Data, pre: Ctx -> bool)
    | Replace(p: Bytes, c: Bytes, id: Bytes, data: Data, pre: Ctx -> bool)
    | Patch(p: Bytes, c: Bytes, id: Bytes, updates: Data, pre: Ctx -> bool)
    | Remove(p: Bytes, c: Bytes, id: Bytes, pre: Ctx -> bool)
    | Push(p: Bytes, schema: ProjectSchema, spre: Option<ProjectSchema> -> bool)
    | Vectors(p: Bytes, c: Bytes, name: Bytes)

  predicate IsWriteReq(req: Request) { req.Insert? || req.Replace? || req.Patch? || req.Remove? }

  datatype Pc =
    // document writes
    | AdvSchema | AdvDoc | EmbedCall
    | WantSchema | ReadSchema | WantDoc | ReadDoc | Decide | WantStats | ReadStats | Sequence
    | DropStats | DropGuards | Flush | Invalidate
    // schema pushes
    | PushLock | PushCheck | PushScan | PushWrite | PushDurable | PushInvalidate | PushUnlock
    // vector reads
    | VecCheck | VecLoad | VecScan | VecPublish
    // finished; an abandoned push wrote its batch but returned before invalidating
    | Done | Failed | Abandoned

  datatype Guard = NoGuard | Shared | Exclusive

  const EMBED_RETRIES: nat := 2

  datatype Guards = Guards(schema: Guard, doc: bool, stats: bool)

  /** What the unlocked phase produced. */
  datatype Prep = Prep(attempt: nat, advisory: Option<ProjectSchema>, early: Data, data: Data, embedded: bool)

  /** What was read and decided under the guards. */
  datatype Held = Held(schema: Option<ProjectSchema>, existing: Option<Document>, judged: Data, doc: Option<Document>,
                       read: seq<Stats>)

  /** A vector scan's progress, and for the theorems the log length and pending set when the operation began. */
  datatype Scan = Scan(gen: nat, pos: Option<Bytes>, seen: map<Bytes, seq<bits32>>, startLen: nat,
                       startPending: set<nat>)

  datatype Op = Op(req: Request, pc: Pc, id: Bytes, guards: Guards, prep: Prep, held: Held, snap: Store, index: nat,
                   flushed: bool, scan: Scan)

  const NO_GUARDS: Guards := Guards(NoGuard, false, false)
  const NOTHING_HELD: Held := Held(None, None, map[], None, [])

  /** A committed operation, with the data its precondition judged and the schema it embedded under. */
  datatype Commit =
    | WriteCommit(who: OpId, req: Request, id: Bytes, was: Option<Document>, judged: Data, now: Option<Document>,
                  advisory: Option<ProjectSchema>)
    | PushCommit(who: OpId, p: Bytes, schema: ProjectSchema, spre: Option<ProjectSchema> -> bool)

  datatype CacheKey = CacheKey(p: Bytes, c: Bytes, name: Bytes)
  type VectorSet = map<Bytes, seq<bits32>>

  /** `stores[n]` is the store after the first n sequenced batches; the last one is current. `pending` holds
      the log indices sequenced but not yet invalidated; with the log and the acknowledged indices it is
      bookkeeping for the theorems. */
  datatype State = State(
    ops: map<OpId, Op>,
    stores: seq<Store>,
    log: seq<Commit>,
    durable: nat,
    acked: set<nat>,
    pending: set<nat>,
    used: set<Bytes>,
    cache: map<CacheKey, VectorSet>,
    gen: nat)

  function Now(s: State): Store
    requires s.stores != []
  {
    s.stores[|s.stores| - 1]
  }

  datatype Label =
    | Begin(i: OpId, req: Request)
    | Go(i: OpId)
    | CallProvider(i: OpId, provider: Option<Embed.Provider>)
    | DecideNow(i: OpId, time: nat, newId: Bytes, provider: Option<Embed.Provider>)
    | NextVector(i: OpId, id: Bytes)
    | Fail(i: OpId)
    | Durable(n: nat)
    | Crash(n: nat)

  // ---- Steps ----

  function Coll(op: Op, schema: Option<ProjectSchema>): Option<CollectionSchema>
    requires !op.req.Push?
  {
    Collection(schema, op.req.c)
  }

  function Update(s: State, i: OpId, op: Op): State { s.(ops := s.ops[i := op]) }

  /** An early return drops whatever guards are held. */
  function Stop(op: Op, pc: Pc): Op {
    op.(pc := pc, guards := NO_GUARDS)
  }

  function Start(s: State, req: Request): Op {
    var pc := if req.Push? then PushLock else if req.Vectors? then VecCheck
              else if req.Remove? then WantSchema else AdvSchema;
    var id := if req.Replace? || req.Patch? || req.Remove? then req.id else [];
    var data := if req.Insert? || req.Replace? then req.data else map[];
    Op(req, pc, id, NO_GUARDS, Prep(0, None, map[], data, false), NOTHING_HELD, map[], 0, false,
       Scan(0, None, map[], |s.log|, s.pending))
  }

  // Lock acquisition: a step is enabled only when no other operation holds a conflicting guard.

  predicate CanShare(s: State, i: OpId) {
    forall j | j in s.ops && j != i :: s.ops[j].guards.schema != Exclusive
  }

  predicate CanExclude(s: State, i: OpId) {
    forall j | j in s.ops && j != i :: s.ops[j].guards.schema == NoGuard
  }

  function Shard(e: Env, op: Op): nat
    requires !op.req.Push?
  {
    e.shard(op.req.p, op.req.c, op.id)
  }

  predicate CanLockDoc(e: Env, s: State, i: OpId)
    requires i in s.ops && !s.ops[i].req.Push?
  {
    forall j | j in s.ops && j != i && s.ops[j].guards.doc && !s.ops[j].req.Push? ::
             Shard(e, s.ops[j]) != Shard(e, s.ops[i])
  }

  predicate CanLockStats(s: State, i: OpId) {
    forall j | j in s.ops && j != i :: !s.ops[j].guards.stats
  }

  /** The embedding phase: an advisory check, then the provider call, all without locks. A patch embeds the
      merge with the document it read early, and leaves that for later on its last attempt. A replace also
      judges the document stored at this moment; that refusal is one of the `Fail` steps. */
  function Prepare(e: Env, op: Op, provider: Option<Embed.Provider>): Embed.Outcome
    requires IsWriteReq(op.req) && !op.req.Remove?
  {
    var cs := Coll(op, op.prep.advisory);
    if op.req.Patch? then
      var merged := Embed.Merge(op.prep.early, op.req.updates);
      if !op.req.pre(Ctx(cs, Some(op.prep.early), Some(merged))) then Embed.Failed
      else if op.prep.attempt == EMBED_RETRIES then Embed.Done(merged, false)
      else Embed.ApplyEmbeddings(e, provider, cs, merged, Some(Embed.PatchContext(op.prep.early, op.req.updates)))
    else if op.req.Insert? && !op.req.pre(Ctx(cs, None, Some(op.prep.data))) then Embed.Failed
    else if !Validation.SchemaAccepts(e, cs, op.prep.data) then Embed.Failed
    else Embed.ApplyEmbeddings(e, provider, cs, op.prep.data, None)
  }

  function EmbedStep(op: Op, outcome: Embed.Outcome): Op {
    match outcome
    case Failed => Stop(op, Failed)
    case Done(data, embedded) => op.(prep := op.prep.(data := data, embedded := embedded), pc := WantSchema)
  }

  function AfterDecision(op: Op): Pc
    requires IsWriteReq(op.req)
  {
    if SearchDefs(Coll(op, op.held.schema)) != [] then WantStats else Sequence
  }

  /** Refused, to be tried again, or accepted: the data that was judged and the document to store. */
  datatype Decision = Refuse | Retry | Accept(judged: Data, doc: Option<Document>)

  /** A vector computed from text that has since changed is wasted: release the locks and start over. */
  predicate MustRetry(op: Op)
    requires op.req.Patch? && op.held.existing.Some?
  {
    op.prep.embedded && op.held.existing.value.data != op.prep.early
  }

  /** The data a write judges: what it prepared, or for a patch that embedded nothing the plain merge with
      what is stored now. */
  function Judged(op: Op): Data
    requires IsWriteReq(op.req) && (op.req.Insert? <==> op.held.existing.None?)
  {
    if op.req.Remove? then map[]
    else if op.req.Patch? && !op.prep.embedded then Embed.Merge(op.held.existing.value.data, op.req.updates)
    else op.prep.data
  }

  predicate Allowed(op: Op)
    requires IsWriteReq(op.req) && (op.req.Insert? <==> op.held.existing.None?)
  {
    op.req.pre(Ctx(Coll(op, op.held.schema), if op.held.existing.Some? then Some(op.held.existing.value.data) else None,
                   if op.req.Remove? then None else Some(Judged(op))))
  }

  /** The last attempt of a patch embeds while the locks are held. */
  function FinalData(e: Env, op: Op, provider: Option<Embed.Provider>): Embed.Outcome
    requires IsWriteReq(op.req) && (op.req.Insert? <==> op.held.existing.None?)
  {
    if op.req.Patch? && op.prep.attempt == EMBED_RETRIES then
      Embed.ApplyEmbeddings(e, provider, Coll(op, op.held.schema), Judged(op),
                            Some(Embed.PatchContext(op.held.existing.value.data, op.req.updates)))
    else Embed.Done(Judged(op), false)
  }

  /** The authoritative decision, under the locks. */
  function Judge(e: Env, op: Op, time: nat, provider: Option<Embed.Provider>): Decision
    requires IsWriteReq(op.req) && (op.req.Insert? <==> op.held.existing.None?)
  {
    if op.req.Patch? && MustRetry(op) then Retry
    else if !Allowed(op) then Refuse
    else if op.req.Remove? then Accept(map[], None)
    else if !Validation.SchemaAccepts(e, Coll(op, op.held.schema), Judged(op)) then Refuse
    else match FinalData(e, op, provider)
      case Failed => Refuse
      case Done(data, _) => Accept(Judged(op), Some(
        if op.req.Insert? then Document(op.id, time, time, data)
        else Document(op.id, op.held.existing.value.createdAt, time, data)))
  }

  function DecideStep(op: Op, decision: Decision): Op
    requires IsWriteReq(op.req)
  {
    match decision
    case Refuse => Stop(op, Failed)
    case Retry => Stop(op, AdvSchema).(prep := op.prep.(attempt := op.prep.attempt + 1), held := NOTHING_HELD)
    case Accept(judged, doc) => op.(held := op.held.(judged := judged, doc := doc, read := []), pc := AfterDecision(op))
  }

  /** Apply the batch atomically. From here on it is visible to every reader. */
  function SequenceStep(e: Env, s: State, i: OpId): Option<State>
    requires s.stores != [] && i in s.ops && IsWriteReq(s.ops[i].req)
  {
    var op := s.ops[i];
    var cs := Coll(op, op.held.schema);
    if |op.held.read| != |SearchDefs(cs)| then None
    else
      var eff := WriteEffectWith(e, op.req.p, op.req.c, cs, op.held.read, op.id, op.held.existing, op.held.doc);
      Some(Update(s, i, op.(pc := DropStats, index := |s.log|)).(
        stores := s.stores + [Apply(Now(s), eff)],
        pending := s.pending + {|s.log|},
        log := s.log
          + [WriteCommit(i, op.req, op.id, op.held.existing, op.held.judged, op.held.doc, op.prep.advisory)]))
  }

  ghost function PushWriteStep(e: Env, s: State, i: OpId): State
    requires s.stores != [] && i in s.ops && s.ops[i].req.Push?
  {
    var op := s.ops[i];
    Update(s, i, op.(pc := PushDurable, index := |s.log|)).(
      stores := s.stores + [Apply(Now(s), PushEffect(e, op.snap, op.req.p, op.req.schema))],
      pending := s.pending + {|s.log|},
      log := s.log + [PushCommit(i, op.req.p, op.req.schema, op.req.spre)])
  }

  function Max(a: nat, b: nat): nat { if a < b then b else a }

  /** Drop cached vectors of one collection, or of the whole project, and bump the generation. */
  function DropVectors(s: State, p: Bytes, c: Option<Bytes>, index: nat): State {
    s.(cache := map k | k in s.cache && !(k.p == p && (c.None? || k.c == c.value)) :: s.cache[k],
       gen := s.gen + 1,
       pending := s.pending - {index})
  }

  function Acknowledge(s: State, i: OpId): State
    requires i in s.ops
  {
    var op := s.ops[i];
    if op.flushed then Update(s, i, Stop(op, Done)).(acked := s.acked + {op.index}) else Update(s, i, Stop(op, Failed))
  }

  predicate After(pos: Option<Bytes>, id: Bytes) { pos.None? || Less(pos.value, id) }

  /** The scan's next entry: the least id past the position that has one in the store as it is now. */
  ghost predicate IsNextVector(st: Store, op: Op, id: Bytes)
    requires op.req.Vectors?
  {
    && After(op.scan.pos, id) && VecAt(st, op.req.p, op.req.c, op.req.name, id).Some?
    && forall other | After(op.scan.pos, other) && Less(other, id) ::
         VecAt(st, op.req.p, op.req.c, op.req.name, other).None?
  }

  /** The scan takes that entry and moves past it. */
  function PassVector(st: Store, op: Op, id: Bytes): Op
    requires op.req.Vectors? && VecAt(st, op.req.p, op.req.c, op.req.name, id).Some?
  {
    var v := VecAt(st, op.req.p, op.req.c, op.req.name, id).value;
    op.(scan := op.scan.(pos := Some(id), seen := op.scan.seen[id := v]))
  }

  ghost predicate ScanExhausted(st: Store, op: Op)
    requires op.req.Vectors?
  {
    forall other | After(op.scan.pos, other) :: VecAt(st, op.req.p, op.req.c, op.req.name, other).None?
  }

  function KeyOf(op: Op): CacheKey
    requires op.req.Vectors?
  {
    CacheKey(op.req.p, op.req.c, op.req.name)
  }

  predicate Waits(pc: Pc) { pc.WantSchema? || pc.WantDoc? || pc.WantStats? }

  /** Steps of a document write that read the store or drop guards, and change only the operation. */
  predicate Reads(pc: Pc) {
    pc.AdvSchema? || pc.AdvDoc? || pc.ReadSchema? || pc.ReadDoc? || pc.ReadStats? || pc.DropStats? || pc.DropGuards?
  }

  function ReadStep(st: Store, op: Op): Op
    requires IsWriteReq(op.req) && Reads(op.pc)
  {
    var p, c := op.req.p, op.req.c;
    match op.pc
    case AdvSchema =>
      op.(prep := op.prep.(advisory := SchemaAt(st, p)), pc := if op.req.Patch? then AdvDoc else EmbedCall)
    case AdvDoc =>
      (match DocAt(st, p, c, op.id)
       case None => Stop(op, Failed)
       case Some(doc) => op.(prep := op.prep.(early := doc.data), pc := EmbedCall))
    case ReadSchema =>
      op.(held := op.held.(schema := SchemaAt(st, p)), pc := if op.req.Insert? then Decide else WantDoc)
    case ReadDoc =>
      (match DocAt(st, p, c, op.id)
       case None => Stop(op, Failed)
       case Some(doc) => op.(held := op.held.(existing := Some(doc)), pc := Decide))
    case ReadStats =>
      var defs := SearchDefs(Coll(op, op.held.schema));
      if |op.held.read| < |defs| then
        op.(held := op.held.(read := op.held.read + [StatsAt(st, p, c, defs[|op.held.read|].name)]))
      else op.(pc := Sequence)
    case DropStats => op.(guards := op.guards.(stats := false), pc := DropGuards)
    case _ => op.(guards := op.guards.(schema := NoGuard, doc := false), pc := Flush)
  }

  function Acquired(op: Op): Op
    requires Waits(op.pc)
  {
    if op.pc.WantSchema? then op.(guards := op.guards.(schema := Shared), pc := ReadSchema)
    else if op.pc.WantDoc? then op.(guards := op.guards.(doc := true), pc := ReadDoc)
    else op.(guards := op.guards.(stats := true), held := op.held.(read := []), pc := ReadStats)
  }

  predicate CanAcquire(e: Env, s: State, i: OpId)
    requires i in s.ops && IsWriteReq(s.ops[i].req) && Waits(s.ops[i].pc)
  {
    if s.ops[i].pc.WantSchema? then CanShare(s, i)
    else if s.ops[i].pc.WantDoc? then CanLockDoc(e, s, i)
    else CanLockStats(s, i)
  }

  function Flushed(op: Op): Op {
    op.(flushed := true, pc := if op.req.Push? then PushInvalidate else Invalidate)
  }

  /** A document write advances by itself; `None` while it waits for a lock. */
  function GoWrite(e: Env, s: State, i: OpId): Option<State>
    requires s.stores != [] && i in s.ops && IsWriteReq(s.ops[i].req)
  {
    var op := s.ops[i];
    if Reads(op.pc) then Some(Update(s, i, ReadStep(Now(s), op)))
    else if Waits(op.pc) then
      if CanAcquire(e, s, i) then Some(Update(s, i, Acquired(op))) else None
    else match op.pc
      case Sequence => SequenceStep(e, s, i)
      case Flush => Some(Update(s, i, Flushed(op)).(durable := Max(s.durable, op.index + 1)))
      case Invalidate => Some(Acknowledge(DropVectors(s, op.req.p, Some(op.req.c), op.index), i))
      case _ => None
  }

  ghost function GoPush(e: Env, s: State, i: OpId): Option<State>
    requires s.stores != [] && i in s.ops && s.ops[i].req.Push?
  {
    var op, st := s.ops[i], Now(s);
    match op.pc
    case PushLock =>
      if CanExclude(s, i) then Some(Update(s, i, op.(guards := op.guards.(schema := Exclusive), pc := PushCheck)))
      else None
    case PushCheck =>
      Some(Update(s, i, if op.req.spre(SchemaAt(st, op.req.p)) then op.(pc := PushScan) else Stop(op, Failed)))
    case PushScan => Some(Update(s, i, op.(snap := st, pc := PushWrite)))
    case PushWrite => Some(PushWriteStep(e, s, i))
    case PushDurable => Some(Update(s, i, Flushed(op)).(durable := Max(s.durable, op.index + 1)))
    case PushInvalidate => Some(Update(DropVectors(s, op.req.p, None, op.index), i, op.(pc := PushUnlock)))
    case PushUnlock => Some(Acknowledge(s, i))
    case _ => None
  }

  ghost function GoVectors(s: State, i: OpId): Option<State>
    requires s.stores != [] && i in s.ops && s.ops[i].req.Vectors?
  {
    var op := s.ops[i];
    match op.pc
    case VecCheck =>
      if KeyOf(op) in s.cache then Some(Update(s, i, op.(scan := op.scan.(seen := s.cache[KeyOf(op)]), pc := Done)))
      else Some(Update(s, i, op.(pc := VecLoad)))
    case VecLoad => Some(Update(s, i, op.(scan := op.scan.(gen := s.gen, pos := None, seen := map[]), pc := VecScan)))
    case VecScan => if ScanExhausted(Now(s), op) then Some(Update(s, i, op.(pc := VecPublish))) else None
    case VecPublish =>
      var s' := Update(s, i, op.(pc := Done));
      // A write landed while we scanned: serve this snapshot but don't keep it.
      Some(if s.gen == op.scan.gen then s'.(cache := s.cache[KeyOf(op) := op.scan.seen]) else s')
    case _ => None
  }

  predicate Unsequenced(pc: Pc) {
    || (Reads(pc) && !pc.DropStats? && !pc.DropGuards?) || Waits(pc) || pc.EmbedCall? || pc.Decide? || pc.Sequence?
    || pc.PushLock? || pc.PushCheck? || pc.PushScan? || pc.PushWrite?
    || pc.VecCheck? || pc.VecLoad? || pc.VecScan? || pc.VecPublish?
  }

  /** Storage and provider failures: before sequencing the operation gives up with nothing written; a
      failed flush is remembered by a write and still invalidates, but ends a push on the spot. */
  function Failing(op: Op): Option<Op> {
    if Unsequenced(op.pc) then Some(Stop(op, Failed))
    else if op.pc == Flush then Some(op.(flushed := false, pc := Invalidate))
    else if op.pc == PushDurable then Some(Stop(op, Abandoned))
    else None
  }

  function FailStep(s: State, i: OpId): Option<State>
    requires i in s.ops
  {
    match Failing(s.ops[i])
    case None => None
    case Some(op) => Some(Update(s, i, op))
  }

  /** Everything in memory is lost; the store comes back as some durable prefix of the sequenced batches. */
  function CrashStep(s: State, n: nat): Option<State> {
    if s.durable <= n <= |s.log| && |s.stores| == |s.log| + 1 then
      Some(State(map[], s.stores[..n + 1], s.log[..n], n, s.acked, {}, s.used, map[], 0))
    else None
  }

  ghost function Next(e: Env, s: State, l: Label): Option<State> {
    if s.stores == [] then None
    else match l
      case Begin(i, req) =>
        if i !in s.ops && (req.Push? ==> WellNamed(req.schema)) then Some(Update(s, i, Start(s, req))) else None
      case Go(i) =>
        if i !in s.ops then None
        else if s.ops[i].req.Push? then GoPush(e, s, i)
        else if s.ops[i].req.Vectors? then GoVectors(s, i)
        else GoWrite(e, s, i)
      case CallProvider(i, provider) =>
        if i in s.ops && s.ops[i].pc == EmbedCall && IsWriteReq(s.ops[i].req) && !s.ops[i].req.Remove?
        then Some(Update(s, i, EmbedStep(s.ops[i], Prepare(e, s.ops[i], provider)))) else None
      case DecideNow(i, time, newId, provider) =>
        if i in s.ops && s.ops[i].pc == Decide && IsWriteReq(s.ops[i].req) then
          var op := s.ops[i];
          if op.req.Insert? then
            if newId in s.used || op.held.existing.Some? then None
            else
              var named := op.(id := newId);
              Some(Update(s, i, DecideStep(named, Judge(e, named, time, provider))).(used := s.used + {newId}))
          else if op.held.existing.None? then None
          else Some(Update(s, i, DecideStep(op, Judge(e, op, time, provider))))
        else None
      case NextVector(i, id) =>
        if i in s.ops && s.ops[i].req.Vectors? && s.ops[i].pc == VecScan && IsNextVector(Now(s), s.ops[i], id) then
          Some(Update(s, i, PassVector(Now(s), s.ops[i], id)))
        else None
      case Fail(i) => if i in s.ops then FailStep(s, i) else None
      case Durable(n) => if s.durable <= n <= |s.log| then Some(s.(durable := n)) else None
      case Crash(n) => CrashStep(s, n)
  }

  ghost function Run(e: Env, s: State, labels: seq<Label>): Option<State> {
    if labels == [] then Some(s)
    else match Run(e, s, labels[..|labels| - 1])
      case None => None
      case Some(t) => Next(e, t, labels[|labels| - 1])
  }

  /** A freshly opened database over any store whose index entries agree with its documents; what its search
      statistics hold is left open. */
  ghost predicate Initial(e: Env, s: State) {
    && s == State(map[], s.stores, [], 0, {}, {}, s.used, map[], 0)
    && |s.stores| == 1 && EntriesAgree(e, s.stores[0])
    && forall k | k in s.stores[0] && k.DocKey? :: k.id in s.used
  }

  ghost predicate Reachable(e: Env, s: State) {
    exists s0, labels :: Initial(e, s0) && Run(e, s0, labels) == Some(s)
  }
}
