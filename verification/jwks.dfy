/** The signing-key cache (server/src/jwt.rs): expiry, negative caching, the forced-refetch cooldown,
    single-flight fetches and bounded eviction, under clocks supplied by the callers. */
module Jwks {
  import opened ByteStrings
  import opened Values
  import opened Fts

  const MAX_CACHED_ISSUERS: nat := 256
  const DEFAULT_TTL_MS: nat := 600_000
  const DEFAULT_NEGATIVE_TTL_MS: nat := 30_000
  const DEFAULT_REFETCH_COOLDOWN_MS: nat := 60_000

  type KeySet = Bytes

  datatype Entry = Entry(keys: Option<KeySet>, fetchedAt: nat, failedAt: Option<nat>, attemptedAt: nat,
                         forcedAt: Option<nat>)
  type Entries = map<Bytes, Entry>
  datatype Config = Config(ttl: nat, negativeTtl: nat, cooldown: nat)

  datatype Refetch = IfStale | Forced
  datatype Lookup = Hit(keys: KeySet) | Unavailable | Miss
  datatype Answer = Keys(keys: KeySet) | KeysUnavailable | UnknownKeyId | FetchFailed

  /** 64-bit addition that sticks at the top. */
  function SaturatingAdd(a: nat, b: nat): nat { Min(a + b, MAX64) }

  // ---- What a reader sees ----

  predicate Cooling(cfg: Config, m: Entries, issuer: Bytes, now: nat) {
    issuer in m && m[issuer].forcedAt.Some? && now < SaturatingAdd(m[issuer].forcedAt.value, cfg.cooldown)
  }

  predicate FreshKeys(cfg: Config, entry: Entry, now: nat) {
    entry.keys.Some? && now < SaturatingAdd(entry.fetchedAt, cfg.ttl)
  }

  // The same, told from the times on record.

  /** From `start` for `span` milliseconds, as far as the clock goes. */
  predicate Within(start: nat, span: nat, now: nat) { now < start + span && now < 18446744073709551615 }

  predicate HasLiveKeys(cfg: Config, m: Entries, issuer: Bytes, now: nat) {
    issuer in m && m[issuer].keys.Some? && Within(m[issuer].fetchedAt, cfg.ttl, now)
  }

  predicate FailedRecently(cfg: Config, m: Entries, issuer: Bytes, now: nat) {
    issuer in m && m[issuer].failedAt.Some? && Within(m[issuer].failedAt.value, cfg.negativeTtl, now)
  }

  predicate ForcedRecently(cfg: Config, m: Entries, issuer: Bytes, now: nat) {
    issuer in m && m[issuer].forcedAt.Some? && Within(m[issuer].forcedAt.value, cfg.cooldown, now)
  }

  /** Live keys answer whatever failures are on record; without them a recent failure refuses, and else a fetch is due.
      A forced fetch is due unless another one was recent. */
  lemma WhatReadersSee(cfg: Config, m: Entries, issuer: Bytes, now: nat)
    ensures HasLiveKeys(cfg, m, issuer, now) ==>
              issuer in m && LookUp(cfg, m, issuer, now) == Hit(m[issuer].keys.value)
    ensures LookUp(cfg, m, issuer, now).Unavailable? <==>
              !HasLiveKeys(cfg, m, issuer, now) && FailedRecently(cfg, m, issuer, now)
    ensures LookUp(cfg, m, issuer, now).Miss? <==>
              !HasLiveKeys(cfg, m, issuer, now) && !FailedRecently(cfg, m, issuer, now)
    ensures Passes(cfg, m, issuer, now, IfStale) <==>
              !HasLiveKeys(cfg, m, issuer, now) && !FailedRecently(cfg, m, issuer, now)
    ensures Passes(cfg, m, issuer, now, Forced) <==> !ForcedRecently(cfg, m, issuer, now)
  {}

  function LookUp(cfg: Config, m: Entries, issuer: Bytes, now: nat): Lookup {
    if issuer !in m then Miss
    else if FreshKeys(cfg, m[issuer], now) then Hit(m[issuer].keys.value)
    else if m[issuer].failedAt.Some? && now < SaturatingAdd(m[issuer].failedAt.value, cfg.negativeTtl) then Unavailable
    else Miss
  }

  /** Under the fetch lock: is this caller still to fetch? */
  predicate Passes(cfg: Config, m: Entries, issuer: Bytes, now: nat, kind: Refetch) {
    if kind == Forced then !Cooling(cfg, m, issuer, now) else LookUp(cfg, m, issuer, now) == Miss
  }

  // ---- What a fetch stores ----

  predicate IsOldest(m: Entries, victim: Bytes) {
    victim in m && forall i | i in m :: m[victim].attemptedAt <= m[i].attemptedAt
  }

  predicate MustEvict(m: Entries, incoming: Bytes) { |m| >= MAX_CACHED_ISSUERS && incoming !in m }

  /** Room is made for the incoming issuer: nothing goes unless the cache is full and the issuer new, and then
      one least recently attempted entry does. */
  predicate Evicted(m: Entries, incoming: Bytes, next: Entries) {
    if MustEvict(m, incoming) then exists victim | victim in m :: IsOldest(m, victim) && next == m - {victim}
    else next == m
  }

  function ForcedBefore(m: Entries, issuer: Bytes): Option<nat> {
    if issuer in m then m[issuer].forcedAt else None
  }

  /** The entry after a fetch. `forcedBefore` was read before the fetch began. */
  function StoredEntry(m: Entries, issuer: Bytes, now: nat, kind: Refetch, forcedBefore: Option<nat>,
                       answer: Option<KeySet>): Entry {
    match answer
    case Some(keys) => Entry(Some(keys), now, None, now, if kind == Forced then Some(now) else forcedBefore)
    case None =>
      var entry := if issuer in m then m[issuer] else Entry(None, 0, None, now, None);
      entry.(failedAt := Some(now), attemptedAt := now,
             forcedAt := if kind == Forced then Some(now) else entry.forcedAt)
  }

  class JwksCache {
    const cfg: Config
    var entries: Entries

    constructor ()
      ensures entries == map[] && cfg == Config(600_000, 30_000, 60_000)
    {
      cfg, entries := Config(DEFAULT_TTL_MS, DEFAULT_NEGATIVE_TTL_MS, DEFAULT_REFETCH_COOLDOWN_MS), map[];
    }

    ghost predicate Valid()
      reads this
    {
      |entries| <= MAX_CACHED_ISSUERS
    }

    /** At the cap, drop the least recently attempted entry, and never the incoming issuer's. */
    method EvictIfFull(incoming: Bytes)
      modifies this
      ensures Evicted(old(entries), incoming, entries)
      ensures if |old(entries)| < 256 || incoming in old(entries) then entries == old(entries)
              else
                exists gone ::
                  && gone in old(entries) && entries == old(entries) - {gone}
                  && forall i | i in old(entries) :: old(entries)[gone].attemptedAt <= old(entries)[i].attemptedAt
      ensures incoming in old(entries) ==> incoming in entries && entries[incoming] == old(entries)[incoming]
      ensures old(Valid()) ==> |entries| < MAX_CACHED_ISSUERS || incoming in entries
    {
      if |entries| < MAX_CACHED_ISSUERS || incoming in entries { return; }
      var oldest := Oldest();
      RemoveOne(entries, oldest);
      entries := entries - {oldest};
    }

    method Oldest() returns (oldest: Bytes)
      requires entries != map[]
      ensures IsOldest(entries, oldest)
    {
      oldest :| oldest in entries;
      var left := entries.Keys - {oldest};
      while left != {}
        invariant oldest in entries && left <= entries.Keys
        invariant forall i | i in entries && i !in left :: entries[oldest].attemptedAt <= entries[i].attemptedAt
        decreases left
      {
        var i :| i in left;
        if entries[i].attemptedAt < entries[oldest].attemptedAt { oldest := i; }
        left := left - {i};
      }
    }

    method Preload(issuer: Bytes, keys: KeySet, now: nat)
      requires Valid()
      modifies this
      ensures Valid()
      ensures exists m :: Evicted(old(entries), issuer, m)
                && entries == m[issuer := Entry(Some(keys), now, None, now, None)]
    {
      EvictIfFull(issuer);
      ghost var m := entries;
      PutOne(entries, issuer, Entry(Some(keys), now, None, now, None));
      entries := entries[issuer := Entry(Some(keys), now, None, now, None)];
      assert Evicted(old(entries), issuer, m);
    }

    method InCooldown(issuer: Bytes, now: nat) returns (cooling: bool)
      ensures cooling <==> ForcedRecently(cfg, entries, issuer, now)
      ensures cooling == Cooling(cfg, entries, issuer, now)
    {
      if issuer !in entries { return false; }
      match entries[issuer].forcedAt
      case None => return false;
      case Some(forced) => return now < SaturatingAdd(forced, cfg.cooldown);
    }

    method Cached(issuer: Bytes, now: nat) returns (r: Lookup)
      ensures HasLiveKeys(cfg, entries, issuer, now) ==> r == Hit(entries[issuer].keys.value)
      ensures !HasLiveKeys(cfg, entries, issuer, now) && FailedRecently(cfg, entries, issuer, now) ==> r == Unavailable
      ensures !HasLiveKeys(cfg, entries, issuer, now) && !FailedRecently(cfg, entries, issuer, now) ==> r == Miss
      ensures r == LookUp(cfg, entries, issuer, now)
    {
      if issuer !in entries { return Miss; }
      var entry := entries[issuer];
      if entry.keys.Some? {
        if now < SaturatingAdd(entry.fetchedAt, cfg.ttl) { return Hit(entry.keys.value); }
      }
      if entry.failedAt.Some? {
        if now < SaturatingAdd(entry.failedAt.value, cfg.negativeTtl) { return Unavailable; }
      }
      return Miss;
    }

    /** The section under the fetch lock: check again, and only then fetch and store what came back. */
    method FetchAndStore(issuer: Bytes, now: nat, kind: Refetch,
                         answer: Option<KeySet>) returns (r: Answer, fetched: bool)
      requires Valid()
      modifies this
      ensures Valid() && (fetched <==> Passes(cfg, old(entries), issuer, now, kind))
      ensures fetched <==>
                if kind == Forced then !ForcedRecently(cfg, old(entries), issuer, now)
                else !HasLiveKeys(cfg, old(entries), issuer, now) && !FailedRecently(cfg, old(entries), issuer, now)
      ensures !fetched ==>
                && entries == old(entries)
                && r == if kind == Forced then UnknownKeyId
                        else if HasLiveKeys(cfg, entries, issuer, now) then Keys(entries[issuer].keys.value)
                        else KeysUnavailable
      ensures fetched ==>
                && (exists m :: Evicted(old(entries), issuer, m)
                      && entries == m[issuer := StoredEntry(old(entries), issuer, now, kind,
                                                            ForcedBefore(old(entries), issuer), answer)])
                && r == if answer.Some? then Keys(answer.value) else FetchFailed
    {
      if kind == IfStale {
        var cached := Cached(issuer, now);
        match cached
        case Hit(keys) => return Keys(keys), false;
        case Unavailable => return KeysUnavailable, false;
        case Miss =>
      } else {
        var cooling := InCooldown(issuer, now);
        if cooling { return UnknownKeyId, false; }
      }
      var forcedAt := if kind == Forced then Some(now)
            else if issuer in entries then entries[issuer].forcedAt else None;
      fetched := true;
      EvictIfFull(issuer);
      ghost var m := entries;
      assert Evicted(old(entries), issuer, m);
      match answer
      case Some(keys) =>
        PutOne(entries, issuer, Entry(Some(keys), now, None, now, forcedAt));
        entries := entries[issuer := Entry(Some(keys), now, None, now, forcedAt)];
        r := Keys(keys);
      case None =>
        var entry := if issuer in entries then entries[issuer] else Entry(None, 0, None, now, None);
        entry := entry.(failedAt := Some(now), attemptedAt := now);
        if kind == Forced { entry := entry.(forcedAt := Some(now)); }
        PutOne(entries, issuer, entry);
        entries := entries[issuer := entry];
        r := FetchFailed;
    }

    /** Cached keys, fetching only when absent or stale: keys inside their lifetime are the answer whatever failures are
        on record, a recent failure refuses exactly when there are none, and otherwise a fetch decides. */
    method KeysFor(issuer: Bytes, now: nat, answer: Option<KeySet>) returns (r: Answer)
      requires Valid()
      modifies this
      ensures Valid()
      ensures HasLiveKeys(cfg, old(entries), issuer, now) ==>
                r == Keys(old(entries)[issuer].keys.value) && entries == old(entries)
      ensures r == KeysUnavailable <==>
                !HasLiveKeys(cfg, old(entries), issuer, now) && FailedRecently(cfg, old(entries), issuer, now)
      ensures r == KeysUnavailable ==> entries == old(entries)
      ensures !HasLiveKeys(cfg, old(entries), issuer, now) && !FailedRecently(cfg, old(entries), issuer, now) ==>
                && r == (if answer.Some? then Keys(answer.value) else FetchFailed)
                && exists m :: Evicted(old(entries), issuer, m)
                     && entries == m[issuer := StoredEntry(old(entries), issuer, now, IfStale,
                                                           ForcedBefore(old(entries), issuer), answer)]
    {
      var cached := Cached(issuer, now);
      match cached
      case Hit(keys) => return Keys(keys);
      case Unavailable => return KeysUnavailable;
      case Miss =>
        var fetched;
        r, fetched := FetchAndStore(issuer, now, IfStale, answer);
    }

    /** A token named a key we do not hold: refetch, unless a forced refetch happened within the cooldown. */
    method KeysForUnknownKid(issuer: Bytes, now: nat, answer: Option<KeySet>) returns (r: Answer)
      requires Valid()
      modifies this
      ensures Valid()
      ensures r == UnknownKeyId <==> ForcedRecently(cfg, old(entries), issuer, now)
      ensures r == UnknownKeyId ==> entries == old(entries)
      ensures !ForcedRecently(cfg, old(entries), issuer, now) ==>
                && r == (if answer.Some? then Keys(answer.value) else FetchFailed)
                && exists m :: Evicted(old(entries), issuer, m)
                     && entries == m[issuer := StoredEntry(old(entries), issuer, now, Forced,
                                                           ForcedBefore(old(entries), issuer), answer)]
    {
      var cooling := InCooldown(issuer, now);
      if cooling { return UnknownKeyId; }
      var fetched;
      r, fetched := FetchAndStore(issuer, now, Forced, answer);
    }
  }

  lemma RemoveOne(m: Entries, k: Bytes)
    requires k in m
    ensures |m - {k}| == |m| - 1
  {
    assert (m - {k}).Keys == m.Keys - {k};
    assert |m| == |m.Keys| && |m - {k}| == |(m - {k}).Keys|;
  }

  lemma PutOne(m: Entries, k: Bytes, v: Entry)
    ensures |m[k := v]| == if k in m then |m| else |m| + 1
  {
    assert m[k := v].Keys == m.Keys + {k};
    assert |m| == |m.Keys| && |m[k := v]| == |m[k := v].Keys|;
  }

  // ---- Concurrent runs ----

  /** A fetch in flight: the lock is held from the second check until the answer is stored. */
  datatype Flight = Flight(issuer: Bytes, now: nat, kind: Refetch, forcedBefore: Option<nat>)
  datatype Fetch = Fetch(issuer: Bytes, now: nat, kind: Refetch)

  /** `log` lists the fetches sent to identity providers. */
  datatype State = State(entries: Entries, flight: Option<Flight>, log: seq<Fetch>)

  /** A caller takes the fetch lock with its own idea of the time; the fetch in flight ends and is stored, or its
      caller is dropped while waiting and only the lock is released; an operator seeds an issuer. Where room must be
      made, `victim` names the entry that goes. */
  datatype Label =
    | Lock(issuer: Bytes, now: nat, kind: Refetch)
    | Finish(answer: Option<KeySet>, victim: Option<Bytes>)
    | Abort(issuer: Bytes)
    | Preload(issuer: Bytes, keys: KeySet, now: nat, victim: Option<Bytes>)

  function Evict(m: Entries, incoming: Bytes, victim: Option<Bytes>): Option<Entries> {
    if !MustEvict(m, incoming) then (if victim.None? then Some(m) else None)
    else if victim.Some? && IsOldest(m, victim.value) then Some(m - {victim.value})
    else None
  }

  /** The named victim is a choice the eviction may make, and it makes only such choices. */
  lemma EvictIsEvicted(m: Entries, incoming: Bytes, next: Entries)
    ensures Evicted(m, incoming, next) <==> exists victim :: Evict(m, incoming, victim) == Some(next)
  {
    if Evicted(m, incoming, next) {
      if MustEvict(m, incoming) {
        var v :| v in m && IsOldest(m, v) && next == m - {v};
        assert Evict(m, incoming, Some(v)) == Some(next);
      } else {
        assert Evict(m, incoming, None) == Some(next);
      }
    }
  }

  function Next(cfg: Config, s: State, l: Label): Option<State> {
    match l
    case Lock(issuer, now, kind) =>
      if s.flight.Some? then None
      else if !Passes(cfg, s.entries, issuer, now, kind) then Some(s)
      else
        Some(State(s.entries, Some(Flight(issuer, now, kind, ForcedBefore(s.entries, issuer))),
                   s.log + [Fetch(issuer, now, kind)]))
    case Finish(answer, victim) =>
      if s.flight.None? then None
      else
        var f := s.flight.value;
        (match Evict(s.entries, f.issuer, victim)
         case None => None
         case Some(m) =>
           Some(State(m[f.issuer := StoredEntry(s.entries, f.issuer, f.now, f.kind, f.forcedBefore, answer)], None,
                      s.log)))
    case Abort(issuer) =>
      if s.flight.Some? && s.flight.value.issuer == issuer then Some(s.(flight := None)) else None
    case Preload(issuer, keys, now, victim) =>
      match Evict(s.entries, issuer, victim)
      case None => None
      case Some(m) => Some(s.(entries := m[issuer := Entry(Some(keys), now, None, now, None)]))
  }

  function Run(cfg: Config, s: State, labels: seq<Label>): Option<State> {
    if labels == [] then Some(s)
    else match Run(cfg, s, labels[..|labels| - 1])
      case None => None
      case Some(t) => Next(cfg, t, labels[|labels| - 1])
  }

  lemma RunSnoc(cfg: Config, s: State, labels: seq<Label>, l: Label)
    requires Run(cfg, s, labels).Some?
    ensures Run(cfg, s, labels + [l]) == Next(cfg, Run(cfg, s, labels).value, l)
  {
    assert (labels + [l])[..|labels|] == labels;
  }

  lemma EvictKeeps(m: Entries, incoming: Bytes, victim: Option<Bytes>, issuer: Bytes)
    requires Evict(m, incoming, victim).Some? && victim != Some(issuer)
    ensures var next := Evict(m, incoming, victim).value;
            (issuer in next <==> issuer in m) && (issuer in m ==> next[issuer] == m[issuer])
  {}

  lemma EvictSize(m: Entries, incoming: Bytes, victim: Option<Bytes>, entry: Entry)
    requires |m| <= MAX_CACHED_ISSUERS && Evict(m, incoming, victim).Some?
    ensures |Evict(m, incoming, victim).value[incoming := entry]| <= MAX_CACHED_ISSUERS
  {
    var next := Evict(m, incoming, victim).value;
    if MustEvict(m, incoming) { RemoveOne(m, victim.value); }
    PutOne(next, incoming, entry);
  }

  /** Over every run the cache holds at most 256 issuers. */
  lemma {:induction false} Bounded(cfg: Config, s: State, labels: seq<Label>)
    requires |s.entries| <= MAX_CACHED_ISSUERS && Run(cfg, s, labels).Some?
    ensures |Run(cfg, s, labels).value.entries| <= 256
  {
    if labels != [] {
      Bounded(cfg, s, labels[..|labels| - 1]);
      var t := Run(cfg, s, labels[..|labels| - 1]).value;
      match labels[|labels| - 1]
      case Lock(_, _, _) =>
      case Abort(_) =>
      case Finish(answer, victim) =>
        var f := t.flight.value;
        EvictSize(t.entries, f.issuer, victim, StoredEntry(t.entries, f.issuer, f.now, f.kind, f.forcedBefore, answer));
      case Preload(issuer, keys, now, victim) =>
        EvictSize(t.entries, issuer, victim, Entry(Some(keys), now, None, now, None));
    }
  }

  /** Eviction takes a least recently attempted entry, never the incoming issuer's, and only when it must. */
  lemma EvictionTakesOldest(cfg: Config, s: State, l: Label, i: Bytes)
    requires Next(cfg, s, l).Some? && i in s.entries && i !in Next(cfg, s, l).value.entries
    ensures var incoming := if l.Preload? then l.issuer else s.flight.value.issuer;
            && !l.Lock? && i != incoming && |s.entries| >= 256 && incoming !in s.entries
            && forall j | j in s.entries :: s.entries[i].attemptedAt <= s.entries[j].attemptedAt
    ensures forall j | j in s.entries && j != i :: j in Next(cfg, s, l).value.entries
  {
  }

  /** A failed fetch keeps all keys that are still inside their lifetime, with the one exception of an entry it
      has to evict: exactly when no room must be made, or the entry that makes room holds no such keys. */
  lemma FailureKeepsFreshKeys(cfg: Config, s: State, victim: Option<Bytes>, now: nat)
    requires s.flight.Some? && Next(cfg, s, Finish(None, victim)).Some?
    ensures var t := Next(cfg, s, Finish(None, victim)).value;
            (forall i | i in s.entries && FreshKeys(cfg, s.entries[i], now) ::
               i in t.entries && FreshKeys(cfg, t.entries[i], now) && t.entries[i].keys == s.entries[i].keys)
            <==> (MustEvict(s.entries, s.flight.value.issuer) ==> !FreshKeys(cfg, s.entries[victim.value], now))
  {
    var issuer := s.flight.value.issuer;
    var t := Next(cfg, s, Finish(None, victim)).value;
    if MustEvict(s.entries, issuer) {
      assert victim.value in s.entries && victim.value !in t.entries;
    }
  }

  /** What the end of a fetch makes readers see. Fetched keys are live for the lifetime from the fetch on, with no
      failure on record; a failure is on record for its window and leaves the keys as live as they were; a forced
      fetch, good or bad, stops forced ones for the cooldown, and an ordinary one does not. */
  lemma FinishIsSeen(cfg: Config, s: State, l: Label, now: nat)
    requires l.Finish? && Next(cfg, s, l).Some?
    ensures s.flight.Some?
    ensures var f, t := s.flight.value, Next(cfg, s, l).value.entries;
            && (l.answer.Some? ==>
                  && f.issuer in t && t[f.issuer].keys == l.answer && !FailedRecently(cfg, t, f.issuer, now)
                  && (HasLiveKeys(cfg, t, f.issuer, now) <==> Within(f.now, cfg.ttl, now)))
            && (l.answer.None? ==>
                  && (FailedRecently(cfg, t, f.issuer, now) <==> Within(f.now, cfg.negativeTtl, now))
                  && (HasLiveKeys(cfg, t, f.issuer, now) <==> HasLiveKeys(cfg, s.entries, f.issuer, now))
                  && (f.issuer in s.entries ==> t[f.issuer].keys == s.entries[f.issuer].keys))
            && (f.kind == Forced ==> (ForcedRecently(cfg, t, f.issuer, now) <==> Within(f.now, cfg.cooldown, now)))
            && (f.kind == IfStale && ForcedBefore(s.entries, f.issuer) == f.forcedBefore ==>
                  (ForcedRecently(cfg, t, f.issuer, now) <==> ForcedRecently(cfg, s.entries, f.issuer, now)))
  {}

  /** The issuer holds these keys, fetched then. */
  predicate HoldsKeys(m: Entries, issuer: Bytes, keys: KeySet, fetchedAt: nat) {
    issuer in m && m[issuer].keys == Some(keys) && m[issuer].fetchedAt == fetchedAt
  }

  /** Nobody seeds or evicts the issuer in this run, and no fetch of it comes back with keys. */
  predicate OnlyFailures(cfg: Config, s: State, labels: seq<Label>, issuer: Bytes)
    requires Run(cfg, s, labels).Some?
  {
    forall i | 0 <= i < |labels| ::
      && (labels[i].Preload? ==> labels[i].issuer != issuer && labels[i].victim != Some(issuer))
      && (labels[i].Finish? ==> labels[i].victim != Some(issuer))
      && (labels[i].Finish? && labels[i].answer.Some? ==>
            Run(cfg, s, labels[..i]).Some? && Run(cfg, s, labels[..i]).value.flight.Some?
            && Run(cfg, s, labels[..i]).value.flight.value.issuer != issuer)
  }

  lemma {:induction false} KeysOutliveFailures(cfg: Config, s: State, labels: seq<Label>, issuer: Bytes, keys: KeySet,
                                               fetchedAt: nat)
    requires Run(cfg, s, labels).Some? && OnlyFailures(cfg, s, labels, issuer)
    requires HoldsKeys(s.entries, issuer, keys, fetchedAt)
    ensures HoldsKeys(Run(cfg, s, labels).value.entries, issuer, keys, fetchedAt)
  {
    if labels != [] {
      hide Next, HoldsKeys;
      var n := |labels| - 1;
      forall i | 0 <= i < n ensures labels[..n][i] == labels[i] && labels[..n][..i] == labels[..i] {}
      KeysOutliveFailures(cfg, s, labels[..n], issuer, keys, fetchedAt);
      FailureStepKeeps(cfg, Run(cfg, s, labels[..n]).value, labels[n], issuer, keys, fetchedAt);
    }
  }

  lemma FailureStepKeeps(cfg: Config, t: State, l: Label, issuer: Bytes, keys: KeySet, fetchedAt: nat)
    requires Next(cfg, t, l).Some? && HoldsKeys(t.entries, issuer, keys, fetchedAt)
    requires l.Preload? ==> l.issuer != issuer && l.victim != Some(issuer)
    requires l.Finish? ==> l.victim != Some(issuer)
    requires l.Finish? && l.answer.Some? ==> t.flight.Some? && t.flight.value.issuer != issuer
    ensures HoldsKeys(Next(cfg, t, l).value.entries, issuer, keys, fetchedAt)
  {
    hide Evict, Passes;
    match l
    case Lock(_, _, _) =>
    case Finish(_, victim) => EvictKeeps(t.entries, t.flight.value.issuer, victim, issuer);
    case Abort(_) =>
    case Preload(other, _, _, victim) => EvictKeeps(t.entries, other, victim, issuer);
  }

  /** However many fetches of an issuer fail, forced by bogus key ids or not, whoever asks for its keys gets the old
      ones until their lifetime ends, and without another fetch; and not a moment longer. */
  lemma OldKeysServeToTheEnd(cfg: Config, s: State, labels: seq<Label>, issuer: Bytes, keys: KeySet, fetchedAt: nat,
                             now: nat)
    requires Run(cfg, s, labels).Some? && OnlyFailures(cfg, s, labels, issuer)
    requires HoldsKeys(s.entries, issuer, keys, fetchedAt)
    ensures var t := Run(cfg, s, labels).value;
            if Within(fetchedAt, cfg.ttl, now) then
              && LookUp(cfg, t.entries, issuer, now) == Hit(keys)
              && (t.flight.None? ==> Next(cfg, t, Lock(issuer, now, IfStale)) == Some(t))
            else !LookUp(cfg, t.entries, issuer, now).Hit?
  {
    hide Run, OnlyFailures;
    KeysOutliveFailures(cfg, s, labels, issuer, keys, fetchedAt);
  }

  function Issuer(n: nat): Bytes { seq(n, _ => 0) }

  /** A cache of `n` issuers whose keys were all fetched at time zero. */
  function FullCache(n: nat): Entries {
    if n == 0 then map[] else FullCache(n - 1)[Issuer(n) := Entry(Some([]), 0, None, 0, None)]
  }

  lemma {:induction false} FullCacheSize(n: nat)
    ensures |FullCache(n)| == n
    ensures forall i :: i in FullCache(n) ==> |i| <= n && FullCache(n)[i] == Entry(Some([]), 0, None, 0, None)
    ensures n > 0 ==> Issuer(1) in FullCache(n)
  {
    if n > 0 {
      FullCacheSize(n - 1);
      PutOne(FullCache(n - 1), Issuer(n), Entry(Some([]), 0, None, 0, None));
    }
  }

  const EMPTY: State := State(map[], None, [])

  lemma RunNothing(cfg: Config, s: State)
    ensures Run(cfg, s, []) == Some(s)
  {}

  /** An operator seeds `n` issuers at time zero. */
  function Seeding(n: nat): seq<Label> {
    if n == 0 then [] else Seeding(n - 1) + [Preload(Issuer(n), [], 0, None)]
  }

  lemma {:induction false} SeedingFills(cfg: Config, n: nat)
    requires n <= MAX_CACHED_ISSUERS
    ensures Run(cfg, EMPTY, Seeding(n)) == Some(State(FullCache(n), None, []))
  {
    hide Issuer, Run;
    if n == 0 {
      RunNothing(cfg, EMPTY);
    } else {
      SeedingFills(cfg, n - 1);
      FullCacheSize(n - 1);
      RunSnoc(cfg, EMPTY, Seeding(n - 1), Preload(Issuer(n), [], 0, None));
      assert !MustEvict(FullCache(n - 1), Issuer(n));
    }
  }

  /** That exception is real: from an empty cache, 256 seeded issuers and a fetch for one more that fails take away
      keys that were still fresh. */
  lemma FullCacheLosesFreshKeys(cfg: Config)
    requires cfg.ttl > 0
    ensures exists labels, victim: Option<Bytes>, i: Bytes ::
              && Run(cfg, EMPTY, labels).Some?
              && var s := Run(cfg, EMPTY, labels).value;
                 && s.flight.Some? && Next(cfg, s, Finish(None, victim)).Some?
                 && i in s.entries && FreshKeys(cfg, s.entries[i], s.flight.value.now)
                 && i !in Next(cfg, s, Finish(None, victim)).value.entries
  {
    hide FullCache, Seeding, Issuer, Run;
    FullCacheSize(MAX_CACHED_ISSUERS);
    SeedingFills(cfg, MAX_CACHED_ISSUERS);
    IssuerLengths();
    var m, incoming, victim := FullCache(MAX_CACHED_ISSUERS), Issuer(MAX_CACHED_ISSUERS + 1), Issuer(1);
    assert incoming !in m;
    var labels := Seeding(MAX_CACHED_ISSUERS) + [Lock(incoming, 0, IfStale)];
    RunSnoc(cfg, EMPTY, Seeding(MAX_CACHED_ISSUERS), Lock(incoming, 0, IfStale));
    var s := State(m, Some(Flight(incoming, 0, IfStale, None)), [Fetch(incoming, 0, IfStale)]);
    assert EMPTY.log + s.log == s.log;
    assert Run(cfg, EMPTY, labels) == Some(s);
    assert MustEvict(m, incoming) && IsOldest(m, victim);
    assert victim in s.entries && victim !in Next(cfg, s, Finish(None, Some(victim))).value.entries;
  }

  lemma IssuerLengths()
    ensures forall n: nat :: |Issuer(n)| == n
  {}

  // ---- Rate limits ----

  /** Nobody seeds the issuer, evicts it, drops its fetch, or calls with a time so late that a sum would saturate. */
  predicate LeavesAlone(cfg: Config, issuer: Bytes, l: Label) {
    match l
    case Lock(_, now, _) => now + cfg.cooldown < MAX64 && now + cfg.ttl < MAX64 && now + cfg.negativeTtl < MAX64
    case Finish(_, victim) => victim != Some(issuer)
    case Abort(other) => other != issuer
    case Preload(other, _, _, victim) => other != issuer && victim != Some(issuer)
  }

  predicate AllLeaveAlone(cfg: Config, issuer: Bytes, labels: seq<Label>) {
    forall i | 0 <= i < |labels| :: LeavesAlone(cfg, issuer, labels[i])
  }

  /** The times of an issuer's forced fetches, in the order they were sent. */
  function ForcedTimes(log: seq<Fetch>, issuer: Bytes): seq<nat> {
    if log == [] then []
    else
      var last := log[|log| - 1];
      ForcedTimes(log[..|log| - 1], issuer) + if last.issuer == issuer && last.kind == Forced then [last.now] else []
  }

  predicate Spaced(times: seq<nat>, gap: nat) {
    forall i, j | 0 <= i < j < |times| :: times[i] + gap <= times[j]
  }

  function LastOf(times: seq<nat>): Option<nat> { if times == [] then None else Some(times[|times| - 1]) }

  /** The last forced fetch is on record: in the entry, or in the flight that is about to store it. */
  predicate ForcedOnRecord(cfg: Config, s: State, issuer: Bytes) {
    var last := LastOf(ForcedTimes(s.log, issuer));
    last.Some? ==>
      && last.value + cfg.cooldown < MAX64
      && if s.flight.Some? && s.flight.value.issuer == issuer && s.flight.value.kind == Forced then
           s.flight.value.now == last.value
         else
           && ForcedBefore(s.entries, issuer) == last
           && (s.flight.Some? && s.flight.value.issuer == issuer ==> s.flight.value.forcedBefore == last)
  }

  lemma ForcedTimesSnoc(log: seq<Fetch>, f: Fetch, issuer: Bytes)
    ensures ForcedTimes(log + [f], issuer) == ForcedTimes(log, issuer)
              + if f.issuer == issuer && f.kind == Forced then [f.now] else []
  {
    assert (log + [f])[..|log|] == log;
  }

  lemma {:induction false} ForcedSpaced(cfg: Config, s: State, labels: seq<Label>, issuer: Bytes)
    requires s.log == [] && Run(cfg, s, labels).Some? && AllLeaveAlone(cfg, issuer, labels)
    requires s.flight.None? || s.flight.value.issuer != issuer
    ensures var t := Run(cfg, s, labels).value;
            Spaced(ForcedTimes(t.log, issuer), cfg.cooldown) && ForcedOnRecord(cfg, t, issuer)
  {
    if labels != [] {
      var n := |labels| - 1;
      assert forall i | 0 <= i < n :: labels[..n][i] == labels[i];
      ForcedSpaced(cfg, s, labels[..n], issuer);
      var t := Run(cfg, s, labels[..n]).value;
      assert LeavesAlone(cfg, issuer, labels[n]);
      ForcedSpacedStep(cfg, t, labels[n], issuer);
    }
  }

  lemma ForcedSpacedStep(cfg: Config, t: State, l: Label, issuer: Bytes)
    requires Next(cfg, t, l).Some? && LeavesAlone(cfg, issuer, l)
    requires Spaced(ForcedTimes(t.log, issuer), cfg.cooldown) && ForcedOnRecord(cfg, t, issuer)
    ensures var u := Next(cfg, t, l).value;
            Spaced(ForcedTimes(u.log, issuer), cfg.cooldown) && ForcedOnRecord(cfg, u, issuer)
  {
    hide ForcedTimes, Evict, Next, Spaced, ForcedOnRecord;
    match l
    case Lock(other, now, kind) => ForcedSpacedLock(cfg, t, l, issuer);
    case Finish(answer, victim) => ForcedSpacedFinish(cfg, t, l, issuer);
    case Abort(other) => ForcedSpacedAbort(cfg, t, l, issuer);
    case Preload(other, keys, _, victim) => ForcedSpacedPreload(cfg, t, l, issuer);
  }

  lemma ForcedSpacedLock(cfg: Config, t: State, l: Label, issuer: Bytes)
    requires Next(cfg, t, l).Some? && LeavesAlone(cfg, issuer, l) && l.Lock?
    requires Spaced(ForcedTimes(t.log, issuer), cfg.cooldown) && ForcedOnRecord(cfg, t, issuer)
    ensures var u := Next(cfg, t, l).value;
            Spaced(ForcedTimes(u.log, issuer), cfg.cooldown) && ForcedOnRecord(cfg, u, issuer)
  {
    hide ForcedTimes, LookUp;
    if Passes(cfg, t.entries, l.issuer, l.now, l.kind) {
      ForcedTimesSnoc(t.log, Fetch(l.issuer, l.now, l.kind), issuer);
      var times := ForcedTimes(t.log, issuer);
      if l.issuer == issuer && l.kind == Forced && times != [] {
        assert !Cooling(cfg, t.entries, issuer, l.now);
        assert times[|times| - 1] + cfg.cooldown <= l.now;
      }
    }
  }

  lemma ForcedSpacedFinish(cfg: Config, t: State, l: Label, issuer: Bytes)
    requires Next(cfg, t, l).Some? && LeavesAlone(cfg, issuer, l) && l.Finish?
    requires Spaced(ForcedTimes(t.log, issuer), cfg.cooldown) && ForcedOnRecord(cfg, t, issuer)
    ensures var u := Next(cfg, t, l).value;
            Spaced(ForcedTimes(u.log, issuer), cfg.cooldown) && ForcedOnRecord(cfg, u, issuer)
  {
    hide ForcedTimes, Spaced, Evict;
    EvictKeeps(t.entries, t.flight.value.issuer, l.victim, issuer);
  }

  lemma ForcedSpacedAbort(cfg: Config, t: State, l: Label, issuer: Bytes)
    requires Next(cfg, t, l).Some? && LeavesAlone(cfg, issuer, l) && l.Abort?
    requires Spaced(ForcedTimes(t.log, issuer), cfg.cooldown) && ForcedOnRecord(cfg, t, issuer)
    ensures var u := Next(cfg, t, l).value;
            Spaced(ForcedTimes(u.log, issuer), cfg.cooldown) && ForcedOnRecord(cfg, u, issuer)
  {
    hide ForcedTimes, Spaced;
  }

  lemma ForcedSpacedPreload(cfg: Config, t: State, l: Label, issuer: Bytes)
    requires Next(cfg, t, l).Some? && LeavesAlone(cfg, issuer, l) && l.Preload?
    requires Spaced(ForcedTimes(t.log, issuer), cfg.cooldown) && ForcedOnRecord(cfg, t, issuer)
    ensures var u := Next(cfg, t, l).value;
            Spaced(ForcedTimes(u.log, issuer), cfg.cooldown) && ForcedOnRecord(cfg, u, issuer)
  {
    hide ForcedTimes, Spaced, Evict;
    EvictKeeps(t.entries, l.issuer, l.victim, issuer);
  }

  /** While an issuer is neither evicted nor seeded and none of its fetches is dropped, two forced fetches of it carry
      times at least the cooldown apart, the later sent the later by its own clock, even if callers' clocks arrive out
      of order; so any window of length T holds at most T / cooldown + 1 of them. */
  lemma ForcedFetchesAreRateLimited(cfg: Config, s: State, labels: seq<Label>, issuer: Bytes, i: nat, j: nat, T: nat)
    requires s.log == [] && Run(cfg, s, labels).Some? && AllLeaveAlone(cfg, issuer, labels)
    requires s.flight.None? || s.flight.value.issuer != issuer
    requires i <= j < |ForcedTimes(Run(cfg, s, labels).value.log, issuer)|
    ensures var times := ForcedTimes(Run(cfg, s, labels).value.log, issuer);
            && (i < j ==> times[i] + cfg.cooldown <= times[j])
            && (cfg.cooldown > 0 && times[j] - times[i] <= T ==> j - i + 1 <= T / cfg.cooldown + 1)
  {
    ForcedSpaced(cfg, s, labels, issuer);
    var times := ForcedTimes(Run(cfg, s, labels).value.log, issuer);
    SpacedWindow(times, cfg.cooldown, i, j);
    if cfg.cooldown > 0 && times[j] - times[i] <= T { Quotient(j - i, cfg.cooldown, T); }
  }

  lemma {:induction false} SpacedWindow(times: seq<nat>, gap: nat, i: nat, j: nat)
    requires Spaced(times, gap) && i <= j < |times|
    ensures times[j] - times[i] >= (j - i) * gap
  {
    if i < j {
      SpacedWindow(times, gap, i, j - 1);
      assert (j - i) * gap == (j - 1 - i) * gap + gap;
    }
  }

  lemma Quotient(n: nat, gap: nat, T: nat)
    requires gap > 0 && n * gap <= T
    ensures n <= T / gap
  {
    assert (T / gap + 1) * gap == T / gap * gap + gap > T;
    if n >= T / gap + 1 { MulMono(T / gap + 1, n, gap); }
  }

  lemma MulMono(a: nat, b: nat, k: nat)
    requires a <= b
    ensures a * k <= b * k
  {}

  /** A dropped fetch leaves no trace: the forced one after it is sent at once, whatever the cooldown. */
  lemma DroppedFetchIsNotCounted(cfg: Config, issuer: Bytes, now: nat)
    ensures var labels := [Lock(issuer, now, Forced), Abort(issuer), Lock(issuer, now, Forced)];
            && Run(cfg, EMPTY, labels).Some?
            && ForcedTimes(Run(cfg, EMPTY, labels).value.log, issuer) == [now, now]
  {
    hide Run, Next, ForcedTimes;
    var a, b, f := Lock(issuer, now, Forced), Abort(issuer), Fetch(issuer, now, Forced);
    assert [] + [a] == [a] && [a] + [b] == [a, b] && [a, b] + [a] == [a, b, a];
    assert [] + [f] == [f] && [f] + [f] == [f, f];
    RunNothing(cfg, EMPTY);
    LocksForced(cfg, issuer, now, []);
    RunSnoc(cfg, EMPTY, [], a);
    Aborts(cfg, issuer, now);
    RunSnoc(cfg, EMPTY, [a], b);
    LocksForced(cfg, issuer, now, [f]);
    RunSnoc(cfg, EMPTY, [a, b], a);
    NoForcedTimes(issuer);
    ForcedTimesSnoc([], f, issuer);
    ForcedTimesSnoc([f], f, issuer);
    assert [] + [now] == [now] && [now] + [now] == [now, now];
  }

  lemma NoForcedTimes(issuer: Bytes)
    ensures ForcedTimes([], issuer) == []
  {}

  lemma LocksForced(cfg: Config, issuer: Bytes, now: nat, log: seq<Fetch>)
    ensures Next(cfg, State(map[], None, log), Lock(issuer, now, Forced))
            == Some(State(map[], Some(Flight(issuer, now, Forced, None)), log + [Fetch(issuer, now, Forced)]))
  {}

  lemma Aborts(cfg: Config, issuer: Bytes, now: nat)
    ensures var log := [Fetch(issuer, now, Forced)];
            Next(cfg, State(map[], Some(Flight(issuer, now, Forced, None)), log), Abort(issuer))
            == Some(State(map[], None, log))
  {}

  // ---- Bursts ----

  /** The kinds of an issuer's fetches, in the order they were sent. */
  function KindsOf(log: seq<Fetch>, issuer: Bytes): seq<Refetch> {
    if log == [] then []
    else
      var last := log[|log| - 1];
      KindsOf(log[..|log| - 1], issuer) + if last.issuer == issuer then [last.kind] else []
  }

  lemma KindsSnoc(log: seq<Fetch>, f: Fetch, issuer: Bytes)
    ensures KindsOf(log + [f], issuer) == KindsOf(log, issuer) + if f.issuer == issuer then [f.kind] else []
  {
    assert (log + [f])[..|log|] == log;
  }

  predicate AtOneTime(labels: seq<Label>, issuer: Bytes, now: nat) {
    forall i | 0 <= i < |labels| && labels[i].Lock? && labels[i].issuer == issuer :: labels[i].now == now
  }

  /** None, one of either kind, or an ordinary one and then a forced one. */
  predicate OnePerKind(kinds: seq<Refetch>) {
    |kinds| <= 1 || kinds == [IfStale, Forced]
  }

  /** Once a fetch of the issuer has been stored its answer, good or bad, satisfies every ordinary caller with
      that time; once a forced one has, the cooldown stops every forced caller. */
  predicate Settled(cfg: Config, s: State, issuer: Bytes, now: nat) {
    var kinds := KindsOf(s.log, issuer);
    var flying := s.flight.Some? && s.flight.value.issuer == issuer;
    && OnePerKind(kinds)
    && (flying ==> kinds != [] && s.flight.value.kind == kinds[|kinds| - 1] && s.flight.value.now == now)
    && (kinds != [] && !flying ==> LookUp(cfg, s.entries, issuer, now) != Miss)
    && (Forced in kinds && !flying ==> Cooling(cfg, s.entries, issuer, now))
  }

  lemma SettledStep(cfg: Config, t: State, l: Label, issuer: Bytes, now: nat)
    requires Next(cfg, t, l).Some? && LeavesAlone(cfg, issuer, l) && Settled(cfg, t, issuer, now)
    requires l.Lock? && l.issuer == issuer ==> l.now == now
    requires cfg.ttl > 0 && cfg.negativeTtl > 0 && cfg.cooldown > 0
    requires now + cfg.cooldown < MAX64 && now + cfg.ttl < MAX64 && now + cfg.negativeTtl < MAX64
    ensures Settled(cfg, Next(cfg, t, l).value, issuer, now)
  {
    match l
    case Lock(other, _, kind) => SettledLock(cfg, t, l, issuer, now);
    case Finish(answer, victim) => SettledFinish(cfg, t, l, issuer, now);
    case Abort(other) =>
    case Preload(other, keys, _, victim) =>
      if issuer in t.entries { assert Next(cfg, t, l).value.entries[issuer] == t.entries[issuer]; }
  }

  lemma PairHasForced()
    ensures Forced in [IfStale, Forced]
  {
    assert [IfStale, Forced][1] == Forced;
  }

  lemma OnlyOrdinary(kinds: seq<Refetch>)
    requires OnePerKind(kinds) && kinds != [] && Forced !in kinds
    ensures kinds == [IfStale]
  {
    assert kinds[0] in kinds;
    PairHasForced();
    assert kinds[0] == IfStale;
    assert kinds == [kinds[0]];
  }

  lemma SettledLock(cfg: Config, t: State, l: Label, issuer: Bytes, now: nat)
    requires Next(cfg, t, l).Some? && l.Lock? && Settled(cfg, t, issuer, now) && (l.issuer == issuer ==> l.now == now)
    ensures Settled(cfg, Next(cfg, t, l).value, issuer, now)
  {
    hide KindsOf, LookUp, Cooling;
    KindsSnoc(t.log, Fetch(l.issuer, l.now, l.kind), issuer);
    var kinds := KindsOf(t.log, issuer);
    if l.issuer == issuer && Passes(cfg, t.entries, issuer, l.now, l.kind) && kinds != [] {
      assert l.kind == Forced && Forced !in kinds;
      OnlyOrdinary(kinds);
      assert kinds + [Forced] == [IfStale, Forced];
    }
  }

  lemma SettledFinish(cfg: Config, t: State, l: Label, issuer: Bytes, now: nat)
    requires Next(cfg, t, l).Some? && LeavesAlone(cfg, issuer, l) && l.Finish? && Settled(cfg, t, issuer, now)
    requires cfg.ttl > 0 && cfg.negativeTtl > 0 && cfg.cooldown > 0
    requires now + cfg.cooldown < MAX64 && now + cfg.ttl < MAX64 && now + cfg.negativeTtl < MAX64
    ensures Settled(cfg, Next(cfg, t, l).value, issuer, now)
  {
    hide KindsOf;
    var u, f := Next(cfg, t, l).value, t.flight.value;
    assert u.log == t.log && u.flight.None?;
    var kinds := KindsOf(t.log, issuer);
    if f.issuer == issuer {
      assert f.now == now && kinds != [] && f.kind == kinds[|kinds| - 1];
      StoredSettles(cfg, t.entries, f, l.answer, u.entries);
      assert LookUp(cfg, u.entries, issuer, now) != Miss;
      assert Forced in kinds ==> f.kind == Forced;
    } else if issuer in t.entries {
      assert u.entries[issuer] == t.entries[issuer];
    }
  }

  lemma StoredSettles(cfg: Config, m: Entries, f: Flight, answer: Option<KeySet>, next: Entries)
    requires f.issuer in next && next[f.issuer] == StoredEntry(m, f.issuer, f.now, f.kind, f.forcedBefore, answer)
    requires cfg.ttl > 0 && cfg.negativeTtl > 0 && cfg.cooldown > 0
    requires f.now + cfg.cooldown < MAX64 && f.now + cfg.ttl < MAX64 && f.now + cfg.negativeTtl < MAX64
    ensures LookUp(cfg, next, f.issuer, f.now) != Miss
    ensures f.kind == Forced ==> Cooling(cfg, next, f.issuer, f.now)
  {}

  lemma {:induction false} BurstSettles(cfg: Config, s: State, labels: seq<Label>, issuer: Bytes, now: nat)
    requires s.log == [] && Run(cfg, s, labels).Some? && AllLeaveAlone(cfg, issuer, labels)
    requires AtOneTime(labels, issuer, now)
    requires s.flight.None? || s.flight.value.issuer != issuer
    requires cfg.ttl > 0 && cfg.negativeTtl > 0 && cfg.cooldown > 0
    requires now + cfg.cooldown < MAX64 && now + cfg.ttl < MAX64 && now + cfg.negativeTtl < MAX64
    ensures Settled(cfg, Run(cfg, s, labels).value, issuer, now)
  {
    if labels != [] {
      var n := |labels| - 1;
      assert forall i | 0 <= i < n :: labels[..n][i] == labels[i];
      BurstSettles(cfg, s, labels[..n], issuer, now);
      assert LeavesAlone(cfg, issuer, labels[n]);
      SettledStep(cfg, Run(cfg, s, labels[..n]).value, labels[n], issuer, now);
    }
  }

  // What a burst sends, exactly.

  /** The kinds of the issuer's callers, in the order they got the lock. */
  function Callers(labels: seq<Label>, issuer: Bytes): seq<Refetch> {
    if labels == [] then []
    else
      var last := labels[|labels| - 1];
      Callers(labels[..|labels| - 1], issuer) + if last.Lock? && last.issuer == issuer then [last.kind] else []
  }

  /** An ordinary fetch is sent if the burst finds nothing to answer with, unless a forced one comes first; a forced
      one if the burst does not start inside the cooldown. */
  function Sent(miss: bool, cooling: bool, callers: seq<Refetch>): seq<Refetch> {
    (if miss && IfStale in callers && (cooling || callers[0] == IfStale) then [IfStale] else [])
    + if !cooling && Forced in callers then [Forced] else []
  }

  /** Until a fetch of the issuer its entry stays; until a forced one so does the time of the last forced one. */
  predicate Undisturbed(s: State, t: State, issuer: Bytes) {
    && (KindsOf(t.log, issuer) == [] ==>
          (issuer in t.entries <==> issuer in s.entries)
          && (issuer in s.entries ==> t.entries[issuer] == s.entries[issuer]))
    && (Forced !in KindsOf(t.log, issuer) ==>
          && ForcedBefore(t.entries, issuer) == ForcedBefore(s.entries, issuer)
          && (t.flight.Some? && t.flight.value.issuer == issuer ==>
                t.flight.value.forcedBefore == ForcedBefore(s.entries, issuer)))
  }

  lemma UndisturbedStep(cfg: Config, s: State, t: State, l: Label, issuer: Bytes, now: nat)
    requires Next(cfg, t, l).Some? && LeavesAlone(cfg, issuer, l) && Settled(cfg, t, issuer, now)
    requires Undisturbed(s, t, issuer)
    ensures Undisturbed(s, Next(cfg, t, l).value, issuer)
  {
    hide KindsOf, LookUp, Passes, OnePerKind, Evict;
    match l
    case Lock(other, time, kind) => KindsSnoc(t.log, Fetch(other, time, kind), issuer);
    case Finish(answer, victim) => UndisturbedFinish(cfg, s, t, l, issuer, now);
    case Abort(other) =>
    case Preload(other, keys, _, victim) => EvictKeeps(t.entries, other, victim, issuer);
  }

  lemma UndisturbedFinish(cfg: Config, s: State, t: State, l: Label, issuer: Bytes, now: nat)
    requires Next(cfg, t, l).Some? && l.Finish? && LeavesAlone(cfg, issuer, l)
    requires Settled(cfg, t, issuer, now) && Undisturbed(s, t, issuer)
    ensures Undisturbed(s, Next(cfg, t, l).value, issuer)
  {
    hide KindsOf, LookUp, OnePerKind, Evict;
    EvictKeeps(t.entries, t.flight.value.issuer, l.victim, issuer);
    var kinds := KindsOf(t.log, issuer);
    if kinds != [] { assert kinds[|kinds| - 1] in kinds; }
  }

  lemma SentSnoc(miss: bool, cooling: bool, callers: seq<Refetch>, kind: Refetch)
    ensures Sent(miss, cooling, callers + [kind]) ==
            var kinds := Sent(miss, cooling, callers);
            if kind == Forced then (if !cooling && Forced !in kinds then kinds + [Forced] else kinds)
            else if kinds == [] && miss then [IfStale] else kinds
    ensures OnePerKind(Sent(miss, cooling, callers))
  {
    var longer := callers + [kind];
    assert forall k :: k in longer <==> k in callers || k == kind;
    assert callers != [] ==> longer[0] == callers[0] && callers[0] in callers;
    PairHasForced();
  }

  lemma SentStep(cfg: Config, s: State, t: State, l: Label, issuer: Bytes, now: nat, callers: seq<Refetch>)
    requires Next(cfg, t, l).Some? && l.Lock? && l.issuer == issuer && l.now == now
    requires Settled(cfg, t, issuer, now) && Undisturbed(s, t, issuer)
    requires KindsOf(t.log, issuer)
               == Sent(LookUp(cfg, s.entries, issuer, now) == Miss, Cooling(cfg, s.entries, issuer, now), callers)
    ensures KindsOf(Next(cfg, t, l).value.log, issuer)
         == Sent(LookUp(cfg, s.entries, issuer, now) == Miss, Cooling(cfg, s.entries, issuer, now), callers + [l.kind])
  {
    hide KindsOf, Sent, OnePerKind;
    var miss, cooling := LookUp(cfg, s.entries, issuer, now) == Miss, Cooling(cfg, s.entries, issuer, now);
    var kinds := KindsOf(t.log, issuer);
    SentSnoc(miss, cooling, callers, l.kind);
    KindsSnoc(t.log, Fetch(issuer, now, l.kind), issuer);
    assert kinds + [] == kinds;
    assert kinds == [] ==> (LookUp(cfg, t.entries, issuer, now) == Miss <==> miss) && kinds + [l.kind] == [l.kind];
    assert Forced !in kinds ==> Cooling(cfg, t.entries, issuer, now) == cooling;
  }

  /** Exactly what a burst of callers with one time sends, however they interleave with each other, with fetches in
      flight and with other issuers. */
  lemma {:induction false} BurstSends(cfg: Config, s: State, labels: seq<Label>, issuer: Bytes, now: nat)
    requires s.log == [] && Run(cfg, s, labels).Some? && AllLeaveAlone(cfg, issuer, labels)
    requires AtOneTime(labels, issuer, now)
    requires s.flight.None? || s.flight.value.issuer != issuer
    requires cfg.ttl > 0 && cfg.negativeTtl > 0 && cfg.cooldown > 0
    requires now + cfg.cooldown < MAX64 && now + cfg.ttl < MAX64 && now + cfg.negativeTtl < MAX64
    ensures Undisturbed(s, Run(cfg, s, labels).value, issuer)
    ensures KindsOf(Run(cfg, s, labels).value.log, issuer) ==
            Sent(LookUp(cfg, s.entries, issuer, now) == Miss, Cooling(cfg, s.entries, issuer, now),
                 Callers(labels, issuer))
  {
    hide Undisturbed, Settled, LookUp, Cooling, Next;
    if labels == [] {
      NothingYet(s, issuer);
    } else {
      var n := |labels| - 1;
      assert forall i | 0 <= i < n :: labels[..n][i] == labels[i];
      BurstSends(cfg, s, labels[..n], issuer, now);
      BurstSettles(cfg, s, labels[..n], issuer, now);
      assert LeavesAlone(cfg, issuer, labels[n]);
      var t := Run(cfg, s, labels[..n]).value;
      UndisturbedStep(cfg, s, t, labels[n], issuer, now);
      if labels[n].Lock? && labels[n].issuer == issuer {
        SentStep(cfg, s, t, labels[n], issuer, now, Callers(labels[..n], issuer));
      } else {
        OthersSendNone(cfg, t, labels[n], issuer);
        assert Callers(labels, issuer) == Callers(labels[..n], issuer);
      }
    }
  }

  lemma NothingYet(s: State, issuer: Bytes)
    requires s.log == [] && (s.flight.None? || s.flight.value.issuer != issuer)
    ensures Undisturbed(s, s, issuer)
  {}

  lemma OthersSendNone(cfg: Config, t: State, l: Label, issuer: Bytes)
    requires Next(cfg, t, l).Some? && !(l.Lock? && l.issuer == issuer)
    ensures KindsOf(Next(cfg, t, l).value.log, issuer) == KindsOf(t.log, issuer)
  {
    if l.Lock? { KindsSnoc(t.log, Fetch(l.issuer, l.now, l.kind), issuer); }
  }

  /** A burst with one time sends at most two fetches, and two, an ordinary one and then a forced one, exactly when it
      starts with nothing to answer from, outside the cooldown, with an ordinary caller ahead of the first forced one.
      A burst of one kind of caller sends at most one. */
  lemma BurstFetchesOnce(cfg: Config, s: State, labels: seq<Label>, issuer: Bytes, now: nat)
    requires s.log == [] && Run(cfg, s, labels).Some? && AllLeaveAlone(cfg, issuer, labels)
    requires AtOneTime(labels, issuer, now)
    requires s.flight.None? || s.flight.value.issuer != issuer
    requires cfg.ttl > 0 && cfg.negativeTtl > 0 && cfg.cooldown > 0
    requires now + cfg.cooldown < MAX64 && now + cfg.ttl < MAX64 && now + cfg.negativeTtl < MAX64
    ensures var kinds, callers := KindsOf(Run(cfg, s, labels).value.log, issuer), Callers(labels, issuer);
            && OnePerKind(kinds)
            && (|kinds| > 1 <==>
                  && LookUp(cfg, s.entries, issuer, now) == Miss && !Cooling(cfg, s.entries, issuer, now)
                  && callers != [] && callers[0] == IfStale && Forced in callers)
            && (Forced !in callers || IfStale !in callers ==> |kinds| <= 1)
  {
    hide LookUp, Cooling;
    BurstSends(cfg, s, labels, issuer, now);
    SentSnoc(LookUp(cfg, s.entries, issuer, now) == Miss, Cooling(cfg, s.entries, issuer, now),
             Callers(labels, issuer), Forced);
    var callers := Callers(labels, issuer);
    assert callers != [] ==> callers[0] in callers;
  }

  /** Two it can be, whatever the configuration: an empty cache, an ordinary caller, and a forced one just after it. */
  lemma BurstFetchesTwice(cfg: Config, issuer: Bytes, now: nat, keys: KeySet)
    ensures var labels := [Lock(issuer, now, IfStale), Finish(Some(keys), None), Lock(issuer, now, Forced)];
            && Run(cfg, EMPTY, labels).Some?
            && KindsOf(Run(cfg, EMPTY, labels).value.log, issuer) == [IfStale, Forced]
  {
    hide Run, Next, KindsOf;
    var a, b, c := Lock(issuer, now, IfStale), Finish(Some(keys), None), Lock(issuer, now, Forced);
    var one, two := Fetch(issuer, now, IfStale), Fetch(issuer, now, Forced);
    assert [] + [a] == [a] && [a] + [b] == [a, b] && [a, b] + [c] == [a, b, c];
    RunNothing(cfg, EMPTY);
    RunSnoc(cfg, EMPTY, [], a);
    RunSnoc(cfg, EMPTY, [a], b) by { LocksEmpty(cfg, issuer, now); }
    LocksEmpty(cfg, issuer, now);
    RunSnoc(cfg, EMPTY, [a, b], c) by { FinishStores(cfg, issuer, now, keys); }
    FinishStores(cfg, issuer, now, keys);
    LocksAgain(cfg, issuer, now, keys);
    NoKinds(issuer);
    KindsSnoc([], one, issuer);
    KindsSnoc([one], two, issuer);
    assert [] + [one] == [one] && [] + [IfStale] == [IfStale] && [IfStale] + [Forced] == [IfStale, Forced];
  }

  lemma NoKinds(issuer: Bytes)
    ensures KindsOf([], issuer) == []
  {}

  function Fetched(issuer: Bytes, now: nat, keys: KeySet): Entries {
    map[issuer := Entry(Some(keys), now, None, now, None)]
  }

  lemma LocksEmpty(cfg: Config, issuer: Bytes, now: nat)
    ensures Next(cfg, EMPTY, Lock(issuer, now, IfStale))
            == Some(State(map[], Some(Flight(issuer, now, IfStale, None)), [Fetch(issuer, now, IfStale)]))
  {
    assert EMPTY.log + [Fetch(issuer, now, IfStale)] == [Fetch(issuer, now, IfStale)];
  }

  lemma FinishStores(cfg: Config, issuer: Bytes, now: nat, keys: KeySet)
    ensures var s := State(map[], Some(Flight(issuer, now, IfStale, None)), [Fetch(issuer, now, IfStale)]);
            Next(cfg, s, Finish(Some(keys), None))
            == Some(State(Fetched(issuer, now, keys), None, [Fetch(issuer, now, IfStale)]))
  {
    var none: Entries := map[];
    assert |none| == 0 && !MustEvict(none, issuer);
    assert none[issuer := Entry(Some(keys), now, None, now, None)] == Fetched(issuer, now, keys);
  }

  lemma LocksAgain(cfg: Config, issuer: Bytes, now: nat, keys: KeySet)
    ensures var s := State(Fetched(issuer, now, keys), None, [Fetch(issuer, now, IfStale)]);
            Next(cfg, s, Lock(issuer, now, Forced))
            == Some(State(s.entries, Some(Flight(issuer, now, Forced, None)), s.log + [Fetch(issuer, now, Forced)]))
  {}
}
