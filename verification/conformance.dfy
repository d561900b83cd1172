/** What is stored has the shapes its schema asks for, over every run, and holds the vectors it should. */
module Conformance {
  import opened ByteStrings
  import opened Values
  import opened Keys
  import opened Stores
  import opened Agreement
  import opened Machine
  import opened Safety
  import opened Consistency
  import opened Shapes
  import opened Filling
  import Embed
  import Intent
  import Validation

  /** Whatever an insert, a replacement or a patch commits, in any interleaving, had the shapes of the schema just
      before its batch both when it was judged and as it is stored. */
  lemma StoredConforms(e: Env, s: State, n: nat)
    requires Reachable(e, s) && n < |s.log| && s.log[n].WriteCommit? && Intent.IsStore(s.log[n].req)
    ensures |s.stores| == |s.log| + 1 && s.log[n].now.Some?
    ensures var commit := s.log[n];
            var cs := CollectionAt(s.stores[n], commit.req.p, commit.req.c);
            Conforms(e, cs, commit.judged) && Conforms(e, cs, commit.now.value.data)
  {
    hide Reachable, AtomicStep, Conforms;
    ReachableSerial(e, s);
    assert AtomicStep(e, s.stores[n], s.log[n], s.stores[n + 1]);
    StoresSomething(e, s.stores[n], s.log[n], s.stores[n + 1]);
    CommitConforms(e, s.stores[n], s.log[n], s.stores[n + 1]);
  }

  lemma StoresSomething(e: Env, before: Store, commit: Commit, after: Store)
    requires AtomicStep(e, before, commit, after) && commit.WriteCommit? && Intent.IsStore(commit.req)
    ensures commit.now.Some?
  {
    hide AfterWrite, Follows, Validation.SchemaAccepts, FilledLate, CollectionAt, DocAt;
  }

  lemma CommitConforms(e: Env, before: Store, commit: Commit, after: Store)
    requires AtomicStep(e, before, commit, after) && commit.WriteCommit? && commit.now.Some?
    ensures var cs := CollectionAt(before, commit.req.p, commit.req.c);
            Conforms(e, cs, commit.judged) && Conforms(e, cs, commit.now.value.data)
  {
    hide AfterWrite, Conforms, Follows, Validation.SchemaAccepts, FilledLate, CollectionAt, DocAt;
    var cs, data := CollectionAt(before, commit.req.p, commit.req.c), commit.now.value.data;
    AcceptsIsConforms(e, cs, commit.judged);
    if data != commit.judged {
      LateConforms(e, cs, commit.was.value.data, commit.req.updates, commit.judged, data);
    }
  }

  lemma LateConforms(e: Env, cs: Option<CollectionSchema>, was: Data, updates: Data, merged: Data, data: Data)
    requires Conforms(e, cs, merged) && FilledLate(e, cs, was, updates, merged, data)
    ensures Conforms(e, cs, data)
  {
    hide Conforms, Embed.ApplyEmbeddings;
    var provider :| EmbedsTo(e, provider, cs, merged, Some(Embed.PatchContext(was, updates)), data);
    FillingConforms(e, provider, cs, merged, Some(Embed.PatchContext(was, updates)));
  }

  /** All documents of a collection have the shapes its schema asks for. */
  ghost predicate AllConform(e: Env, st: Store, p: Bytes, c: Bytes) {
    forall id | DocAt(st, p, c, id).Some? :: Conforms(e, CollectionAt(st, p, c), DocAt(st, p, c, id).value.data)
  }

  /** Between two moments the collection's schema is not pushed over, whatever else is. */
  predicate SchemaStays(s: State, p: Bytes, c: Bytes, a: nat, b: nat) {
    b < |s.stores| && forall n | a <= n <= b :: CollectionAt(s.stores[n], p, c) == CollectionAt(s.stores[b], p, c)
  }

  /** While a collection's schema stays, no interleaving of writes makes any of its documents lose its shapes. */
  lemma {:induction false} ConformanceKept(e: Env, s: State, p: Bytes, c: Bytes, a: nat, b: nat)
    requires Reachable(e, s) && a <= b <= |s.log| < |s.stores| && SchemaStays(s, p, c, a, b)
    requires AllConform(e, s.stores[a], p, c)
    ensures AllConform(e, s.stores[b], p, c)
  {
    hide Reachable, AtomicStep, AllConform, CollectionAt;
    if a < b {
      assert CollectionAt(s.stores[b - 1], p, c) == CollectionAt(s.stores[b], p, c);
      ConformanceKept(e, s, p, c, a, b - 1);
      ReachableSerial(e, s);
      assert AtomicStep(e, s.stores[b - 1], s.log[b - 1], s.stores[b]);
      StepConforms(e, s.stores[b - 1], s.log[b - 1], s.stores[b], p, c);
    }
  }

  lemma StepConforms(e: Env, before: Store, commit: Commit, after: Store, p: Bytes, c: Bytes)
    requires AtomicStep(e, before, commit, after) && Typed(before) && AllConform(e, before, p, c)
    requires CollectionAt(after, p, c) == CollectionAt(before, p, c)
    ensures AllConform(e, after, p, c)
  {
    hide AtomicStep, Conforms, CollectionAt, DocAt, Typed;
    forall id | DocAt(after, p, c, id).Some?
      ensures Conforms(e, CollectionAt(after, p, c), DocAt(after, p, c, id).value.data)
    {
      if Writes(commit, p, c, id) {
        WriterSetsDoc(e, before, commit, after, p, c, id);
        CommitConforms(e, before, commit, after);
      } else {
        OthersKeepDoc(e, before, commit, after, p, c, id);
      }
    }
  }

  // ---- Vectors, over runs ----

  /** What is stored for what was asked, with this provider under this schema: each field that is due is filled, every
      other one is as asked. */
  ghost predicate FilledAs(e: Env, provider: Option<Embed.Provider>, cs: Option<CollectionSchema>, asked: Data,
                           patch: Option<Embed.PatchContext>, stored: Data) {
    if provider.None? || cs.None? then stored == asked
    else
      forall shapes, f | Declares(e, cs.value, shapes) ::
        if IsDue(shapes, asked, patch, f) then
          Filled(e, provider.value, SettingsOf(shapes[f]).value, asked, stored, f)
        else Get(stored, f) == Get(asked, f)
  }

  /** Every committed insert, replacement and patch is filled so, under the schema it read before locking or, for a
      patch that embeds under its locks, the one just before its batch. */
  lemma StoredAreFilled(e: Env, s: State, n: nat)
    requires Reachable(e, s) && n < |s.log| && s.log[n].WriteCommit? && Intent.IsStore(s.log[n].req)
    ensures |s.stores| == |s.log| + 1 && s.log[n].now.Some? && (s.log[n].req.Patch? ==> s.log[n].was.Some?)
    ensures var commit := s.log[n];
            var was := OptData(commit.was);
            exists m: nat, provider ::
              && m <= n && (m == n || commit.advisory == SchemaAt(s.stores[m], commit.req.p))
              && FilledAs(e, provider, CollectionAt(s.stores[m], commit.req.p, commit.req.c),
                          Requested(commit.req, was), Intent.ContextOf(commit.req, was), commit.now.value.data)
  {
    hide Reachable, AtomicStep, Intent.Embeds, FilledAs, SchemaAt, CollectionAt;
    Serialisable(e, s, n);
    var c := s.log[n];
    var m: nat :| Intent.StoresAsked(e, s.stores, c.req, c.advisory, c.was, c.now, m, n);
    var was, data := OptData(c.was), c.now.value.data;
    var k := if Intent.Embeds(e, CollectionAt(s.stores[m], c.req.p, c.req.c), c.req, was, data) then m else n;
    var provider := EmbedsIsFilledAs(e, CollectionAt(s.stores[k], c.req.p, c.req.c), c.req, was, data);
  }

  lemma EmbedsIsFilledAs(e: Env, cs: Option<CollectionSchema>, req: Request, was: Option<Data>, data: Data)
    returns (provider: Option<Embed.Provider>)
    requires IsWriteReq(req) && (req.Patch? ==> was.Some?) && Intent.Embeds(e, cs, req, was, data)
    ensures FilledAs(e, provider, cs, Requested(req, was), Intent.ContextOf(req, was), data)
  {
    hide Embed.ApplyEmbeddings, Declares, Due, Filled, SettingsOf;
    provider :| Intent.EmbedsWith(e, provider, cs, req, was, data);
    var asked, patch := Requested(req, was), Intent.ContextOf(req, was);
    if provider.None? || cs.None? {
      NothingToFillWith(e, provider, cs, asked, patch);
    } else {
      forall shapes | Declares(e, cs.value, shapes)
        ensures forall f ::
                  if IsDue(shapes, asked, patch, f) then
                    Filled(e, provider.value, SettingsOf(shapes[f]).value, asked, data, f)
                  else Get(data, f) == Get(asked, f)
      {
        FillsWhatIsDue(e, provider.value, cs.value, shapes, asked, patch);
      }
    }
  }

  /** A vector the client sends itself is stored as sent: by an insert or replacement if it is not null, by a patch
      whatever it is. */
  lemma SentVectorStored(e: Env, s: State, n: nat, field: Bytes)
    requires Reachable(e, s) && n < |s.log| && s.log[n].WriteCommit? && Intent.IsStore(s.log[n].req)
    requires var req := s.log[n].req;
             if req.Patch? then field in req.updates else field in req.data && req.data[field] != Null
    ensures s.log[n].now.Some?
    ensures Get(s.log[n].now.value.data, field)
         == Some(if s.log[n].req.Patch? then s.log[n].req.updates[field] else s.log[n].req.data[field])
  {
    hide Reachable, AtomicStep, Intent.Embeds, CollectionAt;
    Serialisable(e, s, n);
    var c := s.log[n];
    var m: nat :| Intent.StoresAsked(e, s.stores, c.req, c.advisory, c.was, c.now, m, n);
    var was, data := OptData(c.was), c.now.value.data;
    var k := if Intent.Embeds(e, CollectionAt(s.stores[m], c.req.p, c.req.c), c.req, was, data) then m else n;
    SentIsKept(e, CollectionAt(s.stores[k], c.req.p, c.req.c), c.req, was, data, field);
  }

  lemma SentIsKept(e: Env, cs: Option<CollectionSchema>, req: Request, was: Option<Data>, data: Data, field: Bytes)
    requires Intent.IsStore(req) && (req.Patch? ==> was.Some?) && Intent.Embeds(e, cs, req, was, data)
    requires if req.Patch? then field in req.updates else field in req.data && req.data[field] != Null
    ensures Get(data, field) == Some(if req.Patch? then req.updates[field] else req.data[field])
  {
    hide Embed.ApplyEmbeddings;
    var provider :| Intent.EmbedsWith(e, provider, cs, req, was, data);
    OwnVectorKept(e, provider, cs, Requested(req, was), Intent.ContextOf(req, was), field);
  }
}
