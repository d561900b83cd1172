/** Embed-on-write: which vectors a write needs, and the document they produce (server/src/embed.rs). */
module Embed {
  import opened ByteStrings
  import opened Values
  import opened Validation

  // ---- Source text ----

  /** Strings and nested arrays of strings, in order, separated by single spaces. */
  function CollectText(value: Value, out: Bytes): Bytes
    decreases value
  {
    match value
    case Str(s) => (if out == [] then [] else out + [32]) + s
    case Array(items) => CollectAll(items, out)
    case _ => out
  }

  function CollectAll(items: seq<Value>, out: Bytes): Bytes
    decreases items
  {
    if items == [] then out else CollectAll(items[1..], CollectText(items[0], out))
  }

  function JoinSources(data: Data, from: seq<Bytes>, out: Bytes): Bytes {
    if from == [] then out
    else JoinSources(data, from[1..], if from[0] in data then CollectText(data[from[0]], out) else out)
  }

  /** The text embedded for a document: its sources joined, clamped and trimmed. */
  function SourceText(e: Env, data: Data, from: seq<Bytes>): Bytes {
    e.clamp(JoinSources(data, from, []))
  }

  /** The text depends on the source fields only. */
  lemma {:induction false} SameSourcesSameText(e: Env, a: Data, b: Data, from: seq<Bytes>)
    requires forall f | f in from :: Get(a, f) == Get(b, f)
    ensures SourceText(e, a, from) == SourceText(e, b, from)
  {
    SameSourcesSameJoin(a, b, from, []);
  }

  lemma {:induction false} SameSourcesSameJoin(a: Data, b: Data, from: seq<Bytes>, out: Bytes)
    requires forall f | f in from :: Get(a, f) == Get(b, f)
    ensures JoinSources(a, from, out) == JoinSources(b, from, out)
  {
    if from != [] {
      assert from[0] in from && Get(a, from[0]) == Get(b, from[0]);
      SameSourcesSameJoin(a, b, from[1..], if from[0] in a then CollectText(a[from[0]], out) else out);
    }
  }

  // ---- Planning ----

  datatype PatchContext = PatchContext(previous: Data, updates: Data)
  datatype Pending = Pending(model: Bytes, dims: nat, text: Bytes)

  /** Fields to embed, and fields whose sources hold no text so that any vector there must go. */
  datatype Plan = Plan(embed: map<Bytes, Pending>, clear: set<Bytes>) {
    predicate IsEmpty() { embed == map[] && clear == {} }
  }

  predicate HasVector(data: Data, field: Bytes) {
    field in data && data[field] != Null
  }

  /** Insert and replace embed whenever the vector is missing. A patch embeds only when it changed a source
      and did not set the vector itself. */
  predicate Wanted(e: Env, cs: CollectionSchema, data: Data, patch: Option<PatchContext>, field: Bytes) {
    && field in cs.fields
    && EmbedSpecOf(e, cs.fields[field]).Some?
    && var from := EmbedSpecOf(e, cs.fields[field]).value.from;
       match patch
       case None => !HasVector(data, field)
       case Some(ctx) =>
         && field !in ctx.updates
         && exists i | 0 <= i < |from| :: Get(data, from[i]) != Get(ctx.previous, from[i])
  }

  function PendingFor(e: Env, cs: CollectionSchema, data: Data, field: Bytes): Pending
    requires field in cs.fields && EmbedSpecOf(e, cs.fields[field]).Some?
  {
    var spec := EmbedSpecOf(e, cs.fields[field]).value;
    Pending(spec.model, spec.dims, SourceText(e, data, spec.from))
  }

  /** The work one field needs, if any. */
  function Work(e: Env, cs: CollectionSchema, data: Data, patch: Option<PatchContext>, field: Bytes): Option<Pending> {
    if Wanted(e, cs, data, patch, field) then Some(PendingFor(e, cs, data, field)) else None
  }

  function PlanOver(work: Bytes -> Option<Pending>, fields: set<Bytes>): Plan {
    Plan(
      map f | f in fields && work(f).Some? && work(f).value.text != [] :: work(f).value,
      set f | f in fields && work(f).Some? && work(f).value.text == [] :: f)
  }

  function PlanFor(e: Env, cs: CollectionSchema, data: Data, patch: Option<PatchContext>): Plan {
    PlanOver(f => Work(e, cs, data, patch, f), cs.fields.Keys)
  }

  method ComputePlan(e: Env, cs: CollectionSchema, data: Data, patch: Option<PatchContext>) returns (plan: Plan)
    ensures plan == PlanFor(e, cs, data, patch)
  {
    plan := Plan(map[], {});
    var left := cs.fields.Keys;
    ghost var seen: set<Bytes> := {};
    ghost var work := f => Work(e, cs, data, patch, f);
    while left != {}
      invariant seen + left == cs.fields.Keys && seen !! left && plan == PlanOver(work, seen)
      decreases left
    {
      var field :| field in left;
      PlanExtends(work, seen, field);
      left := left - {field};
      seen := seen + {field};
      if Wanted(e, cs, data, patch, field) {
        var item := PendingFor(e, cs, data, field);
        if item.text == [] {
          plan := plan.(clear := plan.clear + {field});
        } else {
          plan := plan.(embed := plan.embed[field := item]);
        }
      }
    }
    assert seen == cs.fields.Keys;
  }

  lemma PlanExtends(work: Bytes -> Option<Pending>, seen: set<Bytes>, field: Bytes)
    ensures PlanOver(work, seen + {field}) ==
            var plan := PlanOver(work, seen);
            match work(field)
            case None => plan
            case Some(item) =>
              if item.text == [] then plan.(clear := plan.clear + {field})
              else plan.(embed := plan.embed[field := item])
  {
    var plan, longer := PlanOver(work, seen), PlanOver(work, seen + {field});
    if work(field).None? || work(field).value.text == [] {
      assert longer.embed == plan.embed;
    }
    if work(field).None? || work(field).value.text != [] {
      assert longer.clear == plan.clear;
    }
  }

  // ---- Applying a plan ----

  /** What a provider answers for one model and text; `None` is a failed call. */
  type Provider = (Bytes, Bytes) -> Option<seq<bits64>>

  function VectorJson(v: seq<bits64>): Value {
    Array(seq(|v|, i requires 0 <= i < |v| => Number(v[i])))
  }

  /** The answer as a document field; the wrong width or a component that is not finite is refused. */
  function VectorValue(e: Env, pending: Pending, provider: Provider): Option<Value> {
    match provider(pending.model, pending.text)
    case None => None
    case Some(v) =>
      if |v| != pending.dims || (exists i | 0 <= i < |v| :: e.narrow(v[i]).None?) then None
      else Some(VectorJson(v))
  }

  datatype Outcome = Failed | Done(data: Data, embedded: bool)

  function Apply(e: Env, plan: Plan, data: Data, provider: Provider): Outcome {
    if exists f | f in plan.embed :: VectorValue(e, plan.embed[f], provider).None? then Failed
    else Done(
      map f | f in (data.Keys - plan.clear) + plan.embed.Keys ::
        if f in plan.embed then VectorValue(e, plan.embed[f], provider).value else data[f],
      true)
  }

  /** Fill server-provided vectors. Without a provider, a declared collection or anything to do, the data
      is unchanged and nothing counts as embedded. */
  function ApplyEmbeddings(e: Env, provider: Option<Provider>, cs: Option<CollectionSchema>, data: Data,
                           patch: Option<PatchContext>): Outcome {
    if provider.None? || cs.None? then Done(data, false)
    else
      var plan := PlanFor(e, cs.value, data, patch);
      if plan.IsEmpty() then Done(data, false) else Apply(e, plan, data, provider.value)
  }

  /** Embedding touches fields with embed settings only. */
  lemma EmbeddingTouchesFilledFields(e: Env, provider: Option<Provider>, cs: Option<CollectionSchema>, data: Data,
                                     patch: Option<PatchContext>, field: Bytes)
    requires ApplyEmbeddings(e, provider, cs, data, patch).Done?
    ensures Get(ApplyEmbeddings(e, provider, cs, data, patch).data, field) == Get(data, field)
         || (cs.Some? && Wanted(e, cs.value, data, patch, field))
  {
  }

  /** What does not count as embedded is unchanged. */
  lemma NotEmbeddedUnchanged(e: Env, provider: Option<Provider>, cs: Option<CollectionSchema>, data: Data,
                             patch: Option<PatchContext>)
    ensures var out := ApplyEmbeddings(e, provider, cs, data, patch); out.Done? && !out.embedded ==> out.data == data
  {
    hide PlanFor;
  }

  // ---- Text and vector agree ----

  /** A server-filled field holds the embedding of the document's current source text, and nothing when
      there is no text. */
  predicate Matched(e: Env, provider: Provider, cs: CollectionSchema, data: Data, field: Bytes)
    requires field in cs.fields && EmbedSpecOf(e, cs.fields[field]).Some?
  {
    var pending := PendingFor(e, cs, data, field);
    if pending.text == [] then field !in data
    else VectorValue(e, pending, provider).Some? && Get(data, field) == VectorValue(e, pending, provider)
  }

  /** Sources are never filled fields themselves: `check_embed_sources` accepts text-like sources only. */
  predicate SourcesAreText(e: Env, cs: CollectionSchema) {
    forall f | f in cs.fields && EmbedSpecOf(e, cs.fields[f]).Some? ::
      forall s | s in EmbedSpecOf(e, cs.fields[f]).value.from ::
        s in cs.fields && EmbedSpecOf(e, cs.fields[s]).None?
  }

  /** The push's check gives just that. */
  lemma CheckedSourcesAreText(e: Env, cs: CollectionSchema)
    requires forall f | f in cs.fields :: SourcesChecked(cs, f)
    ensures SourcesAreText(e, cs)
  {
    forall f, s | f in cs.fields && EmbedSpecOf(e, cs.fields[f]).Some? && s in EmbedSpecOf(e, cs.fields[f]).value.from
      ensures s in cs.fields && EmbedSpecOf(e, cs.fields[s]).None?
    {
      var items := Member(Unwrap(cs.fields[f]), FROM).value.items;
      assert SourcesChecked(cs, f);
      StringsAreItems(items, s);
      TextIsNotFilled(e, cs.fields[s]);
    }
  }

  /** Embedding leaves every source field, and hence every source text, as it was. */
  lemma EmbeddingKeepsText(e: Env, provider: Option<Provider>, cs: CollectionSchema, data: Data,
                           patch: Option<PatchContext>, field: Bytes)
    requires SourcesAreText(e, cs) && field in cs.fields && EmbedSpecOf(e, cs.fields[field]).Some?
    requires ApplyEmbeddings(e, provider, Some(cs), data, patch).Done?
    ensures PendingFor(e, cs, ApplyEmbeddings(e, provider, Some(cs), data, patch).data, field)
         == PendingFor(e, cs, data, field)
  {
    var out := ApplyEmbeddings(e, provider, Some(cs), data, patch).data;
    var from := EmbedSpecOf(e, cs.fields[field]).value.from;
    forall s | s in from ensures Get(out, s) == Get(data, s) {
      EmbeddingTouchesFilledFields(e, provider, Some(cs), data, patch, s);
    }
    SameSourcesSameText(e, out, data, from);
  }

  /** A whole-document write that does not supply the vector stores the embedding of its own text. */
  lemma WholeWriteMatches(e: Env, provider: Provider, cs: CollectionSchema, data: Data, field: Bytes)
    requires SourcesAreText(e, cs) && field in cs.fields && EmbedSpecOf(e, cs.fields[field]).Some?
    requires !HasVector(data, field)
    requires ApplyEmbeddings(e, Some(provider), Some(cs), data, None).Done?
    ensures Matched(e, provider, cs, ApplyEmbeddings(e, Some(provider), Some(cs), data, None).data, field)
  {
    EmbeddingKeepsText(e, Some(provider), Some(cs).value, data, None, field);
    var plan := PlanFor(e, cs, data, None);
    assert Wanted(e, cs, data, None, field);
    assert field in plan.embed || field in plan.clear;
    assert !plan.IsEmpty();
  }

  function Merge(data: Data, updates: Data): Data { data + updates }

  /** A patch embedded against the very document it is merged into keeps text and vector matched. */
  lemma PatchMatches(e: Env, provider: Provider, cs: CollectionSchema, previous: Data, updates: Data, field: Bytes)
    requires SourcesAreText(e, cs) && field in cs.fields && EmbedSpecOf(e, cs.fields[field]).Some?
    requires Matched(e, provider, cs, previous, field) && field !in updates
    requires ApplyEmbeddings(e, Some(provider), Some(cs), Merge(previous, updates),
                             Some(PatchContext(previous, updates))).Done?
    ensures Matched(e, provider, cs,
              ApplyEmbeddings(e, Some(provider), Some(cs), Merge(previous, updates),
                              Some(PatchContext(previous, updates))).data, field)
  {
    var ctx, merged := Some(PatchContext(previous, updates)), Merge(previous, updates);
    var plan := PlanFor(e, cs, merged, ctx);
    var from := EmbedSpecOf(e, cs.fields[field]).value.from;
    EmbeddingKeepsText(e, Some(provider), cs, merged, ctx, field);
    if Wanted(e, cs, merged, ctx, field) {
      assert field in plan.embed || field in plan.clear;
      assert !plan.IsEmpty();
    } else {
      forall s | s in from ensures Get(merged, s) == Get(previous, s) {
        var i :| 0 <= i < |from| && from[i] == s;
      }
      SameSourcesSameText(e, merged, previous, from);
      EmbeddingTouchesFilledFields(e, Some(provider), Some(cs), merged, ctx, field);
      assert Get(merged, field) == Get(previous, field);
    }
  }

  function TextFor(e: Env, cs: CollectionSchema, data: Data, field: Bytes): Bytes
    requires field in cs.fields && EmbedSpecOf(e, cs.fields[field]).Some?
  {
    SourceText(e, data, EmbedSpecOf(e, cs.fields[field]).value.from)
  }

  /** No two texts get the same usable vector from this model at this width. */
  ghost predicate TellsApart(e: Env, provider: Provider, model: Bytes, dims: nat) {
    forall a, b | a != [] && b != [] && VectorValue(e, Pending(model, dims, a), provider).Some? && a != b ::
      VectorValue(e, Pending(model, dims, a), provider) != VectorValue(e, Pending(model, dims, b), provider)
  }

  /** A patch that embeds nothing stores `existing + updates`, whatever document it planned against. It keeps text and
      vector matched whenever the merge leaves the text of the document it finds under the locks as it was, in
      particular whenever it names no source; and if the provider tells texts apart, only then. */
  lemma EmptyPlanPatchMatches(e: Env, provider: Provider, cs: CollectionSchema, existing: Data, updates: Data,
                              field: Bytes)
    requires field in cs.fields && EmbedSpecOf(e, cs.fields[field]).Some?
    requires Matched(e, provider, cs, existing, field) && field !in updates
    ensures var spec, merged := EmbedSpecOf(e, cs.fields[field]).value, Merge(existing, updates);
            && ((forall s | s in spec.from :: s !in updates) ==>
                  TextFor(e, cs, merged, field) == TextFor(e, cs, existing, field))
            && (TextFor(e, cs, merged, field) == TextFor(e, cs, existing, field) ==>
                  Matched(e, provider, cs, merged, field))
            && (TellsApart(e, provider, spec.model, spec.dims) && Matched(e, provider, cs, merged, field) ==>
                  TextFor(e, cs, merged, field) == TextFor(e, cs, existing, field))
  {
    var spec, merged := EmbedSpecOf(e, cs.fields[field]).value, Merge(existing, updates);
    assert Get(merged, field) == Get(existing, field);
    if forall s | s in spec.from :: s !in updates {
      SameSourcesSameText(e, existing, merged, spec.from);
    }
    var before, after := TextFor(e, cs, existing, field), TextFor(e, cs, merged, field);
    assert PendingFor(e, cs, existing, field) == Pending(spec.model, spec.dims, before);
    assert PendingFor(e, cs, merged, field) == Pending(spec.model, spec.dims, after);
  }

  /** A patch that restates what it read plans nothing. */
  lemma RestatingPlansNothing(e: Env, cs: CollectionSchema, previous: Data, updates: Data)
    requires forall f | f in updates :: Get(previous, f) == Some(updates[f])
    ensures PlanFor(e, cs, Merge(previous, updates), Some(PatchContext(previous, updates))).IsEmpty()
  {
    assert Merge(previous, updates) == previous;
    var plan := PlanFor(e, cs, previous, Some(PatchContext(previous, updates)));
    assert plan.embed == map[] && plan.clear == {};
  }
}
