/** What the server fills in, told from the shapes a schema declares and the strings a document holds: which fields,
    from which text, with which answer (server/src/embed.rs, server/src/fts.rs). */
module Filling {
  import opened ByteStrings
  import opened Values
  import opened Shapes
  import Embed
  import Fts
  import Validation

  // ---- Text ----

  /** The strings in a value, in order; arrays are entered, nothing else is. */
  function Leaves(v: Value): seq<Bytes>
    decreases v
  {
    match v
    case Str(s) => [s]
    case Array(items) => LeavesOf(items)
    case _ => []
  }

  function LeavesOf(items: seq<Value>): seq<Bytes>
    decreases items
  {
    if items == [] then [] else Leaves(items[0]) + LeavesOf(items[1..])
  }

  /** The strings of some fields, field after field; an absent field has none. */
  function FieldLeaves(data: Data, fields: seq<Bytes>): seq<Bytes> {
    if fields == [] then []
    else (if fields[0] in data then Leaves(data[fields[0]]) else []) + FieldLeaves(data, fields[1..])
  }

  /** Each word with a space after it. */
  function Spaced(words: seq<Bytes>): Bytes {
    if words == [] then [] else words[0] + [32] + Spaced(words[1..])
  }

  /** The words with a space between any two. */
  function Sentence(words: seq<Bytes>): Bytes {
    if words == [] then [] else if |words| == 1 then words[0] else words[0] + [32] + Sentence(words[1..])
  }

  /** The words from the first one that is not empty. */
  function Spoken(words: seq<Bytes>): seq<Bytes> {
    if words != [] && words[0] == [] then Spoken(words[1..]) else words
  }

  lemma {:induction false} SpacedConcat(a: seq<Bytes>, b: seq<Bytes>)
    ensures Spaced(a + b) == Spaced(a) + Spaced(b)
  {
    if a == [] {
      assert a + b == b;
    } else {
      SpacedConcat(a[1..], b);
      assert (a + b)[1..] == a[1..] + b;
    }
  }

  lemma {:induction false} CollectedIsSpaced(v: Value)
    ensures Fts.CollectText(v) == Spaced(Leaves(v))
    decreases v
  {
    if v.Str? {
      assert Spaced([v.s]) == v.s + [32] + Spaced([v.s][1..]);
    } else if v.Array? {
      CollectedAllIsSpaced(v.items);
    }
  }

  lemma {:induction false} CollectedAllIsSpaced(items: seq<Value>)
    ensures Fts.CollectAll(items) == Spaced(LeavesOf(items))
    decreases items
  {
    if items != [] {
      CollectedIsSpaced(items[0]);
      CollectedAllIsSpaced(items[1..]);
      SpacedConcat(Leaves(items[0]), LeavesOf(items[1..]));
    }
  }

  /** The text a search index takes from a document: every string in its fields, nested in arrays or not, in order and
      each followed by a space. */
  lemma {:induction false} IndexedText(fields: seq<Bytes>, data: Data)
    ensures Fts.DocText(fields, data) == Spaced(FieldLeaves(data, fields))
  {
    if fields != [] {
      IndexedText(fields[1..], data);
      var first := if fields[0] in data then Leaves(data[fields[0]]) else [];
      if fields[0] in data { CollectedIsSpaced(data[fields[0]]); }
      SpacedConcat(first, FieldLeaves(data, fields[1..]));
    }
  }

  /** Words added one by one to a text, with a space before each unless there is no text yet. */
  function Extend(text: Bytes, words: seq<Bytes>): Bytes
    decreases words
  {
    if words == [] then text else Extend((if text == [] then [] else text + [32]) + words[0], words[1..])
  }

  lemma {:induction false} ExtendConcat(text: Bytes, a: seq<Bytes>, b: seq<Bytes>)
    ensures Extend(text, a + b) == Extend(Extend(text, a), b)
    decreases a
  {
    if a == [] {
      assert a + b == b;
    } else {
      ExtendConcat((if text == [] then [] else text + [32]) + a[0], a[1..], b);
      assert (a + b)[1..] == a[1..] + b;
    }
  }

  lemma {:induction false} ExtendIsSentence(text: Bytes, words: seq<Bytes>)
    ensures text != [] ==> Extend(text, words) == Sentence([text] + words)
    ensures text == [] ==> Extend(text, words) == Sentence(Spoken(words))
    decreases words
  {
    if words == [] {
      assert [text] + words == [text];
    } else {
      var longer := (if text == [] then [] else text + [32]) + words[0];
      ExtendIsSentence(longer, words[1..]);
      if text == [] {
        assert longer == words[0];
        assert [words[0]] + words[1..] == words;
      } else {
        SentenceGlue(text, words);
      }
    }
  }

  lemma SentenceGlue(text: Bytes, words: seq<Bytes>)
    requires words != []
    ensures Sentence([text] + words) == Sentence([text + [32] + words[0]] + words[1..])
  {
    var first := words[0];
    SentenceCons(text, words);
    if |words| == 1 {
      assert [text + [32] + first] + words[1..] == [text + [32] + first];
    } else {
      SentenceCons(text + [32] + first, words[1..]);
      assert words == [first] + words[1..];
      SentenceCons(first, words[1..]);
      Regroup(text, first, Sentence(words[1..]));
    }
  }

  lemma SentenceCons(first: Bytes, rest: seq<Bytes>)
    requires rest != []
    ensures Sentence([first] + rest) == first + [32] + Sentence(rest)
  {
    assert ([first] + rest)[1..] == rest;
  }

  lemma Regroup(a: Bytes, b: Bytes, rest: Bytes)
    ensures a + [32] + (b + [32] + rest) == a + [32] + b + [32] + rest
  {}

  lemma {:induction false} CollectedExtends(v: Value, out: Bytes)
    ensures Embed.CollectText(v, out) == Extend(out, Leaves(v))
    decreases v
  {
    if v.Str? {
      assert [v.s][1..] == [];
    } else if v.Array? {
      CollectedAllExtends(v.items, out);
    }
  }

  lemma {:induction false} CollectedAllExtends(items: seq<Value>, out: Bytes)
    ensures Embed.CollectAll(items, out) == Extend(out, LeavesOf(items))
    decreases items
  {
    if items != [] {
      CollectedExtends(items[0], out);
      CollectedAllExtends(items[1..], Embed.CollectText(items[0], out));
      ExtendConcat(out, Leaves(items[0]), LeavesOf(items[1..]));
    }
  }

  lemma {:induction false} JoinedExtends(data: Data, from: seq<Bytes>, out: Bytes)
    ensures Embed.JoinSources(data, from, out) == Extend(out, FieldLeaves(data, from))
  {
    if from != [] {
      var first := if from[0] in data then Leaves(data[from[0]]) else [];
      if from[0] in data { CollectedExtends(data[from[0]], out); }
      JoinedExtends(data, from[1..], if from[0] in data then Embed.CollectText(data[from[0]], out) else out);
      ExtendConcat(out, first, FieldLeaves(data, from[1..]));
    }
  }

  /** The text embedded for a document: the strings in its source fields, in order with single spaces between, without
      the empty ones in front; then clamped. */
  lemma EmbeddedText(e: Env, data: Data, from: seq<Bytes>)
    ensures Embed.SourceText(e, data, from) == e.clamp(Sentence(Spoken(FieldLeaves(data, from))))
  {
    JoinedExtends(data, from, []);
    ExtendIsSentence([], FieldLeaves(data, from));
  }

  // ---- Settings ----

  datatype Settings = Settings(width: nat, sources: seq<Bytes>, model: Bytes)

  /** The names among listed sources. */
  function Names(items: seq<Value>): seq<Bytes> {
    if items == [] then []
    else match items[|items| - 1]
      case Str(s) => Names(items[..|items| - 1]) + [s]
      case _ => Names(items[..|items| - 1])
  }

  /** A vector of known width with a named model and at least one named source is embedded, under one `optional` or
      not. */
  function SettingsOf(shape: Shape): Option<Settings> {
    match if shape.Maybe? then shape.inner else shape
    case VectorOf(Some(width), sources, Some(model)) =>
      if Names(sources) == [] || model == [] then None else Some(Settings(width, Names(sources), model))
    case _ => None
  }

  lemma {:induction false} StringsConcat(a: seq<Value>, b: seq<Value>)
    ensures Validation.Strings(a + b) == Validation.Strings(a) + Validation.Strings(b)
  {
    if a == [] {
      assert a + b == b;
    } else {
      StringsConcat(a[1..], b);
      assert (a + b)[1..] == a[1..] + b;
    }
  }

  lemma {:induction false} StringsAreNames(items: seq<Value>)
    ensures Validation.Strings(items) == Names(items)
  {
    if items != [] {
      var n := |items| - 1;
      var last := [items[n]];
      StringsAreNames(items[..n]);
      StringsConcat(items[..n], last);
      assert items == items[..n] + last && last[1..] == [];
      assert Validation.Strings(last) == (if last[0].Str? then [last[0].s] else []) + Validation.Strings(last[1..]);
    }
  }

  lemma VectorSettings(e: Env, v: Value, shape: Shape)
    requires Describes(e, v, shape) && shape.VectorOf?
    ensures Validation.HasType(v, Validation.VECTOR)
    ensures Validation.VectorDims(e, v) == shape.width
    ensures var from := Validation.Member(v, Validation.FROM);
            shape.sources == if from.Some? && from.value.Array? then from.value.items else []
    ensures Validation.AsString(Validation.Member(v, Validation.MODEL)) == shape.model
  {
    hide Spell;
    TypeNames();
    PartNames();
  }

  lemma OtherTypes(e: Env, v: Value, shape: Shape)
    requires Describes(e, v, shape)
    ensures Validation.HasType(v, Validation.VECTOR) <==> shape.VectorOf?
    ensures Validation.HasType(v, Validation.OPTIONAL) <==> shape.Maybe?
    ensures shape.Maybe? ==> Validation.Member(v, Validation.INNER) == Part(v, "inner")
  {
    hide Spell;
    TypeNames();
    PartNames();
    NamesDiffer();
  }

  /** The settings read from a validator's JSON are those of its shape. */
  lemma SpecIsSettings(e: Env, v: Value, shape: Shape)
    requires Describes(e, v, shape)
    ensures Validation.EmbedSpecOf(e, v) ==
            match SettingsOf(shape)
            case None => None
            case Some(s) => Some(Validation.EmbedSpec(s.width, s.sources, s.model))
  {
    hide Names, Validation.Strings, Validation.VectorDims;
    OtherTypes(e, v, shape);
    var w := Validation.Unwrap(v);
    if shape.Maybe? && Part(v, "inner").Some? {
      OtherTypes(e, w, shape.inner);
      if shape.inner.VectorOf? {
        VectorSettings(e, w, shape.inner);
        StringsAreNames(shape.inner.sources);
      } else {
        NoVectorNoWidth(e, w);
      }
    } else if shape.VectorOf? {
      VectorSettings(e, v, shape);
      StringsAreNames(shape.sources);
    } else {
      NoVectorNoWidth(e, v);
    }
    NoItemsNoNames();
  }

  lemma NoVectorNoWidth(e: Env, v: Value)
    ensures !Validation.HasType(v, Validation.VECTOR) ==> Validation.VectorDims(e, v).None?
  {}

  lemma NoItemsNoNames()
    ensures Names([]) == []
  {}

  // ---- What a write fills in ----

  /** A whole document needs the vector when it brings none; a patch when it changed a source and left the vector
      alone. */
  predicate Due(settings: Settings, data: Data, patch: Option<Embed.PatchContext>, field: Bytes) {
    match patch
    case None => field !in data || data[field] == Null
    case Some(ctx) =>
      field !in ctx.updates && exists s | s in settings.sources :: Get(data, s) != Get(ctx.previous, s)
  }

  predicate IsDue(shapes: map<Bytes, Shape>, data: Data, patch: Option<Embed.PatchContext>, field: Bytes) {
    field in shapes && SettingsOf(shapes[field]).Some? && Due(SettingsOf(shapes[field]).value, data, patch, field)
  }

  function TextOf(e: Env, settings: Settings, data: Data): Bytes {
    e.clamp(Sentence(Spoken(FieldLeaves(data, settings.sources))))
  }

  /** An answer of the declared width whose components all stay finite in 32 bits. */
  predicate Usable(e: Env, settings: Settings, answer: Option<seq<bits64>>) {
    && answer.Some? && |answer.value| == settings.width
    && forall i | 0 <= i < |answer.value| :: e.narrow(answer.value[i]).Some?
  }

  predicate IsNumbers(v: Value, numbers: seq<bits64>) {
    v.Array? && |v.items| == |numbers| && forall i | 0 <= i < |numbers| :: v.items[i] == Number(numbers[i])
  }

  /** The field holds the answer of the declared model for the text of the sources, and nothing if there is no text. */
  predicate Filled(e: Env, provider: Embed.Provider, settings: Settings, before: Data, after: Data, field: Bytes) {
    var text := TextOf(e, settings, before);
    if text == [] then field !in after
    else
      var answer := provider(settings.model, text);
      Usable(e, settings, answer) && field in after && IsNumbers(after[field], answer.value)
  }

  /** There is text to embed and no usable answer for it. */
  predicate Unanswered(e: Env, provider: Embed.Provider, settings: Settings, data: Data) {
    TextOf(e, settings, data) != [] && !Usable(e, settings, provider(settings.model, TextOf(e, settings, data)))
  }

  lemma WorkIsDue(e: Env, cs: CollectionSchema, shapes: map<Bytes, Shape>, data: Data,
                  patch: Option<Embed.PatchContext>, field: Bytes)
    requires Declares(e, cs, shapes)
    ensures Embed.Work(e, cs, data, patch, field).Some? <==> IsDue(shapes, data, patch, field)
    ensures IsDue(shapes, data, patch, field) ==>
              var s := SettingsOf(shapes[field]).value;
              Embed.Work(e, cs, data, patch, field).value == Embed.Pending(s.model, s.width, TextOf(e, s, data))
  {
    hide SettingsOf, Validation.EmbedSpecOf, Describes, Embed.SourceText, Sentence, Spoken, FieldLeaves;
    if field in shapes {
      SpecIsSettings(e, cs.fields[field], shapes[field]);
      if SettingsOf(shapes[field]).Some? {
        var s := SettingsOf(shapes[field]).value;
        EmbeddedText(e, data, s.sources);
        if patch.Some? { ChangedSource(s.sources, data, patch.value.previous); }
      }
    }
  }

  lemma ChangedSource(from: seq<Bytes>, a: Data, b: Data)
    ensures (exists i | 0 <= i < |from| :: Get(a, from[i]) != Get(b, from[i]))
       <==> exists s | s in from :: Get(a, s) != Get(b, s)
  {
    if i :| 0 <= i < |from| && Get(a, from[i]) != Get(b, from[i]) { assert from[i] in from; }
  }

  lemma AnswerIsUsable(e: Env, settings: Settings, provider: Embed.Provider, text: Bytes)
    ensures var r := Embed.VectorValue(e, Embed.Pending(settings.model, settings.width, text), provider);
            && (r.Some? <==> Usable(e, settings, provider(settings.model, text)))
            && (r.Some? ==> IsNumbers(r.value, provider(settings.model, text).value))
  {}

  /** Exactly what embedding does to a document. */
  lemma FillsWhatIsDue(e: Env, provider: Embed.Provider, cs: CollectionSchema, shapes: map<Bytes, Shape>, data: Data,
                       patch: Option<Embed.PatchContext>)
    requires Declares(e, cs, shapes)
    ensures var out := Embed.ApplyEmbeddings(e, Some(provider), Some(cs), data, patch);
            && (out.Failed? <==>
                  exists f :: (IsDue(shapes, data, patch, f)
                               && Unanswered(e, provider, SettingsOf(shapes[f]).value, data)))
            && (out.Done? ==>
                  && (out.embedded <==> exists f :: IsDue(shapes, data, patch, f))
                  && forall f ::
                       if IsDue(shapes, data, patch, f) then
                         Filled(e, provider, SettingsOf(shapes[f]).value, data, out.data, f)
                       else Get(out.data, f) == Get(data, f))
  {
    hide Declares, Due, TextOf, Embed.Work, Embed.VectorValue, Usable, IsNumbers, SettingsOf, Unanswered, Filled;
    var plan, out := Embed.PlanFor(e, cs, data, patch), Embed.ApplyEmbeddings(e, Some(provider), Some(cs), data, patch);
    forall f
      ensures (f in plan.embed || f in plan.clear) <==> IsDue(shapes, data, patch, f)
    {
      PlannedIsDue(e, cs, shapes, data, patch, f);
    }
    assert plan.IsEmpty() <==> !exists f :: IsDue(shapes, data, patch, f) by {
      if plan.embed != map[] { var f :| f in plan.embed; }
      if plan.clear != {} { var f :| f in plan.clear; }
    }
    forall f | f in plan.embed
      ensures Embed.VectorValue(e, plan.embed[f], provider).None?
         <==> Unanswered(e, provider, SettingsOf(shapes[f]).value, data)
    {
      PlannedAnswer(e, provider, cs, shapes, data, patch, f, data);
    }
    forall f | IsDue(shapes, data, patch, f) && Unanswered(e, provider, SettingsOf(shapes[f]).value, data)
      ensures f in plan.embed
    {
      PlannedAnswer(e, provider, cs, shapes, data, patch, f, data);
    }
    if out.Done? {
      forall f | IsDue(shapes, data, patch, f)
        ensures Filled(e, provider, SettingsOf(shapes[f]).value, data, out.data, f)
      {
        PlannedAnswer(e, provider, cs, shapes, data, patch, f, out.data);
      }
    }
  }

  /** What the plan says of a field that is due. */
  lemma PlannedAnswer(e: Env, provider: Embed.Provider, cs: CollectionSchema, shapes: map<Bytes, Shape>, data: Data,
                      patch: Option<Embed.PatchContext>, f: Bytes, after: Data)
    requires Declares(e, cs, shapes) && IsDue(shapes, data, patch, f)
    ensures var plan, s := Embed.PlanFor(e, cs, data, patch), SettingsOf(shapes[f]).value;
            if f in plan.embed then
              && f !in plan.clear
              && (Embed.VectorValue(e, plan.embed[f], provider).None? <==> Unanswered(e, provider, s, data))
              && (Get(after, f) == Embed.VectorValue(e, plan.embed[f], provider) && f in after ==>
                    Filled(e, provider, s, data, after, f))
            else
              f in plan.clear && !Unanswered(e, provider, s, data)
              && (f !in after ==> Filled(e, provider, s, data, after, f))
  {
    hide Declares, Due, TextOf, Embed.Work, Embed.VectorValue, Usable, IsNumbers, SettingsOf, Embed.PlanFor;
    PlannedIsDue(e, cs, shapes, data, patch, f);
    var s := SettingsOf(shapes[f]).value;
    AnswerIsUsable(e, s, provider, TextOf(e, s, data));
  }

  lemma PlannedIsDue(e: Env, cs: CollectionSchema, shapes: map<Bytes, Shape>, data: Data,
                     patch: Option<Embed.PatchContext>, f: Bytes)
    requires Declares(e, cs, shapes)
    ensures var plan := Embed.PlanFor(e, cs, data, patch);
            && (f in plan.embed || f in plan.clear <==> IsDue(shapes, data, patch, f))
            && (f in plan.clear <==>
                  IsDue(shapes, data, patch, f) && TextOf(e, SettingsOf(shapes[f]).value, data) == [])
            && (f in plan.embed ==> f !in plan.clear)
            && (f in plan.embed ==>
                  var s := SettingsOf(shapes[f]).value;
                  plan.embed[f] == Embed.Pending(s.model, s.width, TextOf(e, s, data)) && TextOf(e, s, data) != [])
  {
    hide TextOf, SettingsOf, Describes, Due, Embed.Work;
    WorkIsDue(e, cs, shapes, data, patch, f);
  }

  /** Nothing is filled in without a provider or a declared collection. */
  lemma NothingToFillWith(e: Env, provider: Option<Embed.Provider>, cs: Option<CollectionSchema>, data: Data,
                          patch: Option<Embed.PatchContext>)
    requires provider.None? || cs.None?
    ensures Embed.ApplyEmbeddings(e, provider, cs, data, patch) == Embed.Done(data, false)
  {}

  /** A field the write itself sets is stored as sent. */
  lemma OwnVectorKept(e: Env, provider: Option<Embed.Provider>, cs: Option<CollectionSchema>, data: Data,
                      patch: Option<Embed.PatchContext>, field: Bytes)
    requires Embed.ApplyEmbeddings(e, provider, cs, data, patch).Done?
    requires if patch.None? then field in data && data[field] != Null else field in patch.value.updates
    ensures Get(Embed.ApplyEmbeddings(e, provider, cs, data, patch).data, field) == Get(data, field)
  {
    hide Embed.ApplyEmbeddings, Declares, SettingsOf;
    if provider.Some? && cs.Some? {
      var shapes := ShapesOf(e, cs.value);
      EverySchemaHasShapes(e, cs.value);
      FillsWhatIsDue(e, provider.value, cs.value, shapes, data, patch);
    } else {
      NothingToFillWith(e, provider, cs, data, patch);
    }
  }

  /** Filling in keeps a valid document valid. */
  lemma FillingConforms(e: Env, provider: Option<Embed.Provider>, cs: Option<CollectionSchema>, data: Data,
                        patch: Option<Embed.PatchContext>)
    requires Conforms(e, cs, data) && Embed.ApplyEmbeddings(e, provider, cs, data, patch).Done?
    ensures Conforms(e, cs, Embed.ApplyEmbeddings(e, provider, cs, data, patch).data)
  {
    hide Embed.ApplyEmbeddings, Declares, Inhabits, Supplied, SettingsOf, Filled, Due;
    if provider.Some? && cs.Some? {
      var shapes :| Declares(e, cs.value, shapes) && Fits(e, shapes, data);
      var out := Embed.ApplyEmbeddings(e, provider, cs, data, patch).data;
      FillsWhatIsDue(e, provider.value, cs.value, shapes, data, patch);
      forall f | f in shapes
        ensures Inhabits(e, shapes[f], Get(out, f)) || (Supplied(shapes[f]) && (f !in out || out[f] == Null))
      {
        if IsDue(shapes, data, patch, f) {
          FilledFits(e, provider.value, shapes[f], data, out, f);
        } else {
          assert Get(out, f) == Get(data, f);
        }
      }
      assert Fits(e, shapes, out);
    } else {
      NothingToFillWith(e, provider, cs, data, patch);
    }
  }

  lemma FilledFits(e: Env, provider: Embed.Provider, shape: Shape, before: Data, after: Data, field: Bytes)
    requires SettingsOf(shape).Some? && Filled(e, provider, SettingsOf(shape).value, before, after, field)
    ensures Inhabits(e, shape, Get(after, field)) || (Supplied(shape) && field !in after)
  {
    hide TextOf, Names;
    NoItemsNoNames();
    if field in after {
      var base := if shape.Maybe? then shape.inner else shape;
      var items := after[field].items;
      assert forall i | 0 <= i < |items| :: IsComponent(e, items[i]);
      assert Inhabits(e, base, Get(after, field));
    }
  }

  /** No field is waiting for a vector, or nobody could supply one. */
  ghost predicate NothingDue(e: Env, provider: Option<Embed.Provider>, cs: Option<CollectionSchema>, data: Data,
                             patch: Option<Embed.PatchContext>) {
    provider.Some? && cs.Some? ==>
      exists shapes :: Declares(e, cs.value, shapes) && forall f :: !IsDue(shapes, data, patch, f)
  }

  lemma NothingDueChangesNothing(e: Env, provider: Option<Embed.Provider>, cs: Option<CollectionSchema>, data: Data,
                                 patch: Option<Embed.PatchContext>)
    requires NothingDue(e, provider, cs, data, patch)
    ensures Embed.ApplyEmbeddings(e, provider, cs, data, patch).Done?
    ensures Embed.ApplyEmbeddings(e, provider, cs, data, patch).data == data
  {
    hide Embed.ApplyEmbeddings, Declares, IsDue, SettingsOf;
    if provider.Some? && cs.Some? {
      var shapes :| Declares(e, cs.value, shapes) && forall f :: !IsDue(shapes, data, patch, f);
      FillsWhatIsDue(e, provider.value, cs.value, shapes, data, patch);
      var out := Embed.ApplyEmbeddings(e, provider, cs, data, patch).data;
      assert forall f :: Get(out, f) == Get(data, f);
      SameFields(out, data);
    } else {
      NothingToFillWith(e, provider, cs, data, patch);
    }
  }

  lemma SameFields(a: Data, b: Data)
    requires forall f :: Get(a, f) == Get(b, f)
    ensures a == b
  {
    forall f ensures f in a <==> f in b { assert Get(a, f) == Get(b, f); }
    assert a.Keys == b.Keys;
    forall f | f in a ensures a[f] == b[f] { assert Get(a, f) == Get(b, f); }
  }
}
