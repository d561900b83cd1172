/** What a field validator admits, told without its JSON: the shapes of values a schema can ask for, how each shape is
    written as a validator, and which values have it. */
module Shapes {
  import opened ByteStrings
  import opened Values
  import Keys
  import Validation
  import Vectors

  /** `Nothing` is what a malformed validator asks for: no value has it. A vector's `sources` are the items it lists
      to be embedded from. */
  datatype Shape =
    | Nothing
    | Text
    | Identifier
    | Numeric
    | Truth
    | Exactly(value: Value)
    | VectorOf(width: Option<nat>, sources: seq<Value>, model: Option<Bytes>)
    | ListOf(item: Shape)
    | Record(fields: map<Bytes, Shape>)
    | OneOf(variants: seq<Shape>)
    | Maybe(inner: Shape)

  // ---- Which values have a shape ----

  predicate Inhabits(e: Env, shape: Shape, value: Option<Value>)
    decreases shape
  {
    match shape
    case Nothing => false
    case Maybe(inner) => value == None || value == Some(Null) || Inhabits(e, inner, value)
    case Text => value.Some? && value.value.Str?
    case Identifier => value.Some? && value.value.Str?
    case Numeric => value.Some? && value.value.Number?
    case Truth => value.Some? && value.value.Bool?
    case Exactly(wanted) => value == Some(wanted)
    case VectorOf(width, _, _) =>
      && value.Some? && value.value.Array? && width == Some(|value.value.items|)
      && forall i | 0 <= i < |value.value.items| :: IsComponent(e, value.value.items[i])
    case ListOf(item) =>
      && value.Some? && value.value.Array?
      && forall i | 0 <= i < |value.value.items| :: Inhabits(e, item, Some(value.value.items[i]))
    case Record(fields) =>
      && value.Some? && value.value.Object?
      && forall k | k in fields :: Inhabits(e, fields[k], Get(value.value.members, k))
    case OneOf(variants) =>
      value.Some? && exists i :: 0 <= i < |variants| && Inhabits(e, variants[i], value)
  }

  /** A number that stays finite as a 32-bit float. */
  predicate IsComponent(e: Env, item: Value) { item.Number? && e.narrow(item.bits).Some? }

  /** The server may supply the value: a vector with sources, or such a vector under one `optional`. */
  predicate Supplied(shape: Shape) {
    || (shape.VectorOf? && shape.sources != [])
    || (shape.Maybe? && shape.inner.VectorOf? && shape.inner.sources != [])
  }

  // ---- How a shape is written ----

  function Part(v: Value, name: string): Option<Value> {
    if v.Object? && Spell(name) in v.members then Some(v.members[Spell(name)]) else None
  }

  predicate TypeIs(v: Value, name: string) { Part(v, "type") == Some(Str(Spell(name))) }

  predicate HasKnownType(v: Value) {
    || TypeIs(v, "string") || TypeIs(v, "id") || TypeIs(v, "number") || TypeIs(v, "boolean") || TypeIs(v, "literal")
    || TypeIs(v, "vector") || TypeIs(v, "array") || TypeIs(v, "object") || TypeIs(v, "union") || TypeIs(v, "optional")
  }

  /** No type, an unknown one, or a part the type cannot do without is missing. */
  predicate IsMalformed(v: Value) {
    || !HasKnownType(v)
    || (TypeIs(v, "literal") && Part(v, "value").None?)
    || (TypeIs(v, "array") && Part(v, "items").None?)
    || (TypeIs(v, "object") && (Part(v, "properties").None? || !Part(v, "properties").value.Object?))
    || (TypeIs(v, "union") && (Part(v, "variants").None? || !Part(v, "variants").value.Array?))
  }

  /** `v` is a validator for this shape. Members it does not need are allowed. */
  predicate Describes(e: Env, v: Value, shape: Shape)
    decreases shape
  {
    match shape
    case Nothing => IsMalformed(v)
    case Text => TypeIs(v, "string")
    case Identifier => TypeIs(v, "id")
    case Numeric => TypeIs(v, "number")
    case Truth => TypeIs(v, "boolean")
    case Exactly(wanted) => TypeIs(v, "literal") && Part(v, "value") == Some(wanted)
    case VectorOf(width, sources, model) =>
      && TypeIs(v, "vector")
      && width == (match Part(v, "dims") case Some(Number(bits)) => e.whole(bits) case _ => None)
      && sources == (match Part(v, "from") case Some(Array(items)) => items case _ => [])
      && model == (match Part(v, "model") case Some(Str(s)) => Some(s) case _ => None)
    case ListOf(item) => TypeIs(v, "array") && Part(v, "items").Some? && Describes(e, Part(v, "items").value, item)
    case Record(fields) =>
      && TypeIs(v, "object") && Part(v, "properties").Some? && Part(v, "properties").value.Object?
      && var members := Part(v, "properties").value.members;
         members.Keys == fields.Keys && forall k | k in fields :: Describes(e, members[k], fields[k])
    case OneOf(variants) =>
      && TypeIs(v, "union") && Part(v, "variants").Some? && Part(v, "variants").value.Array?
      && var items := Part(v, "variants").value.items;
         |items| == |variants| && forall i | 0 <= i < |variants| :: Describes(e, items[i], variants[i])
    case Maybe(inner) =>
      && TypeIs(v, "optional")
      && if Part(v, "inner").Some? then Describes(e, Part(v, "inner").value, inner) else inner == Nothing
  }

  // ---- Validation admits exactly the inhabitants ----

  lemma TypeNames()
    ensures Spell("type") == Validation.TYPE && Spell("optional") == Validation.OPTIONAL
    ensures Spell("vector") == Validation.VECTOR && Spell("string") == Validation.STRING
    ensures Spell("id") == Validation.ID && Spell("number") == Validation.NUMBER
    ensures Spell("boolean") == Validation.BOOLEAN && Spell("literal") == Validation.LITERAL
    ensures Spell("array") == Validation.ARRAY && Spell("object") == Validation.OBJECT
    ensures Spell("union") == Validation.UNION
  {}

  lemma PartNames()
    ensures Spell("inner") == Validation.INNER && Spell("dims") == Validation.DIMS && Spell("from") == Validation.FROM
    ensures Spell("model") == Validation.MODEL && Spell("value") == Validation.VALUE
    ensures Spell("items") == Validation.ITEMS
    ensures Spell("properties") == Validation.PROPERTIES && Spell("variants") == Validation.VARIANTS
  {}

  /** The type names differ: in their first letters, or in length. */
  lemma NamesDiffer()
    ensures Validation.OPTIONAL[0] == Validation.OBJECT[0] == 111 && |Validation.OPTIONAL| > |Validation.OBJECT|
    ensures Validation.STRING[0] == 115 && Validation.ID[0] == 105 && Validation.NUMBER[0] == 110
    ensures Validation.BOOLEAN[0] == 98 && Validation.LITERAL[0] == 108 && Validation.VECTOR[0] == 118
    ensures Validation.ARRAY[0] == 97 && Validation.UNION[0] == 117
  {}

  /** Every validator is a validator for some shape. */
  function ShapeOf(e: Env, v: Value): (shape: Shape)
    decreases v
  {
    if IsMalformed(v) then Nothing
    else if TypeIs(v, "string") then Text
    else if TypeIs(v, "id") then Identifier
    else if TypeIs(v, "number") then Numeric
    else if TypeIs(v, "boolean") then Truth
    else if TypeIs(v, "literal") then Exactly(Part(v, "value").value)
    else if TypeIs(v, "vector") then
      VectorOf(match Part(v, "dims") case Some(Number(bits)) => e.whole(bits) case _ => None,
               match Part(v, "from") case Some(Array(items)) => items case _ => [],
               match Part(v, "model") case Some(Str(s)) => Some(s) case _ => None)
    else if TypeIs(v, "array") then ListOf(ShapeOf(e, v.members[Spell("items")]))
    else if TypeIs(v, "object") then
      var members := v.members[Spell("properties")].members;
      Record(map k | k in members :: ShapeOf(e, members[k]))
    else if TypeIs(v, "union") then
      var items := v.members[Spell("variants")].items;
      OneOf(seq(|items|, i requires 0 <= i < |items| => ShapeOf(e, items[i])))
    else Maybe(if Part(v, "inner").Some? then ShapeOf(e, v.members[Spell("inner")]) else Nothing)
  }

  lemma {:induction false} EveryValidatorHasAShape(e: Env, v: Value)
    ensures Describes(e, v, ShapeOf(e, v))
    decreases v
  {
    hide Spell;
    if !IsMalformed(v) {
      if TypeIs(v, "array") {
        EveryValidatorHasAShape(e, v.members[Spell("items")]);
      } else if TypeIs(v, "object") {
        var members := v.members[Spell("properties")].members;
        forall k | k in members ensures Describes(e, members[k], ShapeOf(e, members[k])) {
          EveryValidatorHasAShape(e, members[k]);
        }
      } else if TypeIs(v, "union") {
        var items := v.members[Spell("variants")].items;
        forall i | 0 <= i < |items| ensures Describes(e, items[i], ShapeOf(e, items[i])) {
          EveryValidatorHasAShape(e, items[i]);
        }
      } else if TypeIs(v, "optional") && Part(v, "inner").Some? {
        EveryValidatorHasAShape(e, v.members[Spell("inner")]);
      }
    }
  }

  lemma MalformedRefuses(e: Env, v: Value, value: Option<Value>)
    requires IsMalformed(v)
    ensures !Validation.ValidValue(e, v, value)
  {
    hide Spell;
    TypeNames();
    PartNames();
    NamesDiffer();
  }

  lemma ScalarAdmits(e: Env, v: Value, shape: Shape, value: Option<Value>)
    requires Describes(e, v, shape)
    requires shape.Text? || shape.Identifier? || shape.Numeric? || shape.Truth? || shape.Exactly?
    ensures Validation.ValidValue(e, v, value) <==> Inhabits(e, shape, value)
  {
    hide Spell;
    TypeNames();
    PartNames();
    NamesDiffer();
  }

  lemma {:induction false} ComponentsMean(e: Env, items: seq<Value>)
    ensures Vectors.Components(e, items).Some? <==> forall i | 0 <= i < |items| :: IsComponent(e, items[i])
  {
    if items != [] {
      ComponentsMean(e, items[1..]);
      assert items == [items[0]] + items[1..];
    }
  }

  lemma VectorAdmits(e: Env, v: Value, shape: Shape, value: Option<Value>)
    requires Describes(e, v, shape) && shape.VectorOf?
    ensures Validation.ValidValue(e, v, value) <==> Inhabits(e, shape, value)
  {
    hide Spell, IsComponent, Vectors.Components;
    TypeNames();
    PartNames();
    NamesDiffer();
    if value.Some? && value.value.Array? { ComponentsMean(e, value.value.items); }
  }

  /** A value is valid for a field exactly when it has the shape the field's validator writes down. */
  lemma {:induction false} ValidIsInhabits(e: Env, v: Value, shape: Shape, value: Option<Value>)
    requires Describes(e, v, shape)
    ensures Validation.ValidValue(e, v, value) <==> Inhabits(e, shape, value)
    decreases shape
  {
    match shape
    case Nothing => MalformedRefuses(e, v, value);
    case Text => ScalarAdmits(e, v, shape, value);
    case Identifier => ScalarAdmits(e, v, shape, value);
    case Numeric => ScalarAdmits(e, v, shape, value);
    case Truth => ScalarAdmits(e, v, shape, value);
    case Exactly(_) => ScalarAdmits(e, v, shape, value);
    case VectorOf(_, _, _) => VectorAdmits(e, v, shape, value);
    case ListOf(item) =>
      ListAdmits(e, v, value);
      var inner := Part(v, "items").value;
      if value.Some? && value.value.Array? {
        forall i | 0 <= i < |value.value.items|
          ensures Validation.ValidValue(e, inner, Some(value.value.items[i]))
             <==> Inhabits(e, item, Some(value.value.items[i]))
        {
          ValidIsInhabits(e, inner, item, Some(value.value.items[i]));
        }
      }
    case Record(fields) =>
      RecordAdmits(e, v, value);
      var members := Part(v, "properties").value.members;
      if value.Some? && value.value.Object? {
        forall k | k in fields
          ensures Validation.ValidValue(e, members[k], Get(value.value.members, k))
             <==> Inhabits(e, fields[k], Get(value.value.members, k))
        {
          ValidIsInhabits(e, members[k], fields[k], Get(value.value.members, k));
        }
      }
    case OneOf(variants) =>
      UnionAdmits(e, v, value);
      var items := Part(v, "variants").value.items;
      forall i | 0 <= i < |variants|
        ensures Validation.ValidValue(e, items[i], value) <==> Inhabits(e, variants[i], value)
      {
        ValidIsInhabits(e, items[i], variants[i], value);
      }
    case Maybe(inner) =>
      OptionalAdmits(e, v, value);
      if Part(v, "inner").Some? { ValidIsInhabits(e, Part(v, "inner").value, inner, value); }
  }

  lemma ListAdmits(e: Env, v: Value, value: Option<Value>)
    requires TypeIs(v, "array") && Part(v, "items").Some?
    ensures Validation.ValidValue(e, v, value) <==>
              && value.Some? && value.value.Array?
              && forall i | 0 <= i < |value.value.items| ::
                   Validation.ValidValue(e, Part(v, "items").value, Some(value.value.items[i]))
  {
    hide Spell;
    TypeNames();
    PartNames();
    NamesDiffer();
  }

  lemma RecordAdmits(e: Env, v: Value, value: Option<Value>)
    requires TypeIs(v, "object") && Part(v, "properties").Some? && Part(v, "properties").value.Object?
    ensures Validation.ValidValue(e, v, value) <==>
              && value.Some? && value.value.Object?
              && forall k | k in Part(v, "properties").value.members ::
                   Validation.ValidValue(e, Part(v, "properties").value.members[k], Get(value.value.members, k))
  {
    hide Spell;
    TypeNames();
    PartNames();
    NamesDiffer();
  }

  lemma UnionAdmits(e: Env, v: Value, value: Option<Value>)
    requires TypeIs(v, "union") && Part(v, "variants").Some? && Part(v, "variants").value.Array?
    ensures Validation.ValidValue(e, v, value) <==>
              && value.Some?
              && exists i :: (0 <= i < |Part(v, "variants").value.items|
                              && Validation.ValidValue(e, Part(v, "variants").value.items[i], value))
  {
    hide Spell;
    TypeNames();
    PartNames();
    NamesDiffer();
  }

  lemma OptionalAdmits(e: Env, v: Value, value: Option<Value>)
    requires TypeIs(v, "optional")
    ensures Validation.ValidValue(e, v, value) <==>
              || value == None || value == Some(Null)
              || (Part(v, "inner").Some? && Validation.ValidValue(e, Part(v, "inner").value, value))
  {
    hide Spell;
    TypeNames();
    PartNames();
    NamesDiffer();
  }

  // ---- Documents ----

  /** One shape for each declared field. */
  ghost predicate Declares(e: Env, cs: CollectionSchema, shapes: map<Bytes, Shape>) {
    shapes.Keys == cs.fields.Keys && forall f | f in shapes :: Describes(e, cs.fields[f], shapes[f])
  }

  /** Every declared field has its shape; one the server supplies may be left out or null. */
  predicate Fits(e: Env, shapes: map<Bytes, Shape>, data: Data) {
    forall f | f in shapes ::
      Inhabits(e, shapes[f], Get(data, f)) || (Supplied(shapes[f]) && (f !in data || data[f] == Null))
  }

  /** A document has the shapes its collection's schema writes down; an undeclared collection asks for nothing. */
  ghost predicate Conforms(e: Env, cs: Option<CollectionSchema>, data: Data) {
    cs.Some? ==> exists shapes :: Declares(e, cs.value, shapes) && Fits(e, shapes, data)
  }

  function ShapesOf(e: Env, cs: CollectionSchema): (shapes: map<Bytes, Shape>) {
    map f | f in cs.fields :: ShapeOf(e, cs.fields[f])
  }

  lemma EverySchemaHasShapes(e: Env, cs: CollectionSchema)
    ensures Declares(e, cs, ShapesOf(e, cs))
  {
    hide Describes, ShapeOf;
    forall f | f in cs.fields ensures Describes(e, cs.fields[f], ShapeOf(e, cs.fields[f])) {
      EveryValidatorHasAShape(e, cs.fields[f]);
    }
  }

  lemma SuppliedIsServerFilled(e: Env, v: Value, shape: Shape)
    requires Describes(e, v, shape)
    ensures Validation.IsServerFilled(v) <==> Supplied(shape)
  {
    hide Spell;
    TypeNames();
    PartNames();
    NamesDiffer();
    var inner := Validation.Unwrap(v);
    if shape.Maybe? && Part(v, "inner").Some? {
      assert inner == Part(v, "inner").value;
      assert Describes(e, inner, shape.inner);
      if TypeIs(inner, "vector") { VectorShape(e, inner, shape.inner); }
    } else {
      assert inner == v;
      if TypeIs(v, "vector") { VectorShape(e, v, shape); }
    }
  }

  /** A vector validator has a vector shape and no other. */
  lemma VectorShape(e: Env, v: Value, shape: Shape)
    requires Describes(e, v, shape) && TypeIs(v, "vector")
    ensures shape.VectorOf?
  {
    hide Spell;
    TypeNames();
    NamesDiffer();
  }

  /** Validation accepts a document exactly when every declared field has its shape, whichever shapes the schema is read
      as declaring. */
  lemma ValidIsFits(e: Env, cs: CollectionSchema, shapes: map<Bytes, Shape>, data: Data)
    requires Declares(e, cs, shapes)
    ensures Validation.ValidDoc(e, cs, data) <==> Fits(e, shapes, data)
  {
    hide Inhabits, Validation.ValidValue, Describes, Supplied, Validation.IsServerFilled;
    forall f | f in cs.fields
      ensures Validation.ValidValue(e, cs.fields[f], Get(data, f)) <==> Inhabits(e, shapes[f], Get(data, f))
      ensures Validation.IsServerFilled(cs.fields[f]) <==> Supplied(shapes[f])
    {
      ValidIsInhabits(e, cs.fields[f], shapes[f], Get(data, f));
      SuppliedIsServerFilled(e, cs.fields[f], shapes[f]);
    }
  }

  lemma AcceptsIsConforms(e: Env, cs: Option<CollectionSchema>, data: Data)
    ensures Validation.SchemaAccepts(e, cs, data) <==> Conforms(e, cs, data)
    ensures forall shapes | cs.Some? && Declares(e, cs.value, shapes) ::
              Conforms(e, cs, data) <==> Fits(e, shapes, data)
  {
    hide Validation.ValidDoc, Declares, Fits;
    if cs.Some? {
      EverySchemaHasShapes(e, cs.value);
      forall shapes | Declares(e, cs.value, shapes)
        ensures Validation.ValidDoc(e, cs.value, data) <==> Fits(e, shapes, data)
      {
        ValidIsFits(e, cs.value, shapes, data);
      }
    }
  }

  // ---- What a push checks of a validator ----

  /** Every vector in it has a width from 1 to 4096. */
  predicate WidthsBounded(shape: Shape)
    decreases shape
  {
    match shape
    case VectorOf(width, _, _) => width.Some? && 1 <= width.value <= 4096
    case Maybe(inner) => WidthsBounded(inner)
    case ListOf(item) => WidthsBounded(item)
    case Record(fields) => forall k | k in fields :: WidthsBounded(fields[k])
    case OneOf(variants) => forall i | 0 <= i < |variants| :: WidthsBounded(variants[i])
    case _ => true
  }

  /** Its values are text: strings, ids, string literals, lists of such and non-empty unions of such, each under one
      `optional` or not. */
  predicate IsText(shape: Shape)
    decreases shape, 1
  {
    IsPlainText(if shape.Maybe? then shape.inner else shape)
  }

  predicate IsPlainText(shape: Shape)
    decreases shape, 0
  {
    match shape
    case Text => true
    case Identifier => true
    case Exactly(value) => value.Str?
    case ListOf(item) => IsText(item)
    case OneOf(variants) => variants != [] && forall i | 0 <= i < |variants| :: IsText(variants[i])
    case _ => false
  }

  lemma WidthAt(e: Env, v: Value, shape: Shape)
    requires Describes(e, v, shape) && !shape.ListOf? && !shape.Record? && !shape.OneOf? && !shape.Maybe?
    ensures Validation.DimsInRange(e, v) <==> WidthsBounded(shape)
  {
    hide Spell;
    TypeNames();
    PartNames();
    NamesDiffer();
  }

  lemma WidthInside(e: Env, v: Value, shape: Shape)
    requires Describes(e, v, shape) && (shape.ListOf? || shape.Record? || shape.OneOf? || shape.Maybe?)
    ensures Validation.DimsInRange(e, v) <==>
            match shape
            case ListOf(item) => Validation.DimsInRange(e, Part(v, "items").value)
            case Record(fields) =>
              forall k | k in fields :: Validation.DimsInRange(e, Part(v, "properties").value.members[k])
            case OneOf(variants) =>
              forall i | 0 <= i < |variants| :: Validation.DimsInRange(e, Part(v, "variants").value.items[i])
            case _ => Part(v, "inner").Some? ==> Validation.DimsInRange(e, Part(v, "inner").value)
  {
    hide Spell;
    TypeNames();
    PartNames();
    NamesDiffer();
  }

  lemma {:induction false} DimsAreBounded(e: Env, v: Value, shape: Shape)
    requires Describes(e, v, shape)
    ensures Validation.DimsInRange(e, v) <==> WidthsBounded(shape)
    decreases shape
  {
    match shape
    case ListOf(item) =>
      WidthInside(e, v, shape);
      DimsAreBounded(e, Part(v, "items").value, item);
    case Record(fields) =>
      WidthInside(e, v, shape);
      var members := Part(v, "properties").value.members;
      forall k | k in fields ensures Validation.DimsInRange(e, members[k]) <==> WidthsBounded(fields[k]) {
        DimsAreBounded(e, members[k], fields[k]);
      }
    case OneOf(variants) =>
      WidthInside(e, v, shape);
      var items := Part(v, "variants").value.items;
      forall i | 0 <= i < |variants| ensures Validation.DimsInRange(e, items[i]) <==> WidthsBounded(variants[i]) {
        DimsAreBounded(e, items[i], variants[i]);
      }
    case Maybe(inner) =>
      WidthInside(e, v, shape);
      if Part(v, "inner").Some? { DimsAreBounded(e, Part(v, "inner").value, inner); }
    case _ => WidthAt(e, v, shape);
  }

  lemma {:induction false} TextLikeIsText(e: Env, v: Value, shape: Shape)
    requires Describes(e, v, shape)
    ensures Validation.IsTextLike(v) <==> IsText(shape)
    decreases shape, 1
  {
    hide Spell;
    TypeNames();
    PartNames();
    NamesDiffer();
    if shape.Maybe? {
      if Part(v, "inner").Some? { TextBaseIsText(e, Part(v, "inner").value, shape.inner); }
    } else {
      TextBaseIsText(e, v, shape);
    }
  }

  lemma {:induction false} TextBaseIsText(e: Env, v: Value, shape: Shape)
    requires Describes(e, v, shape)
    ensures Validation.IsTextBase(v) <==> IsPlainText(shape)
    decreases shape, 0
  {
    match shape
    case ListOf(item) =>
      TextBaseAt(e, v, shape);
      TextLikeIsText(e, Part(v, "items").value, item);
    case OneOf(variants) =>
      TextBaseAt(e, v, shape);
      var items := Part(v, "variants").value.items;
      forall i | 0 <= i < |variants| ensures Validation.IsTextLike(items[i]) <==> IsText(variants[i]) {
        TextLikeIsText(e, items[i], variants[i]);
      }
    case _ => TextBaseAt(e, v, shape);
  }

  lemma TextBaseAt(e: Env, v: Value, shape: Shape)
    requires Describes(e, v, shape)
    ensures Validation.IsTextBase(v) <==>
            match shape
            case ListOf(_) => Validation.IsTextLike(Part(v, "items").value)
            case OneOf(variants) =>
              variants != [] && forall i | 0 <= i < |variants| ::
                Validation.IsTextLike(Part(v, "variants").value.items[i])
            case _ => IsPlainText(shape)
  {
    hide Spell;
    TypeNames();
    PartNames();
    NamesDiffer();
  }

  /** The validator under an `optional`, or the validator itself. */
  function Base(v: Value): Value {
    if TypeIs(v, "optional") && Part(v, "inner").Some? then Part(v, "inner").value else v
  }

  /** A field that lists sources is a vector with a model, and each source is another declared field that holds text. */
  predicate SourcesFit(cs: CollectionSchema, shapes: map<Bytes, Shape>, field: Bytes)
    requires field in cs.fields
  {
    var v := Base(cs.fields[field]);
    Part(v, "from").Some? ==>
      && TypeIs(v, "vector") && Part(v, "model").Some? && Part(v, "model").value.Str?
      && Part(v, "from").value.Array? && |Part(v, "from").value.items| > 0
      && forall i | 0 <= i < |Part(v, "from").value.items| ::
           && Part(v, "from").value.items[i].Str?
           && var source := Part(v, "from").value.items[i].s;
              source != field && source in shapes && IsText(shapes[source])
  }

  /** A vector index names a vector field of its own width, under an `optional` or not. */
  predicate HasWidth(shape: Shape, dims: nat) {
    var base := if shape.Maybe? then shape.inner else shape;
    base.VectorOf? && base.width == Some(dims)
  }

  lemma BaseIsUnwrapped(v: Value)
    ensures Base(v) == Validation.Unwrap(v)
    ensures Part(Base(v), "from") == Validation.Member(Base(v), Validation.FROM)
    ensures Part(Base(v), "model") == Validation.Member(Base(v), Validation.MODEL)
    ensures TypeIs(Base(v), "vector") <==> Validation.HasType(Base(v), Validation.VECTOR)
  {
    hide Spell;
    TypeNames();
    PartNames();
  }

  lemma SourcesCheckedIsFit(e: Env, cs: CollectionSchema, shapes: map<Bytes, Shape>, field: Bytes)
    requires Declares(e, cs, shapes) && field in cs.fields
    ensures Validation.SourcesChecked(cs, field) <==> SourcesFit(cs, shapes, field)
  {
    hide Base, Validation.Unwrap, Describes, IsText, Validation.IsTextLike, Part, TypeIs, Validation.HasType;
    BaseIsUnwrapped(cs.fields[field]);
    forall s | s in shapes ensures Validation.IsTextLike(cs.fields[s]) <==> IsText(shapes[s]) {
      TextLikeIsText(e, cs.fields[s], shapes[s]);
    }
  }

  lemma WidthIsDims(e: Env, v: Value, shape: Shape, dims: nat)
    requires Describes(e, v, shape)
    ensures Validation.VectorDims(e, Validation.Unwrap(v)) == Some(dims) <==> HasWidth(shape, dims)
  {
    hide Spell;
    TypeNames();
    PartNames();
    NamesDiffer();
    var base := Validation.Unwrap(v);
    if shape.Maybe? && Part(v, "inner").Some? {
      assert base == Part(v, "inner").value;
      if TypeIs(base, "vector") { VectorShape(e, base, shape.inner); }
    } else {
      assert base == v;
      if TypeIs(v, "vector") { VectorShape(e, v, shape); }
    }
  }

  /** What a push demands of a collection, told from the shapes it declares. */
  predicate SchemaFits(e: Env, c: Bytes, cs: CollectionSchema, shapes: map<Bytes, Shape>)
    requires shapes.Keys == cs.fields.Keys
  {
    && Keys.ValidName(c) && Keys.ValidIndexNames(cs) && UniqueNames(cs)
    && Spell("_id") !in shapes && Spell("_createdAt") !in shapes && Spell("_updatedAt") !in shapes
    && Spell("_score") !in shapes
    && (forall f | f in shapes :: WidthsBounded(shapes[f]) && SourcesFit(cs, shapes, f))
    && forall i | 0 <= i < |cs.vectorIndexes| ::
         cs.vectorIndexes[i].field in shapes && HasWidth(shapes[cs.vectorIndexes[i].field], cs.vectorIndexes[i].dims)
  }

  lemma ReservedNames()
    ensures Validation.RESERVED == {Spell("_id"), Spell("_createdAt"), Spell("_updatedAt"), Spell("_score")}
  {
    assert Spell("_id") == [95, 105, 100] && Spell("_score") == [95, 115, 99, 111, 114, 101];
    assert Spell("_createdAt") == [95, 99, 114, 101, 97, 116, 101, 100, 65, 116];
    assert Spell("_updatedAt") == [95, 117, 112, 100, 97, 116, 101, 100, 65, 116];
  }

  lemma AcceptedIsFits(e: Env, c: Bytes, cs: CollectionSchema, shapes: map<Bytes, Shape>)
    requires Declares(e, cs, shapes)
    ensures Validation.CollectionAccepted(e, c, cs) <==> SchemaFits(e, c, cs, shapes)
  {
    hide Spell, Keys.ValidName, Keys.ValidIndexNames, UniqueNames, Validation.DimsInRange, WidthsBounded, Describes;
    hide Validation.SourcesChecked, SourcesFit, Validation.VectorDims, HasWidth, Validation.Unwrap;
    ReservedNames();
    forall f | f in shapes
      ensures Validation.DimsInRange(e, cs.fields[f]) <==> WidthsBounded(shapes[f])
      ensures Validation.SourcesChecked(cs, f) <==> SourcesFit(cs, shapes, f)
      ensures forall dims: nat ::
                Validation.VectorDims(e, Validation.Unwrap(cs.fields[f])) == Some(dims) <==> HasWidth(shapes[f], dims)
    {
      DimsAreBounded(e, cs.fields[f], shapes[f]);
      SourcesCheckedIsFit(e, cs, shapes, f);
      forall dims: nat
        ensures Validation.VectorDims(e, Validation.Unwrap(cs.fields[f])) == Some(dims) <==> HasWidth(shapes[f], dims)
      {
        WidthIsDims(e, cs.fields[f], shapes[f], dims);
      }
    }
  }
}
