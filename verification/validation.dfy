/** Field validators, which are JSON themselves (server/src/validate.rs, and the settings embed.rs reads). */
module Validation {
  import opened ByteStrings
  import opened Values
  import Keys
  import Vectors

  const TYPE: Bytes := [116, 121, 112, 101]
  const OPTIONAL: Bytes := [111, 112, 116, 105, 111, 110, 97, 108]
  const INNER: Bytes := [105, 110, 110, 101, 114]
  const VECTOR: Bytes := [118, 101, 99, 116, 111, 114]
  const DIMS: Bytes := [100, 105, 109, 115]
  const FROM: Bytes := [102, 114, 111, 109]
  const MODEL: Bytes := [109, 111, 100, 101, 108]
  const STRING: Bytes := [115, 116, 114, 105, 110, 103]
  const ID: Bytes := [105, 100]
  const NUMBER: Bytes := [110, 117, 109, 98, 101, 114]
  const BOOLEAN: Bytes := [98, 111, 111, 108, 101, 97, 110]
  const LITERAL: Bytes := [108, 105, 116, 101, 114, 97, 108]
  const VALUE: Bytes := [118, 97, 108, 117, 101]
  const ARRAY: Bytes := [97, 114, 114, 97, 121]
  const ITEMS: Bytes := [105, 116, 101, 109, 115]
  const OBJECT: Bytes := [111, 98, 106, 101, 99, 116]
  const PROPERTIES: Bytes := [112, 114, 111, 112, 101, 114, 116, 105, 101, 115]
  const UNION: Bytes := [117, 110, 105, 111, 110]
  const VARIANTS: Bytes := [118, 97, 114, 105, 97, 110, 116, 115]

  function Member(v: Value, key: Bytes): Option<Value> {
    if v.Object? && key in v.members then Some(v.members[key]) else None
  }

  function AsString(v: Option<Value>): Option<Bytes> {
    if v.Some? && v.value.Str? then Some(v.value.s) else None
  }

  function AsWhole(e: Env, v: Option<Value>): Option<nat> {
    if v.Some? && v.value.Number? then e.whole(v.value.bits) else None
  }

  predicate HasType(validator: Value, name: Bytes) {
    AsString(Member(validator, TYPE)) == Some(name)
  }

  /** The inner validator of an `optional`, or the validator itself. */
  function Unwrap(validator: Value): Value {
    if HasType(validator, OPTIONAL) && Member(validator, INNER).Some? then Member(validator, INNER).value
    else validator
  }

  function VectorDims(e: Env, validator: Value): Option<nat> {
    if HasType(validator, VECTOR) then AsWhole(e, Member(validator, DIMS)) else None
  }

  function Strings(items: seq<Value>): seq<Bytes> {
    if items == [] then []
    else (if items[0].Str? then [items[0].s] else []) + Strings(items[1..])
  }

  datatype EmbedSpec = EmbedSpec(dims: nat, from: seq<Bytes>, model: Bytes)

  /** The embed-on-write settings of a vector validator, if it has any. */
  function EmbedSpecOf(e: Env, validator: Value): Option<EmbedSpec> {
    var v := Unwrap(validator);
    var dims, from, model := VectorDims(e, v), Member(v, FROM), AsString(Member(v, MODEL));
    if dims.None? || from.None? || !from.value.Array? || model.None? then None
    else if Strings(from.value.items) == [] || model.value == [] then None
    else Some(EmbedSpec(dims.value, Strings(from.value.items), model.value))
  }

  /** A vector field with sources: the server supplies it, so it may be absent. */
  predicate IsServerFilled(validator: Value) {
    var v := Unwrap(validator);
    HasType(v, VECTOR) && Member(v, FROM).Some? && Member(v, FROM).value.Array? && Member(v, FROM).value.items != []
  }

  /** Every field the write path may fill is one validation lets be absent and one owner rules refuse. */
  lemma FilledFieldsAreServerFilled(e: Env, validator: Value)
    ensures EmbedSpecOf(e, validator).Some? ==> IsServerFilled(validator) && VectorDims(e, Unwrap(validator)).Some?
  {
  }

  predicate ValidValue(e: Env, validator: Value, value: Option<Value>)
    decreases validator
  {
    match AsString(Member(validator, TYPE))
    case None => false
    case Some(vtype) =>
      if vtype == OPTIONAL then
        value == None || value == Some(Null)
        || (Member(validator, INNER).Some? && ValidValue(e, validator.members[INNER], value))
      else if value.None? then false
      else if vtype == STRING || vtype == ID then value.value.Str?
      else if vtype == NUMBER then value.value.Number?
      else if vtype == BOOLEAN then value.value.Bool?
      else if vtype == LITERAL then Member(validator, VALUE) == value
      else if vtype == VECTOR then
        && AsWhole(e, Member(validator, DIMS)).Some?
        && value.value.Array?
        && |value.value.items| == AsWhole(e, Member(validator, DIMS)).value
        && Vectors.Components(e, value.value.items).Some?
      else if vtype == ARRAY then
        && Member(validator, ITEMS).Some?
        && value.value.Array?
        && forall i | 0 <= i < |value.value.items| ::
             ValidValue(e, validator.members[ITEMS], Some(value.value.items[i]))
      else if vtype == OBJECT then
        && Member(validator, PROPERTIES).Some? && validator.members[PROPERTIES].Object?
        && value.value.Object?
        && forall k | k in validator.members[PROPERTIES].members ::
             ValidValue(e, validator.members[PROPERTIES].members[k], Get(value.value.members, k))
      else if vtype == UNION then
        && Member(validator, VARIANTS).Some? && validator.members[VARIANTS].Array?
        && exists i | 0 <= i < |validator.members[VARIANTS].items| ::
             ValidValue(e, validator.members[VARIANTS].items[i], value)
      else false
  }

  predicate ValidDoc(e: Env, cs: CollectionSchema, data: Data) {
    forall f | f in cs.fields ::
      (IsServerFilled(cs.fields[f]) && (Get(data, f) == None || Get(data, f) == Some(Null)))
      || ValidValue(e, cs.fields[f], Get(data, f))
  }

  predicate SchemaAccepts(e: Env, cs: Option<CollectionSchema>, data: Data) {
    cs.Some? ==> ValidDoc(e, cs.value, data)
  }

  /** What `check_vector_indexes` demands: each vector index names a vector field of its own width. */
  predicate VectorIndexesMatchFields(e: Env, cs: CollectionSchema) {
    forall i | 0 <= i < |cs.vectorIndexes| ::
      && cs.vectorIndexes[i].field in cs.fields
      && VectorDims(e, Unwrap(cs.fields[cs.vectorIndexes[i].field])) == Some(cs.vectorIndexes[i].dims)
  }

  const MAX_DIMS: nat := 4096

  /** Vector widths anywhere in a validator are numbers from 1 to 4096. */
  predicate DimsInRange(e: Env, validator: Value)
    decreases validator
  {
    match AsString(Member(validator, TYPE))
    case None => true
    case Some(vtype) =>
      if vtype == VECTOR then
        VectorDims(e, validator).Some? && 1 <= VectorDims(e, validator).value <= MAX_DIMS
      else if vtype == OPTIONAL then
        Member(validator, INNER).Some? ==> DimsInRange(e, validator.members[INNER])
      else if vtype == ARRAY then
        Member(validator, ITEMS).Some? ==> DimsInRange(e, validator.members[ITEMS])
      else if vtype == OBJECT then
        Member(validator, PROPERTIES).Some? && validator.members[PROPERTIES].Object? ==>
          forall k | k in validator.members[PROPERTIES].members ::
                   DimsInRange(e, validator.members[PROPERTIES].members[k])
      else if vtype == UNION then
        Member(validator, VARIANTS).Some? && validator.members[VARIANTS].Array? ==>
          forall i | 0 <= i < |validator.members[VARIANTS].items| ::
                   DimsInRange(e, validator.members[VARIANTS].items[i])
      else true
  }

  // "_id", "_createdAt", "_updatedAt" and "_score"
  const RESERVED: set<Bytes> := {
    [95, 105, 100],
    [95, 99, 114, 101, 97, 116, 101, 100, 65, 116],
    [95, 117, 112, 100, 97, 116, 101, 100, 65, 116],
    [95, 115, 99, 111, 114, 101]
  }

  /** The name, reserved-field, vector and embed-source checks a pushed schema must pass. */
  predicate PushAccepted(e: Env, schema: ProjectSchema) {
    forall c | c in schema.collections :: CollectionAccepted(e, c, schema.collections[c])
  }

  predicate CollectionAccepted(e: Env, c: Bytes, cs: CollectionSchema) {
    && Keys.ValidName(c) && Keys.ValidIndexNames(cs) && UniqueNames(cs)
    && cs.fields.Keys !! RESERVED
    && (forall f | f in cs.fields :: DimsInRange(e, cs.fields[f]))
    && VectorIndexesMatchFields(e, cs)
    && forall f | f in cs.fields :: SourcesChecked(cs, f)
  }

  /** A document validation accepts is never silently left out of a vector index: if it holds anything but
      null in the field, it holds a vector of the right width. */
  lemma ValidVectorIsIndexed(e: Env, cs: CollectionSchema, data: Data, i: nat)
    requires ValidDoc(e, cs, data) && VectorIndexesMatchFields(e, cs) && i < |cs.vectorIndexes|
    ensures var v := cs.vectorIndexes[i];
            Vectors.DocVector(e, data, v.field, v.dims).None? <==> Get(data, v.field) in {None, Some(Null)}
  {
    var v := cs.vectorIndexes[i];
    var validator, value := cs.fields[v.field], Get(data, v.field);
    if value != None && value != Some(Null) {
      assert ValidValue(e, validator, value);
      assert ValidValue(e, Unwrap(validator), value);
    }
  }

  // ---- Sources of an embedding ----

  /** Strings, arrays of strings, and unions of those: what an embedding can be built from. */
  predicate IsTextLike(validator: Value)
    decreases validator, 1
  {
    if HasType(validator, OPTIONAL) && Member(validator, INNER).Some? then IsTextBase(validator.members[INNER])
    else IsTextBase(validator)
  }

  predicate IsTextBase(v: Value)
    decreases v, 0
  {
    || HasType(v, STRING) || HasType(v, ID)
    || (HasType(v, LITERAL) && Member(v, VALUE).Some? && v.members[VALUE].Str?)
    || (HasType(v, ARRAY) && Member(v, ITEMS).Some? && IsTextLike(v.members[ITEMS]))
    || (&& HasType(v, UNION) && Member(v, VARIANTS).Some? && v.members[VARIANTS].Array?
        && v.members[VARIANTS].items != []
        && forall i | 0 <= i < |v.members[VARIANTS].items| :: IsTextLike(v.members[VARIANTS].items[i]))
  }

  /** What the push demands of a field that names sources. */
  predicate SourcesChecked(cs: CollectionSchema, field: Bytes)
    requires field in cs.fields
  {
    var v := Unwrap(cs.fields[field]);
    Member(v, FROM).Some? ==>
      && HasType(v, VECTOR) && Member(v, FROM).value.Array? && Member(v, FROM).value.items != []
      && AsString(Member(v, MODEL)).Some?
      && forall i | 0 <= i < |Member(v, FROM).value.items| ::
           var source := Member(v, FROM).value.items[i];
           source.Str? && source.s != field && source.s in cs.fields && IsTextLike(cs.fields[source.s])
  }

  /** Text is never a vector, so a text-like field carries no embed settings itself. */
  lemma TextIsNotFilled(e: Env, validator: Value)
    requires IsTextLike(validator)
    ensures EmbedSpecOf(e, validator).None?
  {
    var v := Unwrap(validator);
    assert IsTextBase(v);
    assert STRING[0] != VECTOR[0] && LITERAL[0] != VECTOR[0] && ID[0] != VECTOR[0] && ARRAY[0] != VECTOR[0]
           && UNION[0] != VECTOR[0];
    assert !HasType(v, VECTOR);
  }

  lemma {:induction false} StringsAreItems(items: seq<Value>, s: Bytes)
    requires s in Strings(items)
    ensures exists i :: 0 <= i < |items| && items[i] == Str(s)
  {
    if items[0] == Str(s) {
    } else {
      StringsAreItems(items[1..], s);
      var i :| 0 <= i < |items| - 1 && items[1..][i] == Str(s);
      assert items[i + 1] == Str(s);
    }
  }
}
