/** JSON values, documents and project schemas. Strings are UTF-8 byte strings. */
module Values {
  import opened ByteStrings

  datatype Option<+T> = None | Some(value: T)

  const TWO63: int := 0x8000_0000_0000_0000
  const TWO64: int := 0x1_0000_0000_0000_0000

  type bits64 = x: int | 0 <= x < 0x1_0000_0000_0000_0000

  type bits32 = x: int | 0 <= x < 0x1_0000_0000

  /** A JSON value. A number is the bit pattern of its 64-bit float. */
  datatype Value =
    | Null
    | Bool(b: bool)
    | Number(bits: bits64)
    | Str(s: Bytes)
    | Array(items: seq<Value>)
    | Object(members: map<Bytes, Value>)

  type Data = map<Bytes, Value>

  function Get(data: Data, field: Bytes): Option<Value> {
    if field in data then Some(data[field]) else None
  }

  datatype Document = Document(id: Bytes, createdAt: nat, updatedAt: nat, data: Data)

  // ---- Schema ----

  datatype IndexDef = IndexDef(name: Bytes, fields: seq<Bytes>)
  datatype SearchIndexDef = SearchIndexDef(name: Bytes, fields: seq<Bytes>)
  datatype Metric = Cosine | Dot
  datatype VectorIndexDef = VectorIndexDef(name: Bytes, field: Bytes, metric: Metric, dims: nat)

  datatype OwnerMatch = Subject | TokenIdentifier | Email
  datatype Rule = Public | Authenticated | Owner(field: Bytes, matchOn: OwnerMatch)
  datatype WriteRule = All(rule: Rule) | PerOp(create: Option<Rule>, update: Option<Rule>, delete: Option<Rule>)
  datatype CollectionRules = CollectionRules(read: Option<Rule>, write: Option<WriteRule>)

  /** `fields` maps a declared field to its validator, which is itself JSON. */
  datatype CollectionSchema = CollectionSchema(
    fields: map<Bytes, Value>,
    indexes: seq<IndexDef>,
    searchIndexes: seq<SearchIndexDef>,
    vectorIndexes: seq<VectorIndexDef>,
    rules: Option<CollectionRules>)

  datatype ProjectSchema = ProjectSchema(collections: map<Bytes, CollectionSchema>)

  function Collection(schema: Option<ProjectSchema>, name: Bytes): Option<CollectionSchema> {
    if schema.Some? && name in schema.value.collections then Some(schema.value.collections[name]) else None
  }

  /** Index names are unique per kind, which `check_schema_names` enforces on every pushed schema. */
  predicate UniqueNames(cs: CollectionSchema) {
    && (forall i, j | 0 <= i < j < |cs.indexes| :: cs.indexes[i].name != cs.indexes[j].name)
    && (forall i, j | 0 <= i < j < |cs.searchIndexes| :: cs.searchIndexes[i].name != cs.searchIndexes[j].name)
    && (forall i, j | 0 <= i < j < |cs.vectorIndexes| :: cs.vectorIndexes[i].name != cs.vectorIndexes[j].name)
  }

  predicate WellNamed(schema: ProjectSchema) {
    forall c | c in schema.collections :: UniqueNames(schema.collections[c])
  }

  // Lookup by name, as `CollectionSchema::index` and its siblings do: the first match wins.

  function FindIndex(defs: seq<IndexDef>, name: Bytes): Option<IndexDef> {
    if defs == [] then None
    else if defs[0].name == name then Some(defs[0]) else FindIndex(defs[1..], name)
  }

  function FindSearch(defs: seq<SearchIndexDef>, name: Bytes): Option<SearchIndexDef> {
    if defs == [] then None
    else if defs[0].name == name then Some(defs[0]) else FindSearch(defs[1..], name)
  }

  function FindVector(defs: seq<VectorIndexDef>, name: Bytes): Option<VectorIndexDef> {
    if defs == [] then None
    else if defs[0].name == name then Some(defs[0]) else FindVector(defs[1..], name)
  }

  /** What the code delegates to libraries and services: canonical JSON text, narrowing a number to a
      finite 32-bit float, reading one as an unsigned integer, tokenising, clamping embedding text, and the hash behind
      the lock shards. */
  datatype Env = Env(
    json: Value -> Bytes,
    narrow: bits64 -> Option<bits32>,
    whole: bits64 -> Option<nat>,
    tokenize: Bytes -> seq<Bytes>,
    clamp: Bytes -> Bytes,
    shard: (Bytes, Bytes, Bytes) -> nat)
}
