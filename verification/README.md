# Brickbed's write path, indexes and caches, verified

This project models the database core of Brickbed in Dafny and proves what the rest of the server relies on. Brickbed keeps
documents, equality-index entries, full-text postings, corpus statistics, vector entries and the schema in one ordered
byte-keyed map. A write embeds outside any lock, reads under locks, decides, builds one atomic batch, makes it visible, drops
its locks, flushes, and only then drops cached vectors; a schema push excludes writers and rebuilds every index in one batch.

The layers, bottom up:

- `bytes`, `values`, `encoding`, `keys`: byte strings and prefix scans, JSON values, the escaped order-preserving entry
  encoding, and the six kinds of key with their byte layout.
- `fts`, `vectors`, `validation`, `embed`, `rules`: document terms and BM25, vectors and bounded top-k, field validators,
  embed-on-write plans, access rules.
- `shapes`, `filling`: an independent account of validators and of embedding. What a validator admits, told as shapes of values
  rather than JSON, and which fields the server fills in, from which text and with which answer; validation and embedding are
  proved to be just that.
- `stores`, `agreement`: the store as a map, batches, what every index must hold for the documents present, and that writes
  and pushes keep or re-establish it. `batches` and `rebuild` are the loops that build those batches, proved to have that
  effect, and `db` is the `Db` object with its mutable store, vector cache and generation.
- `machine`: the whole database as a step machine. Each in-flight insert, replace, patch, delete, schema push and vector read
  has its own program counter, holds its own lock guards, and interleaves with the others one shared read or write at a time;
  storage calls and providers may fail at any step and the process may crash at any step and recover any durable prefix.
- `safety`, `steps`: the machine's invariant and that every step keeps it. `intent`: that writes store what was asked.
  `consistency`, `coherence`, `progress`, `lives`, `ownership`, `conformance`, `text_vector`, `restating` derive what it
  means: serialisability, index agreement, exact statistics, crash recovery, vector cache coherence, absence of deadlock, who
  may commit what and ownership over whole runs, stored documents having the shapes declared, and stored vectors matching
  stored text.
- `paging`, `search`: cursor paging, and search over a store that changes between its reads. `jwks`: the signing-key cache,
  both as an object and as runs with concurrent callers.

`Stores.Expected` is the recomputation every index entry is compared with, `Safety.AtomicStep` the atomic version of an
operation every interleaving is compared with, and `Machine.Reachable` the runs the theorems range over.

Assumptions, stated as parameters or preconditions:

- Project, collection and index names and document ids satisfy the request checks where keys are read as bytes
  (`Keys.ValidKey`, `Paging.Served`); the step machine works on structured keys, which `Keys.KeyBytesInjective` justifies. Index
  names are unique per kind (`Values.UniqueNames`, checked by the push).
- A batch is atomic and visible once sequenced; durability is a prefix of the sequencing order; an operation is not cancelled
  between sequencing and invalidation.
- Insert ids are drawn fresh (`used` in the machine).
- Canonical JSON text, tokenising, clamping of embedding text, narrowing to 32-bit floats, the lock-shard hash (`Values.Env`),
  the embedding provider, the logarithm and the similarity are uninterpreted functions. Times are numbers supplied by callers.
- Scores are reals.

Where the code and its own words differ, the model follows the code:

- `server/src/db/README.md` and the comment at `server/src/db/write.rs:84-86` want the vector cache dropped after sequencing
  even when the flush fails. Document writes do that; a schema push whose durable wait fails returns first
  (`server/src/db/schemas.rs:159-160`). `Coherence.AbandonedPushLeavesStaleCache` shows the state it leaves,
  `Coherence.StaleOnlyInFlight` names such a push among the possible culprits, and `Coherence.InvalidationRestores` says the
  next write or push on those vectors that invalidates ends it.
- `server/src/db/indexes.rs:207-208` says text and vector are still guaranteed to match because the retry compares source fields
  under the lock. The code compares whole documents, and only when the patch embedded something; a patch that restates a text
  another patch has since replaced is accepted with the other's vector (`Restating.RestatingPatchKeepsOtherVector`);
  `TextVector.PlainMergeMatchesIff` gives the exact condition.
- A failed key fetch for a new issuer can evict keys that are still inside their lifetime when the cache is full
  (`Jwks.FailureKeepsFreshKeys` gives the exact condition).
- `server/src/jwt.rs:417-418` says a burst of misses produces one request. A burst of one kind of caller does, but an ordinary
  caller ahead of a forced one makes two fetches at one time
  (`Jwks.BurstFetchesTwice`; `Jwks.BurstFetchesOnce` gives the exact condition).
- A key fetch whose caller is dropped while it waits is not counted against the cooldown (`Jwks.DroppedFetchIsNotCounted`).
- Corpus statistics saturate at 64 bits and cannot be taken back exactly after that (`Agreement.RemovalExactIff`); a push makes
  them right again. Everything else in the indexes agrees at any size.
- `server/src/index.rs:91-92` says a query's parameters are all bound with none left over. That holds exactly for indexes that
  list no field twice (`Encoding.EveryParamIsBoundIff`), which no check of the push demands; an index on one field listed twice
  takes a parameter it never looks at (`Encoding.RepeatedFieldIgnoresParam`).
- `clamp_limit` keeps page sizes at one or more; at the database level a limit of zero returns an empty page without a cursor
  although documents remain (`Paging.PageOf`).

## Model

| member | source | states |
|---|---|---|
| `Consistency.Serialisable` | server/src/db/write.rs:54-94 | Any interleaving leaves the store that running the committed operations one at a time in sequencing order leaves; each was permitted and valid against the schema and document just before its own batch; and each insert, replacement or patch stored exactly what its request asks over the document it found, with the vectors a provider's answers give it under a schema that had been in force by then. |
| `Consistency.CommitsWithinOperation` | server/src/db/write.rs:54-94 | That order is real-time order: an operation's commit lies between its beginning and its success, so an operation that begins after another returned comes later in the log. The schema it embedded under was in force between the two, and it stored exactly what it judged unless it is a patch on its last attempt. |
| `Consistency.AskedFieldsStored` | server/src/db/indexes.rs:210-259 | A field that no schema up to a commit declared for embedding is stored exactly as asked, in every run: as an insert or replacement sends it, and for a patch as it sends it or, if it does not, as it was found. |
| `Intent.NextIntended` | server/src/db/documents.rs:31-424 | Every step keeps each write's advisory schema one that was in force since it began, and what it prepared, decided and committed the embedding of what was asked. |
| `Intent.UndeclaredIsVerbatim` | server/src/db/indexes.rs:210-222 | For an undeclared collection storing what was asked means storing exactly that data. |
| `Shapes.ValidIsInhabits` | server/src/validate.rs:408-520 | For every shape of value (string, id, number, boolean, literal, vector, array, object, union, optional, malformed) and every validator that writes it down, a value is valid exactly if it has the shape. |
| `Shapes.EveryValidatorHasAShape` | server/src/validate.rs:408-520 | Every JSON value is a validator for some shape, malformed ones for the one nothing has. |
| `Shapes.ValidIsFits` | server/src/validate.rs:394-406 | A document is valid exactly if every declared field has its shape, or is absent or null where the server supplies it. |
| `Shapes.AcceptedIsFits` | server/src/validate.rs:32-274 | Exactly which collections a push accepts, from their shapes: names, reserved fields, vector widths from 1 to 4096, vector indexes of their field's width, and sources that are other declared fields of text. |
| `Conformance.StoredConforms` | server/src/db/documents.rs:68-384 | In every run, whatever an insert, replacement or patch commits had the shapes of the schema just before its batch, both as judged and as stored. |
| `Conformance.ConformanceKept` | server/src/validate.rs:394-406 | While a collection's schema stays, no interleaving makes any of its documents lose its shapes. |
| `Conformance.StoredAreFilled` | server/src/db/indexes.rs:210-259 | In every run, each field that is due a vector is stored with the declared model's answer for the text of its sources, or absent if there is no text, and every other field as asked. |
| `Conformance.SentVectorStored` | server/src/embed.rs:187-199 | In every run, a vector an insert or replacement sends that is not null, and any field a patch sends, is stored as sent. |
| `Filling.FillsWhatIsDue` | server/src/embed.rs:176-245 | Exactly what embedding does: it fails exactly if a field due one has text and no answer of its width and of finite numbers; otherwise due fields hold the answer, or nothing without text, and no other field changes. |
| `Filling.EmbeddedText` | server/src/embed.rs:118-147 | The text embedded is every string in the source fields, nested in arrays or not, in order and joined by single spaces without leading empty ones, then clamped. |
| `Filling.IndexedText` | server/src/fts.rs:72-92 | The text indexed is every string in the index's fields, nested in arrays or not, in order and each followed by a space. |
| `Filling.SpecIsSettings` | server/src/embed.rs:90-116 | Which fields are embedded, how wide, from which sources and by which model, from the field's shape. |
| `Filling.FillingConforms` | server/src/db/documents.rs:360-384 | Filling in vectors keeps a valid document valid. |
| `Consistency.TransferOnce` | server/src/db/documents.rs:333-384 | Of racing transfers that need the field to still hold one value at most one commits: between two that did, a write that is not such a transfer left the document holding that value again. |
| `Steps.NextKeeps` | server/src/db/documents.rs:68-482 | Every step of every interleaving, including storage failures, provider failures and crashes, keeps the machine's invariant: lock discipline, snapshots read under guards still true, the log replaying to the store. |
| `Steps.ReachableInv` | server/src/db/write.rs:54-94 | The invariant holds in every reachable state for any number of operations and any shard hash. |
| `Steps.SequenceKeeps` | server/src/db/write.rs:68-82 | A write that has reached sequencing can always apply its batch, and the batch it built from what it read is the atomic one for the store as it is then. |
| `Safety.BatchIsAtomic` | server/src/db/write.rs:68-72 | The schema, document and statistics a write read under its guards are the current ones when it sequences, so its batch equals the one computed from the current store. |
| `Safety.OthersKeepFacts` | server/src/db/write.rs:72-82 | What other in-flight operations read under their guards stays true after a write's batch. |
| `Safety.AcceptedIsOk` | server/src/db/documents.rs:194-262 | Whatever the decision under the locks accepts satisfies all conditions of the atomic write: found, permitted, valid, creation time kept, changed from the request only in fields fillable under the schema it embedded under, and stored as judged except by a patch that judged the plain merge. That schema is one that was in force (`Intent.NextIntended`). |
| `Safety.PrepareFollows` | server/src/db/documents.rs:296-329 | The unlocked phase changes a request only in fields embed-on-write may fill, and embeds nothing on a patch's last attempt. |
| `Steps.PushWriteKeeps` | server/src/db/schemas.rs:51-159 | While a push holds the exclusive lock nobody else knows anything about the store, so its snapshot is current when its batch lands. |
| `Consistency.IndexesAgree` | server/src/db/indexes.rs:8-130 | In every reachable state, at every point of its history, whatever the sizes of the collections, every equality entry, posting and vector entry is exactly the one recomputed from the stored documents under the stored schema: none missing, none stale. |
| `Agreement.WriteKeepsEntries` | server/src/db/indexes.rs:8-130 | Any insert, replacement, patch or delete keeps every equality entry, posting and vector entry of every project equal to its recomputation, however large the collections. |
| `Agreement.WriteAgrees` | server/src/db/indexes.rs:8-130 | Any insert, replacement, patch or delete keeps all of the store equal to its recomputation, statistics included, unless it takes a document out of a collection whose own totals no longer fit 64 bits. |
| `Agreement.PushKeepsEntries` | server/src/db/schemas.rs:62-157 | A push leaves every index entry of its project recomputed and every other project's as it was, whatever any statistics hold. |
| `Agreement.WriteEffectAt` | server/src/db/documents.rs:439-482 | What a write's batch does to each kind of key: the document, the entries the old and new document own, the statistics, and nothing else. |
| `Agreement.PushAgrees` | server/src/db/schemas.rs:62-157 | A push from any store, whatever its entries and statistics hold, makes all those of the project the recomputed ones and leaves every key of every other project as it was. |
| `Agreement.PushIdempotent` | server/src/db/schemas.rs:62-157 | Pushing the schema already stored to a project whose own entries and statistics are right changes nothing anywhere. |
| `Agreement.RebuildEqualsInserting` | server/src/db/schemas.rs:98-157 | From any store, whatever its entries and statistics hold, a push yields the very store reached by pushing the schema to the emptied project and inserting its documents one by one, in any order. |
| `Stores.AgreementUnique` | server/src/db/schemas.rs:62-157 | Documents and schemas determine the whole store. |
| `Stores.BatchIsLastWins` | server/src/db/write.rs:99-109 | Applying a batch atomically, last operation per key winning, is playing its operations in order. |
| `Batches.BuiltIsWriteEffect` | server/src/db/indexes.rs:8-130 | The batch the loops build, deletes before puts and the last operation on a key winning, is the pointwise effect of the write, for schemas with distinct index names. |
| `Batches.IdxEffectAt` | server/src/db/indexes.rs:22-33 | The entry loop leaves every new key holding the id and every old key that is not new deleted: a delete never undoes a put. |
| `Batches.FtsStepAt` | server/src/db/indexes.rs:80-102 | Deleting old postings before putting new ones keeps every term the new document still has. |
| `Batches.ApplyIndexOps` | server/src/db/indexes.rs:10-34 | Adds exactly the equality-index operations of one write to a batch. |
| `Batches.ApplyVecOps` | server/src/db/indexes.rs:111-130 | Adds a put or a delete for every declared vector index. |
| `Batches.ApplyFtsOps` | server/src/db/indexes.rs:73-105 | Adds posting and statistics operations, reading the statistics from the store. |
| `Rebuild.BuildPush` | server/src/db/schemas.rs:62-157 | The drop, seed, scan and put loops of a push build a batch that leaves the pointwise recomputation, whatever order documents and old entries are met in. |
| `Rebuild.IndexAll` | server/src/db/schemas.rs:98-150 | Indexing all documents in any order leaves exactly their entries and saturating counts over exactly those documents. |
| `Rebuild.RebuildIsPush` | server/src/db/schemas.rs:65-157 | A finished rebuild batch leaves the store of the pointwise push. |
| `Consistency.StatisticsExact` | server/src/fts.rs:111-126 | From the opening of the database, if they were right then, or from any push of the project on, a search index's stored statistics are the number of its collection's documents and the sum of their lengths, as long as documents leave that one collection only while it holds fewer than 2^32. |
| `Consistency.StepKeepsStats` | server/src/db/indexes.rs:73-105 | Every committed operation keeps each search index's statistics equal to their recomputation, unless it takes a document out of a collection of 2^32 or more; a push makes its project's so again. |
| `Consistency.FewDocsFit` | server/src/fts.rs:118-126 | A collection of fewer than 2^32 documents has totals within 64 bits, so no saturating operation on its statistics saturates. |
| `Agreement.StepClamped` | server/src/fts.rs:117-126 | The saturating read-modify-write tracks the clamped true totals unless something is removed while they are saturated. |
| `Agreement.RemovalExactIff` | server/src/fts.rs:123-126 | Taking a document out of saturating statistics is exact if and only if they had not saturated. |
| `Agreement.StatsMove` | server/src/db/indexes.rs:82-102 | One document leaving and one arriving move the true totals by exactly their counts and lengths. |
| `Fts.IdfPositive` | server/src/fts.rs:205-210 | The logarithm's argument exceeds one exactly when no more postings are counted than documents. |
| `Fts.TermScoreBounds` | server/src/fts.rs:212-216 | A posting with positive weight scores above zero and below the saturation bound. |
| `Fts.TermScoreIs` | server/src/fts.rs:212-216 | The score of a term: its weight times 2.2 tf / (tf + 0.3 + 0.9 len/avg). |
| `Fts.TermScoreMonotone` | server/src/fts.rs:212-216 | With a positive weight it rises with the term's frequency and falls with the document's length. |
| `Fts.IdfFalls` | server/src/fts.rs:205-210 | The logarithm's argument is (n + 1) / (df + 0.5), so a term in more documents weighs less. |
| `Search.ScoresAreTotals` | server/src/db/search.rs:69-106 | A document's text score is the sum of what each query term adds from its stored frequency and length, and the documents scored are those with a posting of some term. |
| `Search.TotalConcat` | server/src/db/search.rs:69-106 | On a store nobody writes to, scores add up over the terms of a query. |
| `Search.TotalPermuted` | server/src/db/search.rs:69-106 | And do not depend on their order. |
| `Search.MatchingTermRaises` | server/src/db/search.rs:69-106 | One more term raises the score of exactly the documents that hold it. |
| `Search.PostingsCount` | server/src/fts.rs:94-108 | Under agreement a posting holds how often the document's text has the term and how many tokens that text has, up to 32 bits. |
| `Search.PostingsAreDocs` | server/src/db/search.rs:76-100 | Under agreement a term's postings are exactly those of the documents containing it, hence at most as many as documents. |
| `Search.TextScoresPositive` | server/src/db/search.rs:69-106 | On a quiescent store whose entries agree and whose statistics for the index are right, every logarithm's argument exceeds one, every text score is positive, and exactly the documents containing a query term are scored. |
| `Consistency.CrashRecovers` | server/src/db/write.rs:74-109 | Recovering any durable prefix, at any point of any run, replays the recovered log, has index entries that agree with its documents and holds every acknowledged batch, although locks are released before the flush; statistics are right under the conditions they were before the crash. |
| `Consistency.SuccessIsDurable` | server/src/db/write.rs:84-94 | An operation that reported success is in the log as itself, durable, with the vector cache told. |
| `Coherence.StaleOnlyInFlight` | server/src/db/indexes.rs:135-191 | A cached vector set that differs from a fresh scan has an operation to blame: a write to that collection or a push on that project past its batch, such that neither its commit nor any later one on those vectors has invalidated. |
| `Coherence.InvalidationRestores` | server/src/db/indexes.rs:135-139 | Once the last commit on a cached set's vectors has invalidated, the set is what a scan answers, whatever pushes gave up before. |
| `Coherence.ReadsReflectReturnedWrites` | server/src/db/indexes.rs:142-191 | A vector read answers, id by id, as a store that holds every commit on those vectors sequenced before the read began and already invalidated then. |
| `Coherence.ReturnedBeforeRead` | server/src/db/write.rs:84-93 | A commit whose operation returned success is among those a later read must hold. |
| `Coherence.QuietReadIsScan` | server/src/db/indexes.rs:142-191 | A read that began with no such write in flight and met none answers exactly what a scan would, cached or not. |
| `Coherence.NextCoherent` | server/src/db/indexes.rs:135-191 | Every step keeps cache entries and half-finished scans explainable by a store whose later commits are all still awaited. |
| `Coherence.PublishOk` | server/src/db/indexes.rs:185-189 | Publishing a non-atomic scan under an unchanged generation keeps the cache coherent. |
| `Coherence.AbandonedPushLeavesStaleCache` | server/src/db/schemas.rs:159-160 | A push whose durable wait fails returns before invalidating: for any stored document with a vector of positive width in one field and nothing in another, and acceptable schemas that index one or the other, a read of the declared index and the push reach a state where everything has finished and the cache serves a set the store no longer holds. |
| `Coherence.WidthSchemaAccepted` | server/src/validate.rs:88-212 | Both schemas of that run pass the push's name, reserved-field, width, vector-index and embed-source checks. |
| `Database.Db.InsertChecked` | server/src/db/documents.rs:31-126 | Exactly when an insert applies, the document it stores, that its whole effect is one atomic step that keeps index entries, cached vectors and right statistics, and that a failed flush leaves the same store with an error. It is refused as invalid exactly when the rule lets it through and some declared field lacks its shape; what is stored has all of them; and data with no vector to fill in is stored as sent if and only if it has the shapes and the rule lets it through. |
| `Database.Db.AcceptedMeans` | server/src/db/documents.rs:31-126 | Data is accepted exactly if it has the declared shapes, embedding succeeds and the rule allows it as sent and as stored: the second check of the shapes never fails. |
| `Database.Db.PatchStoresEmbedded` | server/src/db/documents.rs:296-384 | What a patch that is not wasted stores: the merge embedded against the very document it finds, or the plain merge if by what it read there was nothing to embed. |
| `Database.Db.ReplaceChecked` | server/src/db/documents.rs:160-262 | The same for replace, which keeps the creation time; its own collection's statistics stay right below 2^32 documents. |
| `Database.Db.PatchChecked` | server/src/db/documents.rs:280-424 | A patch with other writers changing the store before each locking: every attempt but the last was wasted on a changed document, there are at most three, the last one's reads decide exactly whether and what is stored, and a success is one atomic step on the store it found. What it stores has the shapes declared by then and is the merge embedded, by what it read when it embedded or, on the third attempt, under the locks; without a provider it stores the merge if and only if that has the shapes and the rule allows both what it read early and what it finds. |
| `Database.Db.DeleteChecked` | server/src/db/documents.rs:432-482 | The same for delete; not found exactly when there is no document. |
| `Database.Db.PutSchemaChecked` | server/src/db/schemas.rs:38-162 | A permitted push leaves exactly the rebuilt store with right statistics and drops the project's cached vectors; when only the wait for durability fails the store is the rebuilt one, the caller gets an error and no cached set is dropped; otherwise nothing changes. |
| `Database.Db.CommitWrite` | server/src/db/write.rs:54-94 | Completing and applying a write's batch leaves the atomic write's store and drops exactly that collection's cached sets, also when the flush fails; a refused batch changes nothing. |
| `Database.Db.Vectors` | server/src/db/indexes.rs:142-191 | Returns and caches exactly what a scan of the index holds. |
| `Database.Db.InvalidateVectors` | server/src/db/indexes.rs:135-139 | Forgets one collection's or one project's sets and bumps the generation. |
| `TextVector.TextAndVectorStayMatched` | server/src/db/documents.rs:296-384 | Under one schema and one deterministic provider, every document ever stored in any run holds the embedding of its own text, and no vector when it has none, provided a patch that embedded nothing, and finds another document under the locks than it planned against, leaves the text of what it finds as it was. |
| `TextVector.PlainMergeMatchesIff` | server/src/db/documents.rs:331-384 | The proviso is exact: an accepted patch that embedded nothing stores a matched document if and only if the merge leaves the text it found under the locks as it was, for a provider that tells texts apart. |
| `Restating.RestatingPatchKeepsOtherVector` | server/src/db/documents.rs:331-358 | A run of two patches that ends with the old text stored beside the new text's vector: for any environment, any provider and any two texts it embeds differently, under a schema the push accepts, every earlier store matched and no client setting the vector. |
| `Embed.RestatingPlansNothing` | server/src/embed.rs:187-199 | A patch that restates the fields it read plans no embedding, whatever the schema. |
| `Embed.EmptyPlanPatchMatches` | server/src/db/documents.rs:350-358 | A patch that embeds nothing keeps text and vector matched whenever the merge leaves the text of the document it finds as it was, in particular whenever it names no source; and only then, if the provider tells texts apart. |
| `Embed.PatchMatches` | server/src/embed.rs:176-218 | A patch embedded against the document it is merged into keeps text and vector matched. |
| `Embed.WholeWriteMatches` | server/src/embed.rs:176-218 | An insert or replace that leaves the vector to the server stores the embedding of its own text. |
| `Embed.EmbeddingTouchesFilledFields` | server/src/db/indexes.rs:210-259 | Embedding changes only fields the plan wanted. |
| `Embed.EmbeddingKeepsText` | server/src/validate.rs:253-270 | Sources are never filled fields, so embedding leaves every source text as it was. |
| `Embed.ComputePlan` | server/src/embed.rs:176-218 | The planning loop computes the pointwise plan whatever order fields are met in. |
| `Embed.CheckedSourcesAreText` | server/src/validate.rs:224-274 | What the push's embed-source check accepts: sources are declared fields that are not themselves filled. |
| `Ownership.OwnerNeverChanges` | server/src/rules.rs:290-342 | Where updates are for owners, as under any whole-write owner rule, and only end users write, a document's owner value is the same at any two moments of its life whatever was interleaved, and every commit between the two came from an identity with that value. |
| `Ownership.OwnerForLife` | server/src/rules.rs:290-342 | Under a whole-write owner rule with only end users writing, whoever inserted, updated or deleted a document is an identity with the one owner value it has at every moment of its life. |
| `Lives.InsertsAreFresh` | server/src/db/documents.rs:92-101 | The id an insert commits was held by no document of any collection in any store before it. |
| `Lives.OneLife` | server/src/db/documents.rs:432-482 | Present at two moments, a document is present at every moment between: deletion is final. |
| `Lives.CreatedOnce` | server/src/db/documents.rs:197-223 | A document's creation time is the same at any two moments of its life, whatever was interleaved. |
| `Ownership.CommitterOwns` | server/src/handlers.rs:30-36 | Under an owner rule whoever commits a write owns the document it found and the document stored, as stored. |
| `Ownership.OwnerFieldNotFilled` | server/src/validate.rs:302-314 | The field of an accepted owner rule is never one the server fills after judging. |
| `Ownership.WholeWriteRule` | server/src/rules.rs:86-101 | A whole-write owner rule is the owner rule of create, update and delete. |
| `Rules.OwnerRuleMeaning` | server/src/rules.rs:290-379 | Exactly who may write where the operation's rule is an owner rule, and which documents must carry the identity's value. |
| `Rules.WhoMayDoWhat` | server/src/rules.rs:290-380 | Exactly who may do what, for every rule, all four operations and no rule at all: API keys anything, anonymous callers what is public, end users what is public, for the authenticated, or for owners when every document touched names them. |
| `Rules.HowItIsRefused` | server/src/rules.rs:349-390 | An anonymous caller is told to authenticate exactly where the rule is not public; an end user is forbidden outright exactly where there is no rule. |
| `Ownership.CommitsArePermitted` | server/src/rules.rs:349-380 | In every run, what an anonymous caller commits was public by the schema stored just before its batch, and what an end user commits had a rule there, and was permitted by it. |
| `Paging.VisibleIsReadable` | server/src/rules.rs:396-415 | Where a principal may read a collection, what a listing shows it is exactly what it may read. |
| `Rules.RetainItems` | server/src/rules.rs:408-413 | The retain loop keeps exactly the documents the access permits. |
| `Paging.QueryAll` | server/src/db/equality_indexes.rs:65-152 | A client following query cursors with any limits of at least one reaches the end and receives each stored document that has the value of every parameter exactly once and nothing else, in the order of the index's fields and then of ids. For an index that lists a field twice, of every parameter bound. |
| `Paging.Query` | server/src/db/equality_indexes.rs:65-152 | One page of an index query and its cursor; refused exactly for an undeclared index, parameters that are not a run of its leading fields, or a foreign cursor. Each document has the value of every parameter bound, every parameter at all where the index lists no field twice; pages are in index order and full while more remains. |
| `Encoding.BindsIsRun` | server/src/index.rs:91-115 | An index without repeated fields answers exactly the parameters whose names are a non-empty run of its leading fields. |
| `Encoding.EveryParamIsBoundIff` | server/src/index.rs:91-115 | Every parameter an index takes is looked at if and only if it lists no field twice. |
| `Encoding.RepeatedFieldIgnoresParam` | server/src/index.rs:91-115 | An index on one field listed twice takes a second, unrelated parameter, and matches documents that do not have its value. |
| `Paging.UnderIsMatching` | server/src/db/equality_indexes.rs:92-130 | The keys a query walks are exactly the entries of the documents that match it. |
| `Paging.List` | server/src/db/equality_indexes.rs:6-61 | One page of a collection and its cursor: the documents past the cursor id, in id order, read through the ordered byte keys, as many as the limit allows, with a cursor exactly when more remain. |
| `Paging.ListAll` | server/src/handlers.rs:324-343 | A client following list cursors with any limits, each page filtered after its cursor was taken, reaches the end and receives every document of the collection it may see exactly once and nothing else, in id order. |
| `Paging.ListedExactlyOnce` | server/src/db/equality_indexes.rs:6-61 | Page by page over changing stores, each page being what a listing answers then, a document present throughout comes exactly once and ids ascend. |
| `Paging.ReturnedExactlyOnce` | server/src/db/equality_indexes.rs:13-60 | Over any changing key sets a key present throughout a traversal is returned exactly once whatever is inserted or deleted between pages. |
| `Paging.JoinedAscends` | server/src/db/equality_indexes.rs:53-58 | Across pages read from changing stores keys ascend strictly, so nothing is ever returned twice. |
| `Paging.FollowIsComplete` | server/src/db/equality_indexes.rs:53-60 | On a fixed store the pages put together are every key once, in order, and following cursors ends. |
| `Paging.FilteredPages` | server/src/handlers.rs:324-343 | Over changing stores and with pages filtered for one access, a document present and visible throughout comes exactly once, and whatever comes is visible as returned. |
| `Paging.ScanUpTo` | server/src/db/equality_indexes.rs:112-130 | The iterator loop collects the first keys of the range, one more than the limit. |
| `Encoding.ScanIffMatches` | server/src/index.rs:75-160 | For every index, bound parameters, document and id the entry starts with the query prefix exactly when the document matches the parameters. |
| `Encoding.EscapeOrder` | server/src/index.rs:20-28 | Escaped, terminated strings sort exactly as the strings do. |
| `Encoding.EscapeInjective` | server/src/index.rs:20-28 | Escaping loses nothing. |
| `Encoding.EscapeInto` | server/src/index.rs:20-28 | The loop appends the escaped bytes. |
| `Encoding.NumberOrder` | server/src/index.rs:39-51 | Encoded numbers sort as the totalOrder of section 5.10 of IEEE 754-2019 on their bit patterns, and are equal only for equal patterns. |
| `Encoding.ValueEqMeaning` | server/src/index.rs:32-63 | Which values a query treats as equal: absent and null alike, scalars by value and never across types, compound values by their text. |
| `Encoding.ValueOrder` | server/src/index.rs:32-63 | Encoded values sort booleans, numbers, compound values, null, strings; false before true, numbers by total order, strings bytewise. |
| `Encoding.EntryOrder` | server/src/index.rs:75-89 | Entries of an index sort by the values of its fields in order and then by id. |
| `Encoding.ComputeEntryKey` | server/src/index.rs:75-89 | The loop builds the entry key. |
| `Encoding.CursorRoundTrip` | server/src/index.rs:162-175 | A cursor is the key in hexadecimal, two digits a byte, and decoding it gives the key back. |
| `Keys.KeyBytesInjective` | server/src/db/mod.rs:42-63 | Distinct keys built from checked names have distinct bytes: no project, collection, index, term or id can spell another's key. |
| `Keys.KeyLayout` | server/src/db/mod.rs:38-63 | The byte layout of each of the six kinds of key. |
| `Keys.WhichNames` | server/src/validate.rs:50-84 | Which project, collection and index names and document ids are valid, by their characters. |
| `Keys.ProjectScans` | server/src/db/schemas.rs:65-99 | The clean-up and document scans of a push see exactly the project's entries and documents. |
| `Keys.CollectionScans` | server/src/db/mod.rs:42-50 | A collection listing, one vector index and one equality index are each exactly one prefix. |
| `Keys.TermScan` | server/src/fts.rs:162-169 | A term's posting scan sees that term's postings, no longer term's and not the statistics entry. |
| `Keys.ParseKeyRoundTrip` | server/src/db/mod.rs:56-63 | A document key splits back into project, collection and id. |
| `Keys.ComputeNameCheck` | server/src/validate.rs:88-124 | The push's name check accepts exactly schemas whose collection names are valid and whose index names are valid and distinct per kind. |
| `ByteStrings.PrefixScanExact` | server/src/index.rs:180-191 | The range up to a prefix's end holds exactly the keys under the prefix if and only if the prefix is not all 0xFF. |
| `ByteStrings.ComputePrefixEnd` | server/src/index.rs:180-191 | The carry loop computes the prefix end. |
| `ByteStrings.SuccessorIsNext` | server/src/db/equality_indexes.rs:16-25 | A key followed by a zero byte is the scan start that skips that key and nothing else. |
| `Validation.ValidVectorIsIndexed` | server/src/validate.rs:394-410 | A document validation accepts is left out of a vector index only when the field is absent or null. |
| `Validation.TextIsNotFilled` | server/src/validate.rs:329-343 | A text-like field carries no embed settings itself. |
| `Validation.FilledFieldsAreServerFilled` | server/src/validate.rs:346-353 | Every field the write path may fill is one validation lets be absent. |
| `Fts.ComputeTerms` | server/src/fts.rs:94-108 | The counting loop computes each term's multiplicity and the capped length. |
| `Fts.PostingRoundTrip` | server/src/fts.rs:189-203 | Postings decode to what was encoded, decodable strings are encodings, and the layout is frequency then length, least significant byte first. |
| `Jwks.ForcedFetchesAreRateLimited` | server/src/jwt.rs:483-553 | While an issuer is neither evicted nor preloaded and none of its fetches is dropped, two forced fetches of it carry times at least the cooldown apart even with out-of-order clocks, so a window of length T holds at most T/cooldown + 1. |
| `Jwks.DroppedFetchIsNotCounted` | server/src/jwt.rs:544-560 | A caller dropped while it waits releases the lock without storing anything, so a forced fetch right after a dropped one is sent at once, whatever the cooldown. |
| `Jwks.BurstFetchesOnce` | server/src/jwt.rs:455-553 | A burst of callers with one time sends at most two fetches, and two exactly when it starts with nothing to answer from, outside the cooldown, and an ordinary caller gets the lock before the first forced one; a burst of one kind of caller sends at most one. |
| `Jwks.BurstSends` | server/src/jwt.rs:455-553 | Exactly which fetches such a burst sends and in what order, from what the cache held and the order of its callers, however fetches, other issuers and seeding interleave, as long as none of the issuer's fetches is dropped. |
| `Jwks.BurstFetchesTwice` | server/src/jwt.rs:455-553 | From an empty cache an ordinary caller and a forced one just after it send two fetches at one time. |
| `Jwks.Bounded` | server/src/jwt.rs:624-635 | Over every run the cache holds at most 256 issuers. |
| `Jwks.EvictionTakesOldest` | server/src/jwt.rs:624-635 | Eviction removes one entry with the least attempt time, never the incoming issuer's, and only when the cache is full. |
| `Jwks.EvictIsEvicted` | server/src/jwt.rs:624-635 | The named victims of a run are exactly the choices the eviction may make. |
| `Jwks.FailureKeepsFreshKeys` | server/src/jwt.rs:572-589 | A failed fetch keeps all keys inside their lifetime exactly when it evicts nothing or what it evicts holds none. |
| `Jwks.FullCacheLosesFreshKeys` | server/src/jwt.rs:573-574 | A run from an empty cache, 256 seeded issuers and one more whose fetch fails, in which fresh keys are lost. |
| `Jwks.OldKeysServeToTheEnd` | server/src/jwt.rs:497-514 | However many fetches of an issuer fail in a run, forced or not, while it is neither evicted nor seeded ordinary callers get its old keys until their lifetime ends, without a fetch, and not after. |
| `Jwks.WhatReadersSee` | server/src/jwt.rs:483-514 | What a caller finds, from the times on record: live keys before a recent failure, and a forced fetch due unless another was recent. |
| `Jwks.FinishIsSeen` | server/src/jwt.rs:555-591 | How long what a fetch stores is seen: keys for their lifetime, a failure for its window, a forced fetch for the cooldown; a failure leaves the keys as live as they were. |
| `Jwks.JwksCache.FetchAndStore` | server/src/jwt.rs:516-591 | Fetches exactly when, by the times on record, the second check still finds it due, and what the entry then holds. |
| `Jwks.JwksCache.KeysFor` | server/src/jwt.rs:455-465 | Keys inside their lifetime are the answer whatever failures are on record; refused exactly when there are none and the last failure is inside its window; otherwise the fetch's outcome, and what the cache then holds. |
| `Jwks.JwksCache.KeysForUnknownKid` | server/src/jwt.rs:469-481 | Refused exactly within the cooldown; otherwise fetched, stored and the cooldown restarted. |
| `Jwks.JwksCache.EvictIfFull` | server/src/jwt.rs:624-635 | Evicts nothing or one oldest entry and makes room under the cap. |
| `Jwks.JwksCache.Preload` | server/src/jwt.rs:439-452 | Seeds an issuer, evicting as a fetch would. |
| `Jwks.JwksCache.Cached` | server/src/jwt.rs:497-514 | Keys inside their lifetime, whatever failures are on record; without them the refusal while the last failure is inside its window; otherwise neither. |
| `Jwks.JwksCache.InCooldown` | server/src/jwt.rs:487-494 | Only a recorded forced fetch starts a cooldown. |
| `Vectors.TopK` | server/src/vector.rs:177-195 | The bounded heap returns the first k of all candidates by score descending, then position ascending. |
| `Vectors.RankingOrdersAll` | server/src/vector.rs:160-167 | That ranking lists every vector's candidate once, strictly best first. |
| `Vectors.CosineTerms` | server/src/vector.rs:103-117 | The accumulators over the common length satisfy prod*prod <= normA*normB. |
| `Vectors.Cosine` | server/src/vector.rs:101-117 | The cosine of any two vectors lies in [-1, 1]; a zero vector scores zero, and otherwise score times both norms is the product. |
| `Vectors.SumProductsIs` | server/src/vector.rs:94-100 | The product is the sum over the common length of the components' products. |
| `Vectors.DocVectorMeans` | server/src/vector.rs:71-89 | A document has a vector exactly when its field is an array of the declared width of numbers finite in 32 bits, and it is those, in order. |
| `Vectors.CodecRoundTrip` | server/src/vector.rs:51-69 | Stored vectors survive the codec. |
| `Vectors.DecodeExact` | server/src/vector.rs:59-69 | Exactly byte strings of a multiple of four decode, to what encodes back. |
| `Vectors.ComputeDocVector` | server/src/vector.rs:75-89 | The loop yields a vector exactly for the declared number of finite numbers. |
| `Search.VectorSearch` | server/src/db/search.rs:152-299 | An unfiltered vector search on a quiescent store returns exactly the best limit documents by score and then id, each as stored, even after scoring again. |
| `Search.VectorRanked` | server/src/db/search.rs:143-159 | Heap positions in key order rank as ids do: the first depth vectors by score, then id. |
| `Search.TextRanked` | server/src/db/search.rs:43-118 | The best documents by the sum, over the query terms they hold a posting of, of what each term adds, in order; from the statistics and then each term's postings as found when they are read. |
| `Search.Collect` | server/src/db/search.rs:261-288 | The first `limit` candidates that resolve, each fetched from the store as it is at that moment. |
| `Search.Search` | server/src/db/search.rs:164-299 | Answered exactly when what the request names exists and fits; the page is the first `limit` fused or single-arm candidates that resolve, and with writers changing the store between any two reads each document returned was stored, met the filter and, after a vector-only search, has the score returned, at the moment it was fetched; those scores then order the page. Candidates of a text search are the best by the sum of what each term adds, of a vector search the most similar; the filter holds for every parameter its index binds; and a page that is not full holds every candidate that resolves. |
| `Search.CandidatesAreBest` | server/src/db/search.rs:217-259 | The candidates of each mode are the best of what it scores, told without its ranking: text sums, similarities, or summed reciprocal ranks of both arms. |
| `Search.ResolveExact` | server/src/db/search.rs:261-288 | A candidate becomes a result exactly when its document is there, meets the filter and, where it is scored again, has a vector. |
| `Search.FilterFits` | server/src/db/search.rs:183-204 | A filter is accepted exactly when its index is declared and binds its parameters. |
| `Search.ChosenIndex` | server/src/db/search.rs:54-64 | A name picks the index declared under it; without one the first declared is used. |
| `Search.DepthMeans` | server/src/db/search.rs:205-214 | Candidates are looked for as deep as the page, four times as deep with both arms or a filter, as far as 64 bits go. |
| `Search.ResolvedIsStored` | server/src/db/search.rs:266-276 | Every result was stored as returned, with its filter satisfied and its score its own, at the moment its candidate was fetched. |
| `Search.DeletedIsNotFound` | server/src/db/search.rs:261-276 | In every reachable state, a document deleted before a request fetches its candidates is not returned, whatever is interleaved with the fetches. |
| `Search.FuseRrf` | server/src/db/search.rs:5-24 | The fused list is the ranking of the summed reciprocal ranks, whatever order the score map is walked in. |
| `Search.OrderUnique` | server/src/db/search.rs:18-22 | A set of hits has only one ranked listing. |
| `Search.DominatesFused` | server/src/db/search.rs:5-24 | A document ranked no worse in both arms and better in one comes first. |
| `Search.BothArmsBeatOne` | server/src/db/search.rs:9 | Ranked 61st or better in both arms, a document beats every single-arm document. |
| `Search.SixtySecondTies` | server/src/db/mod.rs:71 | The bound is exact: 62nd in both arms ties with first in one. |
| `Search.SortFound` | server/src/db/search.rs:290-296 | The final sort orders by score and id, loses and invents nothing, and leaves an ordered page as it is. |
| `Search.QueryTerms` | server/src/fts.rs:60-68 | Query terms are the query's distinct tokens in the order of their first occurrence. |
| `Progress.NoDeadlock` | server/src/db/README.md:20-26 | Every reachable state with an unfinished operation has an enabled step of that operation or of one ahead of it in the lock order. |
| `Progress.BlockersAreAhead` | server/src/db/write.rs:68-82 | Whoever blocks an operation holds a later lock of the order schema, document, statistics, so waiting is never circular. |
| `Progress.StepsApproachTheEnd` | server/src/db/documents.rs:296-423 | Every step an operation takes brings it nearer its end; a vector scan moves strictly forward. |
| `Progress.PatchEndsInThreeAttempts` | server/src/db/documents.rs:296-423 | A patch makes at most three attempts and the last is never retried. |

## Left out

- Agreement.WriteAgrees: a removal is not claimed to keep its collection's statistics exact once their totals have passed 64 bits, because it does not (`Agreement.RemovalExactIff`); entries need no such bound (`Agreement.WriteKeepsEntries`).
- Coherence.StaleOnlyInFlight: includes pushes that gave up waiting for durability, because the code does not invalidate after them.
- Embed.CheckedSourcesAreText: the trimming of the model name in the push's check is not modelled; the lemma holds without it.
- Search.Search: each term's postings and the vector set are one read each, although their scans are steps of their own, and a filtered or hybrid page is only claimed over candidates of the bounded depth, since the code looks no deeper.
- Database.Db.InsertChecked: runs alone; its interleavings with other operations are the machine's subject.
- Database.Db.ReplaceChecked: runs alone, so the document judged early and the one locked are the same.
- Database.Db.PatchChecked: other writers act only between its reads and its locks, as `others` says.
- Database.Db.DeleteChecked: runs alone.
- Database.Db.PutSchemaChecked: runs alone; the stored schema's `auth` block and its check are not modelled.
- Database.Db.CommitWrite: runs alone, so the release of the locks before the flush is not visible in it; interleavings and crashes are the machine's subject.
- Database.Db.Vectors: runs alone, so its generation check never fails; scans with writes in between are the machine's subject.
- Validation.PushAccepted: leaves out the `auth` block and owner-field checks; owner fields are `Ownership.OwnerFieldAccepted`.
- Jwks.ForcedFetchesAreRateLimited: like the burst lemmas, not claimed across a fetch whose caller is dropped while it waits, because nothing is recorded of it (`Jwks.DroppedFetchIsNotCounted`).
- Shapes.ValidIsInhabits: a literal is compared as a JSON value whose numbers are 64-bit float patterns, so an integer and the float of the same value count as equal.
- Conformance.StoredAreFilled: the provider is some function of model and text in each step, not one provider for the whole run; that is `TextVector.TextAndVectorStayMatched`.
- Tokio's fairness between waiting readers and writers, and cancellation of an operation between sequencing and invalidation.
- The refusal of reserved document fields and the advisory refusals of a replace appear in the machine only as failing steps.
- Schema changes racing an embed's settings: the text–vector theorem fixes the collection's schema.
- Wrap-around of a 32-bit term frequency and of the 64-bit generation counter.
- Floating-point rounding, NaN scores, `ln` and `sqrt`; numbers as index values are 64-bit float patterns, so integers above 2^53 that share a pattern are not told apart, as in the code.
- Cursor strings `encode_cursor` never produces: `Encoding.DecodeCursor` reads them as the code does for pairs of ASCII characters, and no converse is claimed.
- HTTP routing, error texts, JWT signatures, key derivation, configuration, SlateDB's internals, embedding HTTP providers, Unicode segmentation and stemming.
- The TypeScript and Python clients, the schema builder, the examples and the scripts.
