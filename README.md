# Document persistence layer of the LLM-engineering domain, in Dafny

This project models the persistence core of the `llm_engineering` domain package.

- **`VectorBaseDocument`** (`domain/base/vector.py`) is the pydantic base class of documents kept in the vector store. It covers:
  - the conversion between a document and a point (`to_point`, `model_dump`, `_uuid_to_str`, `from_record`);
  - the class-level operations against the store: `bulk_insert` with its one repair-and-retry, `bulk_find` with cursor pagination, `search`, and the three collection operations (`get_or_create_collection`, `create_collection`, `_create_collection`);
  - the getters that read the inner `Config` class;
  - grouping by class and by category (`_group_by`);
  - the reverse lookup from a collection name to a class (`collection_name_to_class`);
  - the annotation lookup `_has_class_attribute`.
- **`NoSQLBaseDocument`** (`domain/base/nosql.py`) is the base class of documents kept in the document store. It covers:
  - the codec between a document and a stored dict (`to_mongo`, `_model_dump`, `from_mongo`);
  - the `Settings` lookup;
  - the repository operations `save`, `get_or_create`, `bulk_insert`, `find` and `bulk_find`.
- **The domain documents** (`domain/documents.py`): `UserDocument`, with its `full_name`, and `Document` with its three stored subclasses for repositories, posts and articles.
- **`DataCategory`** (`domain/types.py`), a string enumeration.
- **`split_user_full_name`** (`application/utils/split_user_full_name.py`).

## How it is modelled

One Dafny module per concern, one file per module:

| file | module | what it holds |
|---|---|---|
| `wrappers.dfy` | `Wrappers` | `Option` and `Result` |
| `exceptions.dfy` | `Exceptions` | the exceptions raised, caught or let through |
| `uuids.dfy` | `Uuids` | UUIDs as 32 nibbles; `str(u)`, `uuid.UUID(s)`, `UUID(s, version=4)`, `hash` |
| `values.dfy` | `Values` | the JSON-like values of dumps, payloads and stored dicts; `_uuid_to_str` |
| `data_category.dfy` | `DataCategories` | `DataCategory` |
| `models.dfy` | `Models` | the pydantic layer (see below) |
| `registry.dfy` | `Registry` | `get_collection_name`, `get_category`, `get_use_vector_index` and `collection_name_to_class` |
| `qdrant.dfy` | `Qdrant` | the vector store, as a class with explicit state |
| `vector_mapping.dfy` | `VectorMapping` | `to_point`, `model_dump` and `from_record` |
| `vector_engine.dfy` | `VectorEngine` | the class-level store operations of vector documents |
| `grouping.dfy` | `Grouping` | `_group_by`, `grou_by_class` and `group_by_category` |
| `mongo.dfy` | `Mongo` | the document store, as a class with explicit state |
| `nosql.dfy` | `NoSql` | the codec and the repository operations of `NoSQLBaseDocument` |
| `documents.dfy` | `Documents` | the concrete document classes |
| `split_name.dfy` | `SplitNames` | `split_user_full_name` |

**The pydantic layer (`Models`).**
- A document class is a value: its annotations (name, alias, type, default), its inner `Config`/`Settings` classes and its bases. Bases are searched depth first.
- A document is its class, its `id` and its other fields, keyed by alias.
- `cls(**kwargs)` (`Construct`) validates every field, or falls back to its default, and ignores unknown arguments. A failure is a `ValidationError`. The `uuid4` default factory's output is a parameter.
- `__eq__` and `__hash__` are modelled, together with Python's reflected-operand rule for `a == b`. Under that rule two documents are `==` exactly when they have the same class and the same id.

**The two stores.**
- Both are classes whose methods change state in place: `Qdrant.Store` and `Mongo.MongoStore`. Every failure mode the callers handle can be reached through explicit state:
  - an unreachable vector store;
  - a vector store that answers `false` to a collection creation;
  - a document store whose queries fail.
- The vector store keeps a log of the creation and upsert requests made to it, so the contracts of `VectorEngine` state the exact sequence of requests sent.
- The document store keeps no log. The contracts of `NoSql` state the collections left behind, and a refused insert leaves no trace in them.
- The embedding size, a property of the embedding model, is a parameter.

**Loops.** The source's loops are methods with loop invariants, each proved against a function that specifies it:
- `NoSql.StringifyTopLevel`, the in-place stringification loop of `_model_dump` and `to_mongo`;
- `VectorEngine.ToPoints` and the `to_mongo` loop of `NoSql.BulkInsert`;
- `Grouping.GroupBy`;
- `Mongo.MongoStore.InsertMany`.

**Source text that cannot run as written.** The model follows the evident intent in each case:
- `vector.py:183` lacks the colon after `try`.
- `vector.py:276` passes sympy's `false`, which is falsy. It is modelled as `False`.
- `vector.py:525` and `vector.py:564` pass `selectors=` to `_group_by`, whose parameter is `selector`.
- The method name `grou_by_class` is kept as the source spells it.

`from_record` builds the id with `UUID(point.id, version=4)`. That call overwrites the version and variant bits; it does not check them. The model keeps this behaviour (`Uuids.ForceV4`) and proves that it alters every id that is not already a version-4 id (`Uuids.ForceV4AltersOtherVersions`).

## Model

| member | source | states |
|---|---|---|
| `DataCategories.Str` | llm_engineering/domain/types.py:4-15 | `DataCategory(str(m)) is m`: the string of a member looks that member up again |
| `DataCategories.FromValue` | llm_engineering/domain/types.py:4-15 | `DataCategory(s)` returns only a member whose value is `s` |
| `DataCategories.MembersComplete` | llm_engineering/domain/types.py:4-15 | the enumeration has nine members and lists every member |
| `DataCategories.ValuesDistinct` | llm_engineering/domain/types.py:4-15 | no two members share a value |
| `DataCategories.FromValueInverts` | llm_engineering/domain/types.py:4-15 | looking a member up by its value gives the member back |
| `DataCategories.DocumentCategoryValues` | llm_engineering/domain/types.py:5-15 | the posts, articles and repositories values, and `PROMPT == "prompt"` as a string comparison |
| `Uuids.ForceV4` | llm_engineering/domain/base/vector.py:96 | `UUID(s, version=4)` yields a version-4 id and keeps every digit except the version and variant ones |
| `Uuids.ForceV4KeepsV4` | llm_engineering/domain/base/vector.py:96 | the version coercion leaves a version-4 id unchanged |
| `Uuids.ForceV4AltersOtherVersions` | llm_engineering/domain/base/vector.py:96 | the version coercion changes every id that is not a version-4 id, whether by its version digit or its variant bits |
| `Uuids.ParseToStr` | llm_engineering/domain/base/nosql.py:97 | `uuid.UUID(str(u)) == u` |
| `Uuids.ToStrInjective` | llm_engineering/domain/base/vector.py:135-137 | distinct ids have distinct string forms |
| `Uuids.StrIsCanonical` | llm_engineering/domain/base/vector.py:115 | `str(u)` is the canonical lower-case 8-4-4-4-12 form |
| `Uuids.CanonicalRoundTrip` | llm_engineering/domain/base/vector.py:283 | every canonical string parses, and printing the result gives the string back |
| `Values.UuidToStr` | llm_engineering/domain/base/vector.py:135-145 | `_uuid_to_str` leaves no UUID at any depth; a UUID becomes its string; lists keep their length, dicts their keys, scalars their value |
| `Values.UuidToStrMap` | llm_engineering/domain/base/vector.py:127-132 | the dump after conversion has the same keys and no UUID anywhere |
| `Values.UuidToStrListAt` | llm_engineering/domain/base/vector.py:142-143 | each element of a converted list is the converted element |
| `Values.UuidToStrDictAt` | llm_engineering/domain/base/vector.py:139-140 | each value of a converted dict is the converted value |
| `Values.UuidFreeUnchanged` | llm_engineering/domain/base/vector.py:135-145 | a value without UUIDs passes through unchanged |
| `Values.UuidToStrIdempotent` | llm_engineering/domain/base/vector.py:135-145 | converting twice is converting once |
| `Values.UuidToStrFixedPoints` | llm_engineering/domain/base/vector.py:135-145 | the conversion is the identity exactly on UUID-free values |
| `Values.StrTop` | llm_engineering/domain/base/nosql.py:113-115 | the top-level-only conversion never leaves a UUID at top level |
| `Models.FieldMap` | llm_engineering/domain/documents.py:32-36 | a class's fields are keyed by alias; `id` is kept apart |
| `Models.Coerce` | llm_engineering/domain/documents.py:20-56 | validation against a declared field type fails only with `ValidationError` |
| `Models.Construct` | llm_engineering/domain/base/nosql.py:97 | `cls(**kwargs)` succeeds iff the id and every field validate. On success: the class, the id, exactly the declared fields, each given argument validated into its field, conformance to the field types, and a version-4 id when one is passed |
| `Models.ConstructField` | llm_engineering/domain/base/nosql.py:160 | each field of a built document is its validated argument or else its default |
| `Models.Dump` | llm_engineering/domain/base/vector.py:129 | `model_dump` holds exactly the fields plus `id`: each field's own value, and the id under `id` |
| `Models.HasClassAttributeIffAnnotated` | llm_engineering/domain/base/vector.py:629-637 | `_has_class_attribute(a)` holds iff `a` is annotated on the class or on a class above it |
| `Models.SubclassAntisymmetric` | llm_engineering/domain/base/vector.py:88 | `issubclass` has no cycles |
| `Models.OperatorEqIsIdentity` | llm_engineering/domain/base/vector.py:87-90 | two documents are `==` iff they have the same class and the same id |
| `Models.SubclassTransitive` | llm_engineering/domain/base/nosql.py:82 | `issubclass` is transitive, as the `isinstance` test relies on |
| `Models.InstanceEqAcceptsSubclass` | llm_engineering/domain/base/nosql.py:81-85 | whatever `__eq__` accepts, it also accepts an instance of any subclass below it, however deep, with the same id |
| `Models.EqualDocumentsHashEqually` | llm_engineering/domain/base/nosql.py:87-88 | equal documents hash equally |
| `Models.ConstructRebuilds` | llm_engineering/domain/base/vector.py:106 | arguments that each validate back to a document's field rebuild that document |
| `Models.CoerceAfterUuidToStr` | llm_engineering/domain/base/vector.py:135-137 | a field value survives stringification plus validation, unless a UUID sits in a non-UUID field |
| `Models.CoerceAfterStrTop` | llm_engineering/domain/base/nosql.py:113-115 | the same for the top-level conversion of the document-store codec |
| `Registry.GetCollectionName` | llm_engineering/domain/base/vector.py:465-471 | the inherited `Config.name`; `ImproperlyConfigured` iff `Config` or `name` is missing |
| `Registry.GetCategory` | llm_engineering/domain/base/vector.py:456-462 | the inherited `Config.category`; `ImproperlyConfigured` iff it is missing |
| `Registry.GetUseVectorIndex` | llm_engineering/domain/base/vector.py:474-481 | the inherited `Config.use_vector_index`; `ImproperlyConfigured` iff it is missing |
| `Registry.OwnConfigShadows` | llm_engineering/domain/base/vector.py:466 | a class's own `Config` hides the inherited one as a whole |
| `Registry.ConfigInherited` | llm_engineering/domain/base/vector.py:466 | without its own `Config`, a class answers as its first base that has one |
| `Registry.CollectionNameToClass` | llm_engineering/domain/base/vector.py:613-626 | the class found has the requested collection name; otherwise `ValueError` |
| `Registry.SearchSubclasses` | llm_engineering/domain/base/vector.py:614-624 | the loop over the subclasses: a match has the requested name; otherwise `ValueError` |
| `Registry.FirstNamed` | llm_engineering/domain/base/vector.py:613-626 | reference definition: the first class of a sequence with the requested name, found iff one exists |
| `Registry.CollectionNameToClassIsFirstInPreOrder` | llm_engineering/domain/base/vector.py:613-626 | the lookup returns the first matching class in depth-first pre-order of the subclass tree |
| `Registry.SearchIsFirstInPreOrder` | llm_engineering/domain/base/vector.py:614-624 | the same for a sequence of subclass trees |
| `Qdrant.Filtered` | llm_engineering/domain/base/vector.py:278 | a stored point is passed through iff it matches the filter |
| `Qdrant.FilteredIsMatchingInOrder` | llm_engineering/domain/base/vector.py:272-279 | the filtered points are exactly the stored points at the matching positions, in stored order |
| `Qdrant.UpsertOneKeepsUnique` | llm_engineering/domain/base/vector.py:176-179 | upserting one point keeps ids unique, adds its id, stores it, and keeps every point with another id |
| `Qdrant.UpsertAllKeepsUnique` | llm_engineering/domain/base/vector.py:176-179 | upserting a batch keeps ids unique; the stored ids become the union; points with other ids stay |
| `Qdrant.UpsertAllFits` | llm_engineering/domain/base/vector.py:176-179 | an upsert of fitting points keeps every stored vector fitting the collection |
| `Qdrant.UpsertAllStoresLast` | llm_engineering/domain/base/vector.py:176-179 | the last point upserted is stored exactly as given |
| `Qdrant.Page` | llm_engineering/domain/base/vector.py:272-279 | a page holds at most `limit` points from its start; a next offset exists iff points remain, and it is the id of the next point |
| `Qdrant.WalkVisitsAll` | llm_engineering/domain/base/vector.py:272-283 | following next offsets from a page visits every later point exactly once, in order |
| `Qdrant.Ranked` | llm_engineering/domain/base/vector.py:319-326 | search results are ordered by descending score and are a permutation of the matching points |
| `Qdrant.Store.GetCollection` | llm_engineering/domain/base/vector.py:373 | the info of an existing collection; `UnexpectedResponse` otherwise |
| `Qdrant.Store.CreateCollection` | llm_engineering/domain/base/vector.py:453 | creation is refused for an existing name; otherwise the server's answer, with an empty collection only when it answers true; the request is logged |
| `Qdrant.Store.Upsert` | llm_engineering/domain/base/vector.py:176-179 | succeeds iff the collection exists and every point fits, and then stores the upsert; otherwise nothing changes; the store stays well formed |
| `Qdrant.Store.Scroll` | llm_engineering/domain/base/vector.py:272-279 | one page of the matching points from the offset, and the next offset |
| `Qdrant.Store.Search` | llm_engineering/domain/base/vector.py:319-326 | the first `limit` matching points in ranked order, when the query fits the collection's vectors |
| `VectorMapping.VectorDump` | llm_engineering/domain/base/vector.py:127-132 | the dump holds every field plus the id as a string, each value stringified and UUID-free |
| `VectorMapping.PointOfShape` | llm_engineering/domain/base/vector.py:109-124 | a point carries the id string, the embedding (or `None`), and every other field stringified as payload |
| `VectorMapping.ToPoint` | llm_engineering/domain/base/vector.py:109-124 | `to_point` builds exactly that point |
| `VectorMapping.VectorOrNone` | llm_engineering/domain/base/vector.py:104 | `point.vector or None` is `None` or a truthy vector |
| `VectorMapping.FromRecord` | llm_engineering/domain/base/vector.py:95-106 | `ValueError` on a malformed id; otherwise validation; a result has the class and a version-4 id |
| `VectorMapping.FromRecordToPoint` | llm_engineering/domain/base/vector.py:95-124 | `from_record` inverts `to_point` for documents that survive the trip |
| `VectorMapping.VectorIgnoredWithoutEmbedding` | llm_engineering/domain/base/vector.py:103-104 | a class without an `embedding` annotation ignores the record's vector |
| `VectorMapping.VectorAttachedWithEmbedding` | llm_engineering/domain/base/vector.py:103-104 | a class with `embedding` receives the record's vector, an empty or missing one as `None` |
| `VectorEngine.ConfigFor` | llm_engineering/domain/base/vector.py:448-451 | a cosine configuration of the embedding size iff the vector index is used; otherwise an empty one |
| `VectorEngine.CreateCollectionNamed` | llm_engineering/domain/base/vector.py:414-453 | `_create_collection` sends that configuration and returns the store's answer |
| `VectorEngine.CreateCollection` | llm_engineering/domain/base/vector.py:386-411 | `ImproperlyConfigured` with nothing sent when the name or the flag is missing; otherwise the creation request and its answer |
| `VectorEngine.GetOrCreateCollection` | llm_engineering/domain/base/vector.py:332-383 | an existing collection's info (configuration and point count) with nothing written; otherwise one creation request and `RuntimeError` on a false answer; the new store holds an empty collection exactly when the creation was acknowledged, and otherwise is unchanged; a returned info always describes the stored collection |
| `VectorEngine.ToPoints` | llm_engineering/domain/base/vector.py:172 | the documents' points, in order |
| `VectorEngine.BulkInsertOnce` | llm_engineering/domain/base/vector.py:170-179 | one upsert of the points into the class's collection, applied iff the store accepts it |
| `VectorEngine.CreateAndRetry` | llm_engineering/domain/base/vector.py:157-164 | the repair branch: one creation, then one more upsert unless the creation raised; outcome and store as `RetryOutcome` says |
| `VectorEngine.RetryOutcomeSpec` | llm_engineering/domain/base/vector.py:152-166 | the repair raises iff the store is offline or has the collection; it answers true iff the creation was acknowledged and every point fits, and then the new collection holds exactly the points' ids |
| `VectorEngine.BulkInsert` | llm_engineering/domain/base/vector.py:148-166 | true after an accepted upsert; otherwise the repair branch, with the exact requests made and the exact collections left; `ImproperlyConfigured` leaves the store unchanged |
| `VectorEngine.OffsetArgument` | llm_engineering/domain/base/vector.py:269-270 | `str(offset) if offset else None` |
| `VectorEngine.FromRecords` | llm_engineering/domain/base/vector.py:281 | every record rebuilt in order, or the error of the first record that fails, all earlier records being accepted |
| `VectorEngine.NextOffset` | llm_engineering/domain/base/vector.py:282-283 | a next offset becomes a version-4 id; `ValueError` iff it does not parse |
| `VectorEngine.BulkFind` | llm_engineering/domain/base/vector.py:182-285 | one page of the collection, payload on and vectors off by default; an empty page when the store refuses; `UnexpectedResponse` never escapes |
| `VectorEngine.Search` | llm_engineering/domain/base/vector.py:288-329 | the ranked matches rebuilt as documents; `[]` when the store refuses; `UnexpectedResponse` never escapes |
| `VectorEngine.NextOffsetResumes` | llm_engineering/domain/base/vector.py:269-283 | the returned next offset, passed back, addresses the same point |
| `VectorEngine.PageResultErrors` | llm_engineering/domain/base/vector.py:281-283 | reading a page fails only with `ValueError` or `ValidationError` |
| `VectorEngine.NextOffsetMovesNonV4` | llm_engineering/domain/base/vector.py:269-283 | a point whose id is not a version-4 UUID cannot be resumed from: `UUID(next_offset, version=4)` rewrites the version bits, so the offset passed back names another id |
| `VectorEngine.CursorResumes` | llm_engineering/domain/base/vector.py:269-283 | in a collection with unique ids, the next offset `bulk_find` returns for a point with a version-4 id makes the following scroll start at that point |
| `VectorEngine.CursorWalkVisitsAll` | llm_engineering/domain/base/vector.py:269-283 | calling `bulk_find` repeatedly, passing each returned `UUID` back as `offset`, collects the points from the start on, each once, in order |
| `VectorEngine.PagesVisitEveryMatch` | llm_engineering/domain/base/vector.py:269-283 | in a well-formed collection whose point ids are all version-4 UUIDs, the `bulk_find` cursor walk visits every matching point once, in order |
| `Grouping.GroupBy` | llm_engineering/domain/base/vector.py:567-610 | the selector's first error, iff it raises; otherwise keys in first-seen order, exactly the selected keys, and each group is the documents with that key in input order |
| `Grouping.GroupByClass` | llm_engineering/domain/base/vector.py:484-525 | never fails; one group per class present, each holding that class's documents in order |
| `Grouping.GroupByCategory` | llm_engineering/domain/base/vector.py:528-564 | `ImproperlyConfigured` iff some document's class has no category; otherwise the category groups |
| `Grouping.GroupMembership` | llm_engineering/domain/base/vector.py:603-608 | a document is in a key's group iff it occurs in the input with that key |
| `Grouping.FirstOccurrencesDistinct` | llm_engineering/domain/base/vector.py:606-607 | the group keys are distinct and are exactly the keys that occur |
| `Grouping.GroupSizesSum` | llm_engineering/domain/base/vector.py:602-610 | the group sizes add up to the number of documents |
| `Mongo.Accepted` | llm_engineering/domain/base/nosql.py:173 | an ordered batch stores no more documents than it has; `Mongo.AcceptedIsFirstClash` gives the exact count |
| `Mongo.FirstMatch` | llm_engineering/domain/base/nosql.py:156 | `find_one`: a matching stored document, or none when nothing matches |
| `Mongo.AllMatches` | llm_engineering/domain/base/nosql.py:197 | `find`: a stored document is returned iff it matches the filter |
| `Mongo.AllMatchesInOrder` | llm_engineering/domain/base/nosql.py:197 | `find` returns exactly the stored documents at the matching positions, in stored order |
| `Mongo.FirstMatchIsFirstOfAll` | llm_engineering/domain/base/nosql.py:180-198 | `find_one` finds nothing iff `find` finds nothing, and otherwise `find`'s first document |
| `Mongo.AcceptedAll` | llm_engineering/domain/base/nosql.py:173-174 | a batch without clashing ids goes in whole |
| `Mongo.AcceptedIsFirstClash` | llm_engineering/domain/base/nosql.py:173-177 | an ordered batch stops at its first clash: every document before it is free of the stored ids and of the batch before it, and the document where it stops clashes with them |
| `Mongo.MongoStore.InsertOne` | llm_engineering/domain/base/nosql.py:144 | appends the document, or `WriteError` iff its `_id` is taken |
| `Mongo.MongoStore.InsertMany` | llm_engineering/domain/base/nosql.py:173 | `InvalidOperation` for an empty batch; otherwise the documents before the first clash are stored and a clash is a `BulkWriteError` |
| `Mongo.MongoStore.FindOne` | llm_engineering/domain/base/nosql.py:156 | the first match, or `OperationFailure` |
| `Mongo.MongoStore.Find` | llm_engineering/domain/base/nosql.py:197 | all matches in stored order, or `OperationFailure` |
| `NoSql.StrTopMap` | llm_engineering/domain/base/nosql.py:123-126 | same keys, and each top-level UUID replaced by its string |
| `NoSql.StringifyTopLevel` | llm_engineering/domain/base/nosql.py:113-115 | the in-place loop computes that map |
| `NoSql.ModelDumpOf` | llm_engineering/domain/base/nosql.py:119-128 | `_model_dump` holds the id as its string |
| `NoSql.ToMongo` | llm_engineering/domain/base/nosql.py:99-117 | `to_mongo` computes the stored dict |
| `NoSql.ToMongoShape` | llm_engineering/domain/base/nosql.py:99-117 | the stored dict has `_id` as the id string and no `id`; every other field is stringified at top level only; no UUID at top level |
| `NoSql.UuidOfValue` | llm_engineering/domain/base/nosql.py:97 | `uuid.UUID(v)` succeeds iff `v` is a parsable string; otherwise `ValueError`, `TypeError` or `AttributeError` |
| `NoSql.FromMongoOf` | llm_engineering/domain/base/nosql.py:91-97 | `ValueError` on `{}`, `KeyError` without `_id`; a result has the parsed `_id` as id and the class, and that id is a version-4 UUID, as the `UUID4` field demands |
| `NoSql.FromMongo` | llm_engineering/domain/base/nosql.py:91-97 | the method computes that result and pops `_id` from the caller's dict |
| `NoSql.CollectionName` | llm_engineering/domain/base/nosql.py:131-137 | the inherited `Settings.name`; `ImproperlyConfigured` iff it is missing |
| `NoSql.MongoIdParses` | llm_engineering/domain/base/nosql.py:110-111 | the stored `_id` parses back to the id |
| `NoSql.MongoArgumentsRebuild` | llm_engineering/domain/base/nosql.py:97 | the arguments `from_mongo` passes validate back to the document |
| `NoSql.FromMongoToMongo` | llm_engineering/domain/base/nosql.py:91-117 | `from_mongo(to_mongo(doc))` rebuilds the document |
| `NoSql.FromMongoToMongoEqual` | llm_engineering/domain/base/nosql.py:81-117 | the rebuilt document is `==` to the stored one |
| `NoSql.FromMongoBadId` | llm_engineering/domain/base/nosql.py:96-97 | a stored dict whose `_id` is no UUID string fails before validation, with the parser's error |
| `NoSql.Save` | llm_engineering/domain/base/nosql.py:139-150 | the document after it is appended to its collection; `None` with nothing stored when its `_id` is taken |
| `NoSql.GetOrCreate` | llm_engineering/domain/base/nosql.py:153-166 | the first match read back with nothing written; otherwise a new document built from the filter, saved when its id is free, and returned either way; a failing query re-raises; the fresh id stands for `uuid.uuid4()`, and every returned document has a version-4 id |
| `NoSql.BulkInsert` | llm_engineering/domain/base/nosql.py:169-177 | true iff the whole batch goes in, false on a clash with the earlier documents kept; an empty batch raises |
| `NoSql.Find` | llm_engineering/domain/base/nosql.py:180-191 | the first match read back, or `None` when nothing matches or the query fails |
| `NoSql.FromMongoAll` | llm_engineering/domain/base/nosql.py:198 | every stored dict read back in order, or the error of the first dict that fails, all earlier dicts being accepted |
| `NoSql.BulkFind` | llm_engineering/domain/base/nosql.py:194-202 | all matches read back, or `[]` when the query fails |
| `NoSql.FromMongoErrors` | llm_engineering/domain/base/nosql.py:198-202 | reading back never raises `OperationFailure` |
| `NoSql.SavedIsFound` | llm_engineering/domain/base/nosql.py:139-191 | after a save, finding by `_id` returns exactly the saved dict, which reads back as the document |
| `SplitNames.Split` | llm_engineering/application/utils/split_user_full_name.py:20 | `str.split(" ")` returns at least one piece, and no piece holds a space |
| `SplitNames.JoinSplit` | llm_engineering/application/utils/split_user_full_name.py:20-28 | joining the pieces with spaces gives the string back |
| `SplitNames.SplitSingle` | llm_engineering/application/utils/split_user_full_name.py:20-24 | one piece iff there is no space, and then the string itself |
| `SplitNames.SplitAppend` | llm_engineering/application/utils/split_user_full_name.py:20 | splitting at a space splits the two sides separately |
| `SplitNames.SplitUserFullName` | llm_engineering/application/utils/split_user_full_name.py:5-30 | `ImproperlyConfigured` iff no name is given; the last name holds no space |
| `SplitNames.SplitUserFullNameLossless` | llm_engineering/application/utils/split_user_full_name.py:25-28 | for a name with a space, first name + space + last name is the full name |
| `SplitNames.SplitUserFullNameSingle` | llm_engineering/application/utils/split_user_full_name.py:23-24 | a one-word name is both the first and the last name |
| `SplitNames.SplitUserFullNameRoundTrip` | llm_engineering/application/utils/split_user_full_name.py:5-30 | `first + " " + last` splits back into both when the last one has no space |
| `Documents.FullNameSplits` | llm_engineering/domain/documents.py:27-29 | a user's `full_name` always splits, and gives back both names when the last name has no space |
| `Documents.BaseFields` | llm_engineering/domain/base/nosql.py:79 | the base class declares only `id` |
| `Documents.UserFields` | llm_engineering/domain/documents.py:19-21 | a user has exactly `first_name` and `last_name`, both required strings |
| `Documents.DocumentFields` | llm_engineering/domain/documents.py:32-36 | `Document`'s fields, with the author id under the alias `authorId` |
| `Documents.RepositoryFields` | llm_engineering/domain/documents.py:39-41 | a repository adds required `name` and `link` |
| `Documents.PostFields` | llm_engineering/domain/documents.py:47-49 | a post adds optional `image` and `link`, both defaulting to `None` |
| `Documents.ArticleFields` | llm_engineering/domain/documents.py:55-56 | an article adds a required `link` |
| `Documents.CollectionNames` | llm_engineering/domain/documents.py:19-59 | users, repositories, posts and articles collections; `Document` and the base name none |
| `Documents.CollectionsDistinct` | llm_engineering/domain/documents.py:19-59 | no two stored classes share a collection |
| `Documents.StoredClassFields` | llm_engineering/domain/documents.py:19-59 | no stored class has an untyped field or one keyed `_id`, and every default conforms |
| `Documents.StoredDocumentRoundTrip` | llm_engineering/domain/documents.py:19-59 | every valid stored document survives `to_mongo` then `from_mongo` |
| `Documents.PostDefaults` | llm_engineering/domain/documents.py:48-49 | a post built without an image or link has `None` for both |
| `Documents.RequiredFields` | llm_engineering/domain/documents.py:35-56 | an article or repository without `link` or `authorId` fails validation |
| `Documents.AuthorIdIsV4` | llm_engineering/domain/documents.py:35 | a built document's author id is a version-4 UUID |

## Left out

- Logging (`logger.*`) is left out: it has no effect on results.
- Connections and singletons are left out. The store clients are modelled as the two store classes, and their connection setup is not part of this model.
- Dict key order is left out. Python dicts are Dafny maps, so the order of a dump or a payload is not modelled.
- Point order in the vector store is insertion order. The real store orders scroll results by point id, so pages here follow insertion order, not id order.
- `VectorEngine.Search` accepts only `with_payload`, `with_vectors` and the filter as keyword arguments. Other keyword arguments that `search` passes through to the store (such as its own `offset`) are not modelled.
- `VectorEngine.PagesVisitEveryMatch` holds only when every point id is a version-4 UUID string, as `to_point` writes them. A point with any other id cannot be resumed from (`VectorEngine.NextOffsetMovesNonV4`).
- `Values.UuidToStr`: the value domain has no tuples and no sets, and its dict keys are strings. `_uuid_to_str` does not descend into tuples or convert dict keys, so the model's "no UUID at any depth" holds for this domain only; a UUID inside a tuple or used as a dict key would stay a UUID.
- Floats and numpy are left out. Vectors hold integers, and the `np.ndarray` to list conversion in `to_point` is not modelled, because the model has no arrays.
- `Qdrant.Ranked`: scores are an integer dot product instead of the cosine similarity, because the model has no floating point. The ordering and permutation properties do not depend on the score.
- Point ids are strings only. Integer point ids and the store's own id checks are not modelled.
- `exclude_unset` and `by_alias` keyword arguments are left out. The model fixes their defaults (all fields, keyed by alias), because no caller in the core passes them.
- Filter keyword arguments are modelled as one equality filter on the payload or the stored dict. Other query operators passed through `**kwargs` are not modelled.
- The document store's query language is reduced to top-level equality: no operators, no array matching and no nested paths.
- `ObjectId` is not modelled, because every dict the codec stores carries an `_id`.
- `Uuids.Parse` accepts exactly 32 hexadecimal digits with hyphens anywhere. These other inputs that `uuid.UUID` accepts are not modelled, and the model rejects them with `ValueError` (`NoSql.UuidOfValue`, `NoSql.FromMongoOf`, `VectorMapping.FromRecord`, `VectorEngine.NextOffset`):
  - braces and the `urn:uuid:` prefix;
  - what `int(hex, 16)` accepts beyond plain ASCII digits: a leading sign, a `0x` prefix, underscores between digits, surrounding whitespace (Unicode whitespace included) and non-ASCII Unicode decimal digits such as the Arabic-Indic ones.
- `Models.Coerce` validates a string for a `UUID4` field with the same parser as `uuid.UUID`. pydantic parses UUID strings with its own parser, whose accepted forms are not modelled.
- A UUID nested inside a list or dict (for example in `content`) is left as it is by `to_mongo`. The model's document store accepts and stores such a value (`NoSql.Save`, `NoSql.BulkInsert`). The real driver, with no UUID representation configured, may refuse to encode it and raise an error instead. That refusal is not modelled.
- The same driver refuses a UUID at the top level of a query filter (`NoSql.Find`, `NoSql.BulkFind`, `NoSql.GetOrCreate`). The model compares such a UUID as a plain value instead. Stored top-level UUIDs are strings, so it matches no stored document: `NoSql.Find` returns `None` and `NoSql.GetOrCreate` creates a document. The callers in this code pass strings in their filters.
- Class identity is structural: two classes with identical declarations are the same class.
- `Generic`, `ABC` and abstract-class checks are left out: no core behaviour depends on them.
- Python's method resolution order is modelled as a depth-first search over the bases. The two agree on the single-inheritance hierarchies of this code.
- The embedding model is left out. The embedding size is a parameter, because `EmbeddingModelSingleton` is not part of this model.
- Concurrency is left out: the stores serve one caller at a time.
- The zero-token branch at `split_user_full_name.py:21-22` is modelled (`SplitNames.SplitUserFullName`), but no input reaches it: `SplitNames.Split` proves that `str.split(" ")` never returns an empty list.
- The syntax error at `vector.py:183` (a `try` without its colon) is not modelled. The model follows the evident `try`/`except`.
- The keyword mismatch at `vector.py:525` and `vector.py:564` (`selectors=` passed to a parameter named `selector`) is not modelled. As written, both calls raise `TypeError`; the model passes the selector.
- `Grouping.GroupByCategory` calls `get_category` once per document, as the source does. It does not model a category that is not a `DataCategory`, because `Config.category` is typed as one.
