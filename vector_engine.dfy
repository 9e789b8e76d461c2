/**
 * The class-level operations of vector documents against the vector store:
 * collection creation and lookup, the bulk write with one repair-and-retry,
 * and the two reads (cursor pagination and similarity search) that degrade to
 * an empty answer when the store refuses.  The store and the embedding size
 * (a property of the embedding model) are parameters.
 */
module VectorEngine {
  import opened Wrappers
  import opened Exceptions
  import opened Uuids
  import opened Values
  import opened Models
  import opened Registry
  import opened Qdrant
  import opened VectorMapping

  /** The collection configuration `_create_collection` sends. */
  function ConfigFor(useVectorIndex: bool, embeddingSize: nat): (cfg: VectorsConfig)
    ensures cfg.VectorParams? <==> useVectorIndex
    ensures cfg.VectorParams? ==> cfg.size == embeddingSize && cfg.distance == Cosine
  {
    if useVectorIndex then VectorParams(embeddingSize, Cosine) else NoVectors
  }

  /** `cls._create_collection(name, use_vector_index)`: the store's answer to the creation. */
  method CreateCollectionNamed(store: Store, name: string, useVectorIndex: bool, embeddingSize: nat)
    returns (r: Result<bool, Error>)
    requires store.Valid()
    modifies store
    ensures store.Valid()
    ensures store.online == old(store.online) && store.acknowledgesCreate == old(store.acknowledgesCreate)
    ensures store.writes == old(store.writes) + [CreateRequest(name, ConfigFor(useVectorIndex, embeddingSize))]
    ensures r.Err? <==> !store.online || name in old(store.collections)
    ensures r.Err? ==> r.error == UnexpectedResponse
    ensures r.Ok? ==> r.value == store.acknowledgesCreate
    ensures store.collections == if r == Ok(true)
      then old(store.collections)[name := Collection(ConfigFor(useVectorIndex, embeddingSize), [])]
      else old(store.collections)
  {
    r := store.CreateCollection(name, ConfigFor(useVectorIndex, embeddingSize));
  }

  /** `cls.create_collection()`: create the class's collection as its `Config` says. */
  method CreateCollection(store: Store, c: PyClass, embeddingSize: nat) returns (r: Result<bool, Error>)
    requires store.Valid()
    modifies store
    ensures store.Valid()
    ensures store.online == old(store.online) && store.acknowledgesCreate == old(store.acknowledgesCreate)
    ensures GetCollectionName(c).Err? || GetUseVectorIndex(c).Err? ==>
      r == Err(ImproperlyConfigured) && store.collections == old(store.collections) && store.writes == old(store.writes)
    ensures GetCollectionName(c).Ok? && GetUseVectorIndex(c).Ok? ==>
      var name, cfg := GetCollectionName(c).value, ConfigFor(GetUseVectorIndex(c).value, embeddingSize);
      && store.writes == old(store.writes) + [CreateRequest(name, cfg)]
      && (r.Err? <==> !store.online || name in old(store.collections))
      && (r.Err? ==> r.error == UnexpectedResponse)
      && (r.Ok? ==> r.value == store.acknowledgesCreate)
      && store.collections == if r == Ok(true) then old(store.collections)[name := Collection(cfg, [])] else old(store.collections)
  {
    var name := GetCollectionName(c);
    if name.Err? {
      return Err(name.error);
    }
    var useVectorIndex := GetUseVectorIndex(c);
    if useVectorIndex.Err? {
      return Err(useVectorIndex.error);
    }
    r := CreateCollectionNamed(store, name.value, useVectorIndex.value, embeddingSize);
  }

  /**
   * `cls.get_or_create_collection()`: the collection's info when it exists
   * (and no creation is requested); otherwise a creation with the class's
   * configuration, `RuntimeError` when the store answers false, and the info
   * read back after a successful creation.
   */
  method GetOrCreateCollection(store: Store, c: PyClass, embeddingSize: nat) returns (r: Result<CollectionInfo, Error>)
    requires store.Valid()
    modifies store
    ensures store.Valid()
    ensures store.online == old(store.online) && store.acknowledgesCreate == old(store.acknowledgesCreate)
    ensures GetCollectionName(c).Err? ==>
      r == Err(ImproperlyConfigured) && store.writes == old(store.writes) && store.collections == old(store.collections)
    ensures GetCollectionName(c).Ok? && store.online && GetCollectionName(c).value in old(store.collections) ==>
      var coll := old(store.collections)[GetCollectionName(c).value];
      && store.writes == old(store.writes) && store.collections == old(store.collections)
      && r == Ok(CollectionInfo(coll.config, |coll.points|))
    ensures GetCollectionName(c).Ok? && !(store.online && GetCollectionName(c).value in old(store.collections)) ==>
      if GetUseVectorIndex(c).Err? then
        r == Err(ImproperlyConfigured) && store.writes == old(store.writes) && store.collections == old(store.collections)
      else
        var name, cfg := GetCollectionName(c).value, ConfigFor(GetUseVectorIndex(c).value, embeddingSize);
        && store.writes == old(store.writes) + [CreateRequest(name, cfg)]
        && (!store.online ==> r == Err(UnexpectedResponse))
        && (store.online && !store.acknowledgesCreate ==> r == Err(RuntimeError))
        && (store.online && store.acknowledgesCreate ==> r == Ok(CollectionInfo(cfg, 0)))
        && store.collections == if store.online && store.acknowledgesCreate
          then old(store.collections)[name := Collection(cfg, [])]
          else old(store.collections)
    ensures r.Ok? ==> store.online && GetCollectionName(c).Ok? && GetCollectionName(c).value in store.collections
    ensures r.Ok? ==> var coll := store.collections[GetCollectionName(c).value];
      r.value == CollectionInfo(coll.config, |coll.points|)
    ensures r.Err? ==> r.error in {ImproperlyConfigured, UnexpectedResponse, RuntimeError}
    ensures store.collections == old(store.collections) || r.Ok?
  {
    var name := GetCollectionName(c);
    if name.Err? {
      return Err(name.error);
    }
    var info := store.GetCollection(name.value);
    if info.Ok? {
      return info;
    }
    var useVectorIndex := GetUseVectorIndex(c);
    if useVectorIndex.Err? {
      return Err(useVectorIndex.error);
    }
    var created := CreateCollectionNamed(store, name.value, useVectorIndex.value, embeddingSize);
    if created.Err? {
      return Err(created.error);
    }
    if !created.value {
      return Err(RuntimeError);
    }
    r := store.GetCollection(name.value);
  }

  /** The points of a list of documents, in order. */
  function PointsOf(docs: seq<Model>): (ps: seq<Point>)
    ensures |ps| == |docs| && forall i | 0 <= i < |docs| :: ps[i] == PointOf(docs[i])
  {
    seq(|docs|, i requires 0 <= i < |docs| => PointOf(docs[i]))
  }

  /** `[doc.to_point() for doc in documents]`. */
  method ToPoints(docs: seq<Model>) returns (ps: seq<Point>)
    ensures ps == PointsOf(docs)
  {
    ps := [];
    var i := 0;
    while i < |docs|
      invariant 0 <= i <= |docs|
      invariant ps == PointsOf(docs[..i])
    {
      var p := ToPoint(docs[i]);
      ps := ps + [p];
      i := i + 1;
      assert docs[..i] == docs[..i - 1] + [docs[i - 1]];
    }
    assert docs[..i] == docs;
  }

  /** `cls._bulk_insert(documents)`: upsert the documents' points into the class's collection. */
  method BulkInsertOnce(store: Store, c: PyClass, docs: seq<Model>) returns (r: Result<(), Error>)
    requires store.Valid()
    modifies store
    ensures store.Valid()
    ensures store.online == old(store.online) && store.acknowledgesCreate == old(store.acknowledgesCreate)
    ensures GetCollectionName(c).Err? ==>
      (r == Err(ImproperlyConfigured) && store.writes == old(store.writes) && store.collections == old(store.collections))
    ensures GetCollectionName(c).Ok? ==>
      var name, ps := GetCollectionName(c).value, PointsOf(docs);
      && store.writes == old(store.writes) + [UpsertRequest(name, ps)]
      && (r.Ok? <==> Accepts(old(store.online), old(store.collections), name, ps))
      && (r.Err? ==> r.error == UnexpectedResponse)
      && store.collections == if r.Ok? then Upserted(old(store.collections), name, ps) else old(store.collections)
  {
    var points := ToPoints(docs);
    var name := GetCollectionName(c);
    if name.Err? {
      return Err(name.error);
    }
    r := store.Upsert(name.value, points);
  }

  /** Whether the store takes an upsert of these points into that collection. */
  predicate Accepts(online: bool, collections: map<string, Collection>, name: string, ps: seq<Point>)
  {
    online && name in collections && forall i | 0 <= i < |ps| :: Fits(collections[name].config, ps[i])
  }

  function Upserted(collections: map<string, Collection>, name: string, ps: seq<Point>): map<string, Collection>
    requires name in collections
  {
    collections[name := Collection(collections[name].config, UpsertAll(collections[name].points, ps))]
  }

  /**
   * What the repair branch of `bulk_insert` answers and leaves in the store:
   * the creation fails on a store that is offline or already has the
   * collection; an unacknowledged creation leaves nothing to upsert into; an
   * acknowledged one leaves an empty collection that the retry fills when
   * every point fits.
   */
  function RetryOutcome(online: bool, acknowledges: bool, collections: map<string, Collection>,
                        name: string, cfg: VectorsConfig, ps: seq<Point>): (Result<bool, Error>, map<string, Collection>)
  {
    if !online || name in collections then (Err(UnexpectedResponse), collections)
    else if !acknowledges then (Ok(false), collections)
    else if forall i | 0 <= i < |ps| :: Fits(cfg, ps[i]) then (Ok(true), collections[name := Collection(cfg, UpsertAll([], ps))])
    else (Ok(false), collections[name := Collection(cfg, [])])
  }

  /**
   * The repair branch of `bulk_insert`, once the class's collection name and
   * vector-index flag are known: `create_collection()`, then one more
   * `_bulk_insert`, which upserts the documents' points into that collection.
   */
  method CreateAndRetry(store: Store, name: string, useVectorIndex: bool, points: seq<Point>, embeddingSize: nat)
    returns (r: Result<bool, Error>)
    requires store.Valid()
    modifies store
    ensures store.Valid()
    ensures store.online == old(store.online) && store.acknowledgesCreate == old(store.acknowledgesCreate)
    ensures (r, store.collections) == RetryOutcome(old(store.online), old(store.acknowledgesCreate), old(store.collections),
                                                   name, ConfigFor(useVectorIndex, embeddingSize), points)
    ensures store.writes == old(store.writes) + [CreateRequest(name, ConfigFor(useVectorIndex, embeddingSize))]
                            + if r.Err? then [] else [UpsertRequest(name, points)]
  {
    var created := CreateCollectionNamed(store, name, useVectorIndex, embeddingSize);
    if created.Err? {
      return Err(created.error);
    }
    ghost var cfg := ConfigFor(useVectorIndex, embeddingSize);
    ghost var fits := forall i | 0 <= i < |points| :: Fits(cfg, points[i]);
    assert store.collections == if created.value then old(store.collections)[name := Collection(cfg, [])] else old(store.collections);
    var second := store.Upsert(name, points);
    if second.Err? {
      assert !created.value || !fits;
      return Ok(false);
    }
    assert created.value && fits;
    assert store.collections == old(store.collections)[name := Collection(cfg, UpsertAll([], points))];
    return Ok(true);
  }

  /** The repair branch answers true exactly when the store acknowledged the creation and took every point. */
  lemma RetryOutcomeSpec(online: bool, acknowledges: bool, collections: map<string, Collection>,
                         name: string, cfg: VectorsConfig, ps: seq<Point>)
    ensures var (r, after) := RetryOutcome(online, acknowledges, collections, name, cfg, ps);
      && (r.Err? <==> !online || name in collections)
      && (r.Err? ==> r.error == UnexpectedResponse && after == collections)
      && (r == Ok(true) <==> online && name !in collections && acknowledges && forall i | 0 <= i < |ps| :: Fits(cfg, ps[i]))
      && (r == Ok(true) ==> after[name].config == cfg && Ids(after[name].points) == Ids(ps) && after - {name} == collections)
      && (r == Ok(false) ==> after == collections || after == collections[name := Collection(cfg, [])])
  {
    if online && name !in collections && acknowledges && forall i | 0 <= i < |ps| :: Fits(cfg, ps[i]) {
      UpsertAllKeepsUnique([], ps);
      var after := collections[name := Collection(cfg, UpsertAll([], ps))];
      assert after - {name} == collections;
    }
  }

  /**
   * `cls.bulk_insert(documents)`: true when the upsert succeeds; after an
   * `UnexpectedResponse` one `create_collection` (its answer ignored, its
   * errors propagated) and one retry, false only when the retry fails too.
   */
  method BulkInsert(store: Store, c: PyClass, docs: seq<Model>, embeddingSize: nat) returns (r: Result<bool, Error>)
    requires store.Valid()
    modifies store
    ensures store.Valid()
    ensures store.online == old(store.online) && store.acknowledgesCreate == old(store.acknowledgesCreate)
    ensures GetCollectionName(c).Err? ==>
      (r == Err(ImproperlyConfigured) && store.writes == old(store.writes) && store.collections == old(store.collections))
    ensures GetCollectionName(c).Ok? && Accepts(old(store.online), old(store.collections), GetCollectionName(c).value, PointsOf(docs)) ==>
      var name, ps := GetCollectionName(c).value, PointsOf(docs);
      && r == Ok(true)
      && store.writes == old(store.writes) + [UpsertRequest(name, ps)]
      && store.collections == Upserted(old(store.collections), name, ps)
    ensures GetCollectionName(c).Ok? && !Accepts(old(store.online), old(store.collections), GetCollectionName(c).value, PointsOf(docs)) ==>
      var name, ps := GetCollectionName(c).value, PointsOf(docs);
      if GetUseVectorIndex(c).Err? then
        && r == Err(ImproperlyConfigured)
        && store.writes == old(store.writes) + [UpsertRequest(name, ps)]
        && store.collections == old(store.collections)
      else
        var cfg := ConfigFor(GetUseVectorIndex(c).value, embeddingSize);
        && (r, store.collections) == RetryOutcome(old(store.online), old(store.acknowledgesCreate), old(store.collections), name, cfg, ps)
        && store.writes == old(store.writes) + [UpsertRequest(name, ps), CreateRequest(name, cfg)]
                           + if r.Err? then [] else [UpsertRequest(name, ps)]
  {
    var first := BulkInsertOnce(store, c, docs);
    if first.Ok? {
      return Ok(true);
    }
    if first.error != UnexpectedResponse {
      return Err(first.error);
    }
    var useVectorIndex := GetUseVectorIndex(c);
    if useVectorIndex.Err? {
      return Err(useVectorIndex.error);
    }
    var points := ToPoints(docs);
    r := CreateAndRetry(store, GetCollectionName(c).value, useVectorIndex.value, points, embeddingSize);
  }

  // ---------------------------------------------------------------------
  // Reads
  // ---------------------------------------------------------------------

  /** The `offset` argument of `bulk_find`: a UUID (always truthy) or a string (falsy when empty). */
  datatype Offset = OffsetUuid(u: Uuid) | OffsetStr(s: string)

  /** The keyword arguments of `bulk_find`; the filter stands for the arguments passed through to the store. */
  datatype FindOptions = FindOptions(offset: Option<Offset>, withPayload: Option<bool>, withVectors: Option<bool>,
                                     filter: map<string, Value>)

  /**
   * The keyword arguments of `search` that the model follows; the filter stands
   * for the arguments passed through to the store.  Search takes no cursor.
   */
  datatype SearchOptions = SearchOptions(withPayload: Option<bool>, withVectors: Option<bool>, filter: map<string, Value>)

  /** `str(offset) if offset else None`. */
  function OffsetArgument(offset: Option<Offset>): (r: Option<string>)
    ensures r.None? <==> offset.None? || offset.value == OffsetStr("")
  {
    match offset
    case None => None
    case Some(OffsetUuid(u)) => Some(ToStr(u))
    case Some(OffsetStr(s)) => if s == "" then None else Some(s)
  }

  /** Record `i` is the first that `from_record` rejects, and it raises `e`. */
  predicate RecordFailsFirstAt(c: PyClass, recs: seq<Record>, i: int, e: Error)
  {
    && 0 <= i < |recs| && FromRecord(c, recs[i]) == Err(e)
    && forall j | 0 <= j < i :: FromRecord(c, recs[j]).Ok?
  }

  /** `[cls.from_record(record) for record in records]`: the documents in the records' order, or the first error. */
  function FromRecords(c: PyClass, recs: seq<Record>): (r: Result<seq<Model>, Error>)
    ensures r.Ok? <==> forall i | 0 <= i < |recs| :: FromRecord(c, recs[i]).Ok?
    ensures r.Ok? ==> |r.value| == |recs| && forall i | 0 <= i < |recs| :: r.value[i] == FromRecord(c, recs[i]).value
    ensures r.Err? ==> exists i :: RecordFailsFirstAt(c, recs, i, r.error)
  {
    if recs == [] then Ok([])
    else match FromRecord(c, recs[0])
      case Err(e) => assert RecordFailsFirstAt(c, recs, 0, e); Err(e)
      case Ok(m) =>
        match FromRecords(c, recs[1..])
        case Err(e) => RecordFailsFirstAtShift(c, recs, e); Err(e)
        case Ok(ms) => Ok([m] + ms)
  }

  /** A first failure in the tail is the first failure overall when the head is accepted. */
  lemma RecordFailsFirstAtShift(c: PyClass, recs: seq<Record>, e: Error)
    requires |recs| > 0 && FromRecord(c, recs[0]).Ok?
    requires exists i :: RecordFailsFirstAt(c, recs[1..], i, e)
    ensures exists i :: RecordFailsFirstAt(c, recs, i, e)
  {
    var i :| RecordFailsFirstAt(c, recs[1..], i, e);
    assert RecordFailsFirstAt(c, recs, i + 1, e) by {
      forall j | 0 <= j < i + 1 ensures FromRecord(c, recs[j]).Ok? {
        if j > 0 {
          assert recs[j] == recs[1..][j - 1];
        }
      }
    }
  }

  /** `UUID(next_offset, version=4)` when the store returned a next offset. */
  function NextOffset(next: Option<string>): (r: Result<Option<Uuid>, Error>)
    ensures r.Ok? ==> (r.value.None? <==> next.None?)
    ensures r.Ok? && r.value.Some? ==> IsV4(r.value.value)
    ensures r.Err? <==> next.Some? && Parse(next.value).None?
    ensures r.Err? ==> r.error == ValueError
  {
    if next.None? then Ok(None)
    else match Parse(next.value)
      case None => Err(ValueError)
      case Some(u) => Ok(Some(ForceV4(u)))
  }

  /** What `_bulk_find` makes of a page: the documents and the parsed next offset. */
  function PageResult(c: PyClass, recs: seq<Record>, next: Option<string>): Result<(seq<Model>, Option<Uuid>), Error>
  {
    match FromRecords(c, recs)
    case Err(e) => Err(e)
    case Ok(docs) =>
      match NextOffset(next)
      case Err(e) => Err(e)
      case Ok(n) => Ok((docs, n))
  }

  /**
   * `cls.bulk_find(limit, **kwargs)`: one page of the class's collection
   * through the store's scroll, payloads on and vectors off unless asked
   * otherwise; when the store refuses, an empty page with no next offset.
   */
  method BulkFind(store: Store, c: PyClass, limit: int, opts: FindOptions)
    returns (r: Result<(seq<Model>, Option<Uuid>), Error>)
    ensures GetCollectionName(c).Err? ==> r == Err(ImproperlyConfigured)
    ensures GetCollectionName(c).Ok? ==>
      var name := GetCollectionName(c).value;
      if store.online && name in store.collections && limit > 0 then
        var ps := Filtered(store.collections[name].points, opts.filter);
        var (page, next) := Page(ps, StartOf(ps, OffsetArgument(opts.offset)), limit);
        r == PageResult(c, RecordsOf(page, opts.withPayload.GetOr(true), opts.withVectors.GetOr(false)), next)
      else r == Ok(([], None))
    ensures r.Err? ==> r.error != UnexpectedResponse
  {
    var name := GetCollectionName(c);
    if name.Err? {
      return Err(name.error);
    }
    var offset := OffsetArgument(opts.offset);
    var page := store.Scroll(name.value, limit, opts.withPayload.GetOr(true), opts.withVectors.GetOr(false),
                             offset, opts.filter);
    if page.Err? {
      return Ok(([], None));
    }
    var (recs, next) := page.value;
    r := PageResult(c, recs, next);
  }

  /**
   * `cls.search(query_vector, limit, **kwargs)`: the documents of the store's
   * most similar records, in the store's ranking; an empty list when the
   * store refuses.
   */
  method Search(store: Store, c: PyClass, query: seq<int>, limit: int, opts: SearchOptions)
    returns (r: Result<seq<Model>, Error>)
    ensures GetCollectionName(c).Err? ==> r == Err(ImproperlyConfigured)
    ensures GetCollectionName(c).Ok? ==>
      var name := GetCollectionName(c).value;
      if store.online && name in store.collections && limit > 0
         && store.collections[name].config.VectorParams? && |query| == store.collections[name].config.size then
        var ranked := Ranked(Filtered(store.collections[name].points, opts.filter), query);
        r == FromRecords(c, RecordsOf(ranked[..Min(limit, |ranked|)], opts.withPayload.GetOr(true), opts.withVectors.GetOr(false)))
      else r == Ok([])
    ensures r.Err? ==> r.error != UnexpectedResponse
  {
    var name := GetCollectionName(c);
    if name.Err? {
      return Err(name.error);
    }
    var found := store.Search(name.value, query, limit, opts.withPayload.GetOr(true), opts.withVectors.GetOr(false),
                              opts.filter);
    if found.Err? {
      return Ok([]);
    }
    r := FromRecords(c, found.value);
  }

  // ---------------------------------------------------------------------
  // Lemmas
  // ---------------------------------------------------------------------

  /** The next offset `bulk_find` returns leads back to the same point: a document id survives the cursor. */
  lemma NextOffsetResumes(u: Uuid)
    requires IsV4(u)
    ensures NextOffset(Some(ToStr(u))) == Ok(Some(u))
    ensures OffsetArgument(Some(OffsetUuid(NextOffset(Some(ToStr(u))).value.value))) == Some(ToStr(u))
  {
    ParseToStr(u);
    ForceV4KeepsV4(u);
  }

  /** A page of records read back from the store only fails on a record it cannot rebuild or a malformed next offset. */
  lemma PageResultErrors(c: PyClass, recs: seq<Record>, next: Option<string>)
    ensures PageResult(c, recs, next).Err? ==>
      PageResult(c, recs, next).error == ValueError || PageResult(c, recs, next).error == ValidationError
  {
  }

  /** A point whose id is not a version-4 UUID cannot be resumed from: the cursor moves to another id. */
  lemma NextOffsetMovesNonV4(u: Uuid)
    requires !IsV4(u)
    ensures NextOffset(Some(ToStr(u))) == Ok(Some(ForceV4(u)))
    ensures OffsetArgument(Some(OffsetUuid(NextOffset(Some(ToStr(u))).value.value))) != Some(ToStr(u))
  {
    ParseToStr(u);
    ParseToStr(ForceV4(u));
    ForceV4AltersOtherVersions(u);
  }

  /** An id as the store writes a version-4 UUID. */
  ghost predicate IsV4Id(id: string)
  {
    exists u :: IsV4(u) && id == ToStr(u)
  }

  /** The point at `i` has a version-4 id. */
  ghost predicate IdIsV4At(ps: seq<Point>, i: nat)
  {
    i < |ps| && IsV4Id(ps[i].id)
  }

  /** Every point of `ps` has a version-4 id, as `to_point` gives every stored document. */
  ghost predicate V4Ids(ps: seq<Point>)
  {
    forall i: nat | i < |ps| :: IdIsV4At(ps, i)
  }

  /** Filtering keeps version-4 ids. */
  lemma FilteredV4Ids(ps: seq<Point>, filter: map<string, Value>)
    requires V4Ids(ps)
    ensures V4Ids(Filtered(ps, filter))
  {
    var r := Filtered(ps, filter);
    forall i: nat | i < |r|
      ensures IdIsV4At(r, i)
    {
      assert r[i] in ps;
      var j :| 0 <= j < |ps| && ps[j] == r[i];
      assert IdIsV4At(ps, j);
    }
  }

  /** The next offset `_bulk_find` returns for the point at `k`, passed back as the following offset, resumes at `k`. */
  lemma CursorResumes(ps: seq<Point>, k: nat)
    requires UniqueIds(ps) && V4Ids(ps) && k < |ps|
    ensures NextOffset(Some(ps[k].id)).Ok? && NextOffset(Some(ps[k].id)).value.Some?
    ensures StartOf(ps, OffsetArgument(Some(OffsetUuid(NextOffset(Some(ps[k].id)).value.value)))) == k
  {
    assert IdIsV4At(ps, k);
    var u :| IsV4(u) && ps[k].id == ToStr(u);
    NextOffsetResumes(u);
    IndexOfUnique(ps, k);
  }

  /**
   * The points a caller collects by calling `bulk_find` from `start` and
   * passing each returned next offset (a `UUID`) back as the following offset,
   * until no next offset comes back.
   */
  ghost function CursorWalk(ps: seq<Point>, start: nat, limit: nat): seq<Point>
    requires UniqueIds(ps) && V4Ids(ps) && start <= |ps| && limit > 0
    decreases |ps| - start
  {
    var (page, next) := Page(ps, start, limit);
    if next.None? then page
    else
      CursorResumes(ps, start + limit);
      var cursor := NextOffset(next).value.value;
      page + CursorWalk(ps, StartOf(ps, OffsetArgument(Some(OffsetUuid(cursor)))), limit)
  }

  /** One step of the cursor walk: a full page, then the walk resumed right after it. */
  lemma CursorWalkStep(ps: seq<Point>, start: nat, limit: nat)
    requires UniqueIds(ps) && V4Ids(ps) && limit > 0 && start + limit < |ps|
    ensures CursorWalk(ps, start, limit) == ps[start..start + limit] + CursorWalk(ps, start + limit, limit)
  {
    var (page, next) := Page(ps, start, limit);
    assert next == Some(ps[start + limit].id);
    CursorResumes(ps, start + limit);
  }

  /** The last step of the cursor walk: no next offset comes back, and the page holds the rest. */
  lemma CursorWalkLast(ps: seq<Point>, start: nat, limit: nat)
    requires UniqueIds(ps) && V4Ids(ps) && limit > 0 && start <= |ps| <= start + limit
    ensures CursorWalk(ps, start, limit) == ps[start..]
  {
    var (page, next) := Page(ps, start, limit);
    assert next.None?;
  }

  /** A cursor walk that collects the rest after the first page collects the rest from `start`. */
  lemma CursorWalkExtends(ps: seq<Point>, start: nat, limit: nat)
    requires UniqueIds(ps) && V4Ids(ps) && limit > 0 && start + limit < |ps|
    requires CursorWalk(ps, start + limit, limit) == ps[start + limit..]
    ensures CursorWalk(ps, start, limit) == ps[start..]
  {
    CursorWalkStep(ps, start, limit);
    assert ps[start..] == ps[start..start + limit] + ps[start + limit..];
  }

  /** The cursor walk from `start` collects exactly the points from `start` on, each once, in order. */
  lemma {:induction false} CursorWalkVisitsAll(ps: seq<Point>, start: nat, limit: nat)
    requires UniqueIds(ps) && V4Ids(ps) && start <= |ps| && limit > 0
    ensures CursorWalk(ps, start, limit) == ps[start..]
    decreases |ps| - start
  {
    if start + limit < |ps| {
      CursorWalkVisitsAll(ps, start + limit, limit);
      CursorWalkExtends(ps, start, limit);
    } else {
      CursorWalkLast(ps, start, limit);
    }
  }

  /**
   * Paging through a well-formed collection whose points carry version-4 ids
   * with `bulk_find`, feeding each returned next offset back as the following
   * offset, visits every matching point once, in order.
   */
  lemma PagesVisitEveryMatch(col: Collection, filter: map<string, Value>, limit: nat)
    requires WellFormed(col) && V4Ids(col.points) && limit > 0
    ensures UniqueIds(Filtered(col.points, filter)) && V4Ids(Filtered(col.points, filter))
    ensures CursorWalk(Filtered(col.points, filter), 0, limit) == Filtered(col.points, filter)
  {
    var ps := Filtered(col.points, filter);
    FilteredUnique(col.points, filter);
    FilteredV4Ids(col.points, filter);
    CursorWalkVisitsAll(ps, 0, limit);
  }
}
