/**
 * An in-memory model of the vector store the documents talk to: named
 * collections, each with a vector configuration and a sequence of points.
 * Every call either succeeds or signals `UnexpectedResponse`, the one error the
 * client raises for a failed request.  Whether the server is reachable and
 * whether it acknowledges a collection creation are explicit state, so each
 * failure path of the callers can be reached.
 */
module Qdrant {
  import opened Wrappers
  import opened Exceptions
  import opened Values

  datatype Distance = Cosine

  /** `VectorParams(size, distance)`, or the empty configuration `{}` (a collection without vectors). */
  datatype VectorsConfig = VectorParams(size: nat, distance: Distance) | NoVectors

  /** `PointStruct(id, vector, payload)`. */
  datatype Point = Point(id: string, vector: Value, payload: map<string, Value>)

  /** A record the store sends back; payload and vector only when asked for. */
  datatype Record = Record(id: string, payload: Option<map<string, Value>>, vector: Option<Value>)

  datatype Collection = Collection(config: VectorsConfig, points: seq<Point>)

  /** `CollectionInfo`: the configuration and the number of points. */
  datatype CollectionInfo = CollectionInfo(config: VectorsConfig, pointsCount: nat)

  /** The requests that change the store, in the order they were made. */
  datatype Write = CreateRequest(name: string, config: VectorsConfig) | UpsertRequest(name: string, points: seq<Point>)

  /** An integer vector of the configured length, or no vector in a collection without vectors. */
  predicate Fits(config: VectorsConfig, p: Point)
  {
    match config
    case NoVectors => p.vector.VNone?
    case VectorParams(size, _) => IsVector(p.vector) && |p.vector.items| == size
  }

  predicate IsVector(v: Value)
  {
    v.VList? && forall i | 0 <= i < |v.items| :: v.items[i].VInt?
  }

  predicate UniqueIds(ps: seq<Point>)
  {
    forall i, j | 0 <= i < j < |ps| :: ps[i].id != ps[j].id
  }

  function Ids(ps: seq<Point>): set<string>
  {
    set i | 0 <= i < |ps| :: ps[i].id
  }

  predicate WellFormed(c: Collection)
  {
    UniqueIds(c.points) && forall i | 0 <= i < |c.points| :: Fits(c.config, c.points[i])
  }

  /** A point matches a filter when its payload holds every filtered key with the filtered value. */
  predicate Matches(p: Point, filter: map<string, Value>)
  {
    forall k | k in filter :: k in p.payload && p.payload[k] == filter[k]
  }

  /** The points a filtered request sees: the matching points, in stored order. */
  function Filtered(ps: seq<Point>, filter: map<string, Value>): (r: seq<Point>)
    ensures forall i | 0 <= i < |r| :: Matches(r[i], filter)
    ensures forall x | x in r :: x in ps
    ensures forall x | x in ps && Matches(x, filter) :: x in r
  {
    if ps == [] then []
    else if Matches(ps[0], filter) then [ps[0]] + Filtered(ps[1..], filter)
    else Filtered(ps[1..], filter)
  }

  /** The positions, from `from` on and in increasing order, of the points that match. */
  function FilterPositions(ps: seq<Point>, filter: map<string, Value>, from: nat): seq<nat>
    decreases |ps| - from
  {
    if from >= |ps| then []
    else if Matches(ps[from], filter) then [from] + FilterPositions(ps, filter, from + 1)
    else FilterPositions(ps, filter, from + 1)
  }

  lemma {:induction false} FilterPositionsOrdered(ps: seq<Point>, filter: map<string, Value>, from: nat)
    ensures var pos := FilterPositions(ps, filter, from);
      && (forall i | 0 <= i < |pos| :: from <= pos[i] < |ps|)
      && (forall i, j | 0 <= i < j < |pos| :: pos[i] < pos[j])
    decreases |ps| - from
  {
    if from < |ps| {
      FilterPositionsOrdered(ps, filter, from + 1);
      if Matches(ps[from], filter) {
        assert FilterPositions(ps, filter, from) == [from] + FilterPositions(ps, filter, from + 1);
      } else {
        assert FilterPositions(ps, filter, from) == FilterPositions(ps, filter, from + 1);
      }
    }
  }

  lemma {:induction false} FilterPositionsComplete(ps: seq<Point>, filter: map<string, Value>, from: nat)
    ensures forall j | from <= j < |ps| :: Matches(ps[j], filter) <==> j in FilterPositions(ps, filter, from)
    decreases |ps| - from
  {
    if from < |ps| {
      FilterPositionsComplete(ps, filter, from + 1);
      FilterPositionsOrdered(ps, filter, from + 1);
      if Matches(ps[from], filter) {
        assert FilterPositions(ps, filter, from) == [from] + FilterPositions(ps, filter, from + 1);
      } else {
        assert FilterPositions(ps, filter, from) == FilterPositions(ps, filter, from + 1);
      }
    }
  }

  lemma {:induction false} FilteredAtFilterPositions(ps: seq<Point>, filter: map<string, Value>, from: nat)
    requires from <= |ps|
    ensures var r, pos := Filtered(ps[from..], filter), FilterPositions(ps, filter, from);
      |r| == |pos| && forall i | 0 <= i < |pos| :: pos[i] < |ps| && r[i] == ps[pos[i]]
    decreases |ps| - from
  {
    if from < |ps| {
      FilteredAtFilterPositions(ps, filter, from + 1);
      assert ps[from..][1..] == ps[from + 1..];
      var r, pos := Filtered(ps[from..], filter), FilterPositions(ps, filter, from);
      var rest, later := Filtered(ps[from + 1..], filter), FilterPositions(ps, filter, from + 1);
      if Matches(ps[from], filter) {
        assert r == [ps[from]] + rest;
        assert pos == [from] + later;
        forall i | 0 <= i < |pos| ensures pos[i] < |ps| && r[i] == ps[pos[i]] {
          if i > 0 {
            assert r[i] == rest[i - 1] && pos[i] == later[i - 1];
          }
        }
      } else {
        assert r == rest && pos == later;
      }
    }
  }

  /**
   * A filtered request sees exactly the matching points in stored order: the
   * i-th point it sees is the stored point at the i-th matching position.
   */
  lemma FilteredIsMatchingInOrder(ps: seq<Point>, filter: map<string, Value>)
    ensures var r, pos := Filtered(ps, filter), FilterPositions(ps, filter, 0);
      && |r| == |pos|
      && (forall i | 0 <= i < |pos| :: pos[i] < |ps| && r[i] == ps[pos[i]])
      && (forall i, j | 0 <= i < j < |pos| :: pos[i] < pos[j])
      && (forall j | 0 <= j < |ps| :: Matches(ps[j], filter) <==> j in pos)
  {
    FilterPositionsOrdered(ps, filter, 0);
    FilterPositionsComplete(ps, filter, 0);
    FilteredAtFilterPositions(ps, filter, 0);
    assert ps[0..] == ps;
  }

  function RecordOf(p: Point, withPayload: bool, withVectors: bool): (r: Record)
    ensures r.id == p.id
  {
    Record(p.id, if withPayload then Some(p.payload) else None, if withVectors then Some(p.vector) else None)
  }

  function RecordsOf(ps: seq<Point>, withPayload: bool, withVectors: bool): (rs: seq<Record>)
    ensures |rs| == |ps|
    ensures forall i | 0 <= i < |ps| :: rs[i] == RecordOf(ps[i], withPayload, withVectors)
  {
    seq(|ps|, i requires 0 <= i < |ps| => RecordOf(ps[i], withPayload, withVectors))
  }

  // ---------------------------------------------------------------------
  // Upsert
  // ---------------------------------------------------------------------

  function IndexOf(ps: seq<Point>, id: string): (k: nat)
    ensures k <= |ps|
    ensures k < |ps| ==> ps[k].id == id
    ensures forall i | 0 <= i < k :: ps[i].id != id
  {
    if ps == [] then 0
    else if ps[0].id == id then 0
    else 1 + IndexOf(ps[1..], id)
  }

  /** Upserting one point replaces the point with the same id in place, or appends it. */
  function UpsertOne(ps: seq<Point>, p: Point): (r: seq<Point>)
  {
    var k := IndexOf(ps, p.id);
    if k < |ps| then ps[k := p] else ps + [p]
  }

  function UpsertAll(ps: seq<Point>, news: seq<Point>): seq<Point>
    decreases |news|
  {
    if news == [] then ps else UpsertAll(UpsertOne(ps, news[0]), news[1..])
  }

  lemma UpsertOneKeepsUnique(ps: seq<Point>, p: Point)
    requires UniqueIds(ps)
    ensures UniqueIds(UpsertOne(ps, p))
    ensures Ids(UpsertOne(ps, p)) == Ids(ps) + {p.id}
    ensures p in UpsertOne(ps, p)
    ensures forall q | q in ps && q.id != p.id :: q in UpsertOne(ps, p)
  {
    var r := UpsertOne(ps, p);
    var k := IndexOf(ps, p.id);
    assert p.id in Ids(r) by { assert r[if k < |ps| then k else |ps|] == p; }
    forall q | q in ps && q.id != p.id ensures q in r {
      var i :| 0 <= i < |ps| && ps[i] == q;
      assert r[i] == q;
    }
    if k < |ps| {
      forall x | x in Ids(ps) ensures x in Ids(r) {
        var i :| 0 <= i < |ps| && ps[i].id == x;
        assert r[i].id == x;
      }
    } else {
      forall x | x in Ids(ps) ensures x in Ids(r) {
        var i :| 0 <= i < |ps| && ps[i].id == x;
        assert r[i].id == x;
      }
    }
  }

  /**
   * Upserting keeps ids unique and makes the stored ids the union of the old
   * and the new ones; a stored point whose id is not upserted is kept.
   */
  lemma {:induction false} UpsertAllKeepsUnique(ps: seq<Point>, news: seq<Point>)
    requires UniqueIds(ps)
    ensures UniqueIds(UpsertAll(ps, news))
    ensures Ids(UpsertAll(ps, news)) == Ids(ps) + Ids(news)
    ensures forall q | q in ps && q.id !in Ids(news) :: q in UpsertAll(ps, news)
    decreases |news|
  {
    if news != [] {
      UpsertOneKeepsUnique(ps, news[0]);
      UpsertAllKeepsUnique(UpsertOne(ps, news[0]), news[1..]);
      IdsCons(news);
    }
  }

  lemma IdsCons(ps: seq<Point>)
    requires ps != []
    ensures Ids(ps) == {ps[0].id} + Ids(ps[1..])
  {
    forall x | x in Ids(ps) ensures x in {ps[0].id} + Ids(ps[1..]) {
      var i :| 0 <= i < |ps| && ps[i].id == x;
      if i > 0 { assert ps[1..][i - 1].id == x; }
    }
  }

  lemma {:induction false} UpsertAllFits(ps: seq<Point>, news: seq<Point>, config: VectorsConfig)
    requires forall i | 0 <= i < |ps| :: Fits(config, ps[i])
    requires forall i | 0 <= i < |news| :: Fits(config, news[i])
    ensures forall i | 0 <= i < |UpsertAll(ps, news)| :: Fits(config, UpsertAll(ps, news)[i])
    decreases |news|
  {
    if news != [] {
      var next := UpsertOne(ps, news[0]);
      assert forall i | 0 <= i < |next| :: Fits(config, next[i]);
      UpsertAllFits(next, news[1..], config);
    }
  }

  /** The point upserted last is stored exactly as given. */
  lemma UpsertAllStoresLast(ps: seq<Point>, news: seq<Point>)
    requires UniqueIds(ps) && news != []
    ensures news[|news| - 1] in UpsertAll(ps, news)
    decreases |news|
  {
    if |news| > 1 {
      UpsertOneKeepsUnique(ps, news[0]);
      UpsertAllStoresLast(UpsertOne(ps, news[0]), news[1..]);
    } else {
      UpsertOneKeepsUnique(ps, news[0]);
    }
  }

  // ---------------------------------------------------------------------
  // Scroll: cursor pagination
  // ---------------------------------------------------------------------

  /** Where a page starts: at the point whose id is the offset, at the beginning without one. */
  function StartOf(ps: seq<Point>, offset: Option<string>): (k: nat)
    ensures k <= |ps|
  {
    if offset.None? then 0 else IndexOf(ps, offset.value)
  }

  function Min(a: nat, b: nat): nat { if a < b then a else b }

  /** A page of at most `limit` points from `start`, and the id the next page starts at, if any. */
  function Page(ps: seq<Point>, start: nat, limit: nat): (r: (seq<Point>, Option<string>))
    requires start <= |ps|
    ensures r.0 == ps[start..Min(start + limit, |ps|)]
    ensures r.1.Some? <==> start + limit < |ps|
    ensures r.1.Some? ==> r.1.value == ps[start + limit].id
  {
    var end := Min(start + limit, |ps|);
    (ps[start..end], if end < |ps| then Some(ps[end].id) else None)
  }

  /** With distinct ids, the next offset leads exactly to the point after the page. */
  lemma IndexOfUnique(ps: seq<Point>, k: nat)
    requires UniqueIds(ps) && k < |ps|
    ensures IndexOf(ps, ps[k].id) == k
  {
  }

  /** All pages from `start`, each starting at the previous one's next offset. */
  function Walk(ps: seq<Point>, start: nat, limit: nat): seq<Point>
    requires UniqueIds(ps) && start <= |ps| && limit > 0
    decreases |ps| - start
  {
    var (page, next) := Page(ps, start, limit);
    if next.None? then page
    else
      IndexOfUnique(ps, start + limit);
      page + Walk(ps, StartOf(ps, next), limit)
  }

  lemma {:induction false} FilteredUnique(ps: seq<Point>, filter: map<string, Value>)
    requires UniqueIds(ps)
    ensures UniqueIds(Filtered(ps, filter))
  {
    if ps != [] {
      FilteredUnique(ps[1..], filter);
      var rest := Filtered(ps[1..], filter);
      forall x | x in rest ensures x.id != ps[0].id {
        var i :| 0 <= i < |ps[1..]| && ps[1..][i] == x;
        assert ps[i + 1] == x;
      }
    }
  }

  /** Following the next offsets from any page visits every later point once, in order. */
  lemma {:induction false} WalkVisitsAll(ps: seq<Point>, start: nat, limit: nat)
    requires UniqueIds(ps) && start <= |ps| && limit > 0
    ensures Walk(ps, start, limit) == ps[start..]
    decreases |ps| - start
  {
    var (page, next) := Page(ps, start, limit);
    if next.Some? {
      IndexOfUnique(ps, start + limit);
      assert StartOf(ps, next) == start + limit;
      assert Walk(ps, start, limit) == page + Walk(ps, start + limit, limit);
      WalkVisitsAll(ps, start + limit, limit);
      assert ps[start..] == ps[start..start + limit] + ps[start + limit..];
    } else {
      assert Walk(ps, start, limit) == page == ps[start..];
    }
  }

  // ---------------------------------------------------------------------
  // Search: ranking by score
  // ---------------------------------------------------------------------

  function Dot(a: seq<Value>, q: seq<int>): int
  {
    if a == [] || q == [] then 0
    else (if a[0].VInt? then a[0].i else 0) * q[0] + Dot(a[1..], q[1..])
  }

  /** The similarity of a point to a query vector (an integer stand-in for the cosine score). */
  function Score(p: Point, q: seq<int>): int
  {
    if p.vector.VList? then Dot(p.vector.items, q) else 0
  }

  predicate RankedBy(ps: seq<Point>, q: seq<int>)
  {
    forall i, j | 0 <= i < j < |ps| :: Score(ps[i], q) >= Score(ps[j], q)
  }

  /** Places a point before the first stored point it scores at least as high as, else at the end. */
  function Insert(p: Point, ps: seq<Point>, q: seq<int>): seq<Point>
  {
    if ps == [] || Score(p, q) >= Score(ps[0], q) then [p] + ps
    else [ps[0]] + Insert(p, ps[1..], q)
  }

  lemma {:induction false} InsertPermutes(p: Point, ps: seq<Point>, q: seq<int>)
    ensures multiset(Insert(p, ps, q)) == multiset(ps) + multiset{p}
  {
    if ps != [] && Score(p, q) < Score(ps[0], q) {
      InsertPermutes(p, ps[1..], q);
      assert ps == [ps[0]] + ps[1..];
    }
  }

  predicate AtMost(ps: seq<Point>, bound: int, q: seq<int>)
  {
    forall i | 0 <= i < |ps| :: Score(ps[i], q) <= bound
  }

  lemma {:induction false} InsertAtMost(p: Point, ps: seq<Point>, bound: int, q: seq<int>)
    requires AtMost(ps, bound, q) && Score(p, q) <= bound
    ensures AtMost(Insert(p, ps, q), bound, q)
  {
    if ps != [] && Score(p, q) < Score(ps[0], q) {
      InsertAtMost(p, ps[1..], bound, q);
    }
  }

  lemma RankedCons(x: Point, ps: seq<Point>, q: seq<int>)
    requires RankedBy(ps, q) && AtMost(ps, Score(x, q), q)
    ensures RankedBy([x] + ps, q)
  {
    var r := [x] + ps;
    forall i, j | 0 <= i < j < |r| ensures Score(r[i], q) >= Score(r[j], q) {
      assert r[j] == ps[j - 1];
      if i > 0 { assert r[i] == ps[i - 1]; }
    }
  }

  lemma {:induction false} InsertRanks(p: Point, ps: seq<Point>, q: seq<int>)
    requires RankedBy(ps, q)
    ensures RankedBy(Insert(p, ps, q), q)
  {
    if ps == [] || Score(p, q) >= Score(ps[0], q) {
      RankedCons(p, ps, q);
    } else {
      InsertRanks(p, ps[1..], q);
      InsertAtMost(p, ps[1..], Score(ps[0], q), q);
      RankedCons(ps[0], Insert(p, ps[1..], q), q);
    }
  }

  /** The points from the most similar to the least similar. */
  function Ranked(ps: seq<Point>, q: seq<int>): (r: seq<Point>)
    ensures RankedBy(r, q)
    ensures multiset(r) == multiset(ps)
  {
    if ps == [] then []
    else
      var rest := Ranked(ps[1..], q);
      InsertRanks(ps[0], rest, q);
      InsertPermutes(ps[0], rest, q);
      assert ps == [ps[0]] + ps[1..];
      Insert(ps[0], rest, q)
  }

  // ---------------------------------------------------------------------
  // The store
  // ---------------------------------------------------------------------

  class Store {
    var collections: map<string, Collection>
    /** Whether the server answers at all. */
    var online: bool
    /** Whether the server acknowledges a collection creation (`create_collection` returns its answer). */
    var acknowledgesCreate: bool
    ghost var writes: seq<Write>

    ghost predicate Valid()
      reads this
    {
      forall n | n in collections :: WellFormed(collections[n])
    }

    constructor (online: bool, acknowledgesCreate: bool)
      ensures Valid() && collections == map[] && writes == []
      ensures this.online == online && this.acknowledgesCreate == acknowledgesCreate
    {
      collections := map[];
      this.online := online;
      this.acknowledgesCreate := acknowledgesCreate;
      writes := [];
    }

    /** `get_collection`: the collection's info, `UnexpectedResponse` when it does not exist. */
    method GetCollection(name: string) returns (r: Result<CollectionInfo, Error>)
      ensures r.Ok? <==> online && name in collections
      ensures r.Err? ==> r.error == UnexpectedResponse
      ensures r.Ok? ==> (r.value.config == collections[name].config
        && r.value.pointsCount == |collections[name].points|)
    {
      if !online || name !in collections {
        return Err(UnexpectedResponse);
      }
      var c := collections[name];
      return Ok(CollectionInfo(c.config, |c.points|));
    }

    /**
     * `create_collection`: an existing name is refused with `UnexpectedResponse`;
     * otherwise the server either creates an empty collection and answers true,
     * or answers false and creates nothing.
     */
    method CreateCollection(name: string, config: VectorsConfig) returns (r: Result<bool, Error>)
      requires Valid()
      modifies this
      ensures Valid()
      ensures online == old(online) && acknowledgesCreate == old(acknowledgesCreate)
      ensures writes == old(writes) + [CreateRequest(name, config)]
      ensures r.Err? <==> !online || name in old(collections)
      ensures r.Err? ==> r.error == UnexpectedResponse
      ensures r.Ok? ==> r.value == acknowledgesCreate
      ensures collections == if r == Ok(true) then old(collections)[name := Collection(config, [])] else old(collections)
    {
      writes := writes + [CreateRequest(name, config)];
      if !online || name in collections {
        return Err(UnexpectedResponse);
      }
      if !acknowledgesCreate {
        return Ok(false);
      }
      collections := collections[name := Collection(config, [])];
      return Ok(true);
    }

    /** `upsert`: fails on a missing collection or a point whose vector does not fit the collection. */
    method Upsert(name: string, points: seq<Point>) returns (r: Result<(), Error>)
      requires Valid()
      modifies this
      ensures Valid()
      ensures online == old(online) && acknowledgesCreate == old(acknowledgesCreate)
      ensures writes == old(writes) + [UpsertRequest(name, points)]
      ensures r.Ok? <==> (online && name in old(collections)
        && forall i | 0 <= i < |points| :: Fits(old(collections)[name].config, points[i]))
      ensures r.Err? ==> r.error == UnexpectedResponse
      ensures collections == if r.Ok?
        then old(collections)[name := Collection(old(collections)[name].config, UpsertAll(old(collections)[name].points, points))]
        else old(collections)
    {
      writes := writes + [UpsertRequest(name, points)];
      if !online || name !in collections {
        return Err(UnexpectedResponse);
      }
      var c := collections[name];
      if exists i | 0 <= i < |points| :: !Fits(c.config, points[i]) {
        return Err(UnexpectedResponse);
      }
      UpsertAllKeepsUnique(c.points, points);
      UpsertAllFits(c.points, points, c.config);
      collections := collections[name := Collection(c.config, UpsertAll(c.points, points))];
      return Ok(());
    }

    /**
     * `scroll`: one page of at most `limit` matching points, starting at the
     * offset id, and the id the next page starts at (`None` on the last page).
     */
    method Scroll(name: string, limit: int, withPayload: bool, withVectors: bool,
                  offset: Option<string>, filter: map<string, Value>)
      returns (r: Result<(seq<Record>, Option<string>), Error>)
      ensures r.Ok? <==> online && name in collections && limit > 0
      ensures r.Err? ==> r.error == UnexpectedResponse
      ensures r.Ok? ==>
        var ps := Filtered(collections[name].points, filter);
        var (page, next) := Page(ps, StartOf(ps, offset), limit);
        r.value == (RecordsOf(page, withPayload, withVectors), next)
    {
      if !online || name !in collections || limit <= 0 {
        return Err(UnexpectedResponse);
      }
      var ps := Filtered(collections[name].points, filter);
      var (page, next) := Page(ps, StartOf(ps, offset), limit);
      return Ok((RecordsOf(page, withPayload, withVectors), next));
    }

    /** `search`: the `limit` matching points most similar to the query, most similar first. */
    method Search(name: string, query: seq<int>, limit: int, withPayload: bool, withVectors: bool,
                  filter: map<string, Value>)
      returns (r: Result<seq<Record>, Error>)
      ensures r.Ok? <==> (online && name in collections && limit > 0
        && collections[name].config.VectorParams? && |query| == collections[name].config.size)
      ensures r.Err? ==> r.error == UnexpectedResponse
      ensures r.Ok? ==>
        var ranked := Ranked(Filtered(collections[name].points, filter), query);
        r.value == RecordsOf(ranked[..Min(limit, |ranked|)], withPayload, withVectors)
    {
      if !online || name !in collections || limit <= 0 {
        return Err(UnexpectedResponse);
      }
      var c := collections[name];
      if !c.config.VectorParams? || |query| != c.config.size {
        return Err(UnexpectedResponse);
      }
      var ranked := Ranked(Filtered(c.points, filter), query);
      return Ok(RecordsOf(ranked[..Min(limit, |ranked|)], withPayload, withVectors));
    }
  }
}
