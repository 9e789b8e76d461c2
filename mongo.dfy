/**
 * An in-memory model of the document store: named collections of documents
 * (string-keyed dicts).  An insert is refused with a write error when its
 * `_id` is already stored; a batch insert is ordered, stores the documents
 * before the first refused one and then fails as a whole; an empty batch is
 * refused by the driver.  Whether queries fail is explicit state.
 */
module Mongo {
  import opened Wrappers
  import opened Exceptions
  import opened Values

  type Doc = map<string, Value>

  /** An equality filter: each filtered key holds the filtered value; a `None` value also matches a missing key. */
  predicate Matches(d: Doc, filter: map<string, Value>)
  {
    forall k | k in filter :: if k in d then d[k] == filter[k] else filter[k] == VNone
  }

  /** The document would clash with a stored one on `_id`. */
  predicate Conflicts(stored: seq<Doc>, d: Doc)
  {
    "_id" in d && exists i | 0 <= i < |stored| :: "_id" in stored[i] && stored[i]["_id"] == d["_id"]
  }

  predicate DistinctIds(docs: seq<Doc>)
  {
    forall i, j | 0 <= i < j < |docs| && "_id" in docs[i] && "_id" in docs[j] :: docs[i]["_id"] != docs[j]["_id"]
  }

  /** How many documents of an ordered batch go in before the first clash. */
  function Accepted(stored: seq<Doc>, docs: seq<Doc>): (k: nat)
    ensures k <= |docs|
    decreases |docs|
  {
    if docs == [] || Conflicts(stored, docs[0]) then 0 else 1 + Accepted(stored + [docs[0]], docs[1..])
  }

  function FirstMatch(docs: seq<Doc>, filter: map<string, Value>): (r: Option<Doc>)
    ensures r.Some? ==> r.value in docs && Matches(r.value, filter)
    ensures r.None? ==> forall i | 0 <= i < |docs| :: !Matches(docs[i], filter)
  {
    if docs == [] then None
    else if Matches(docs[0], filter) then Some(docs[0])
    else FirstMatch(docs[1..], filter)
  }

  /** What `find` returns: the matching documents, in stored order. */
  function AllMatches(docs: seq<Doc>, filter: map<string, Value>): (r: seq<Doc>)
    ensures forall i | 0 <= i < |r| :: Matches(r[i], filter) && r[i] in docs
    ensures forall d | d in docs && Matches(d, filter) :: d in r
  {
    if docs == [] then []
    else if Matches(docs[0], filter) then [docs[0]] + AllMatches(docs[1..], filter)
    else AllMatches(docs[1..], filter)
  }

  /** The positions, from `from` on and in increasing order, of the documents that match. */
  function MatchPositions(docs: seq<Doc>, filter: map<string, Value>, from: nat): seq<nat>
    decreases |docs| - from
  {
    if from >= |docs| then []
    else if Matches(docs[from], filter) then [from] + MatchPositions(docs, filter, from + 1)
    else MatchPositions(docs, filter, from + 1)
  }

  lemma {:induction false} MatchPositionsOrdered(docs: seq<Doc>, filter: map<string, Value>, from: nat)
    ensures var pos := MatchPositions(docs, filter, from);
      && (forall i | 0 <= i < |pos| :: from <= pos[i] < |docs|)
      && (forall i, j | 0 <= i < j < |pos| :: pos[i] < pos[j])
    decreases |docs| - from
  {
    if from < |docs| {
      MatchPositionsOrdered(docs, filter, from + 1);
      if Matches(docs[from], filter) {
        assert MatchPositions(docs, filter, from) == [from] + MatchPositions(docs, filter, from + 1);
      } else {
        assert MatchPositions(docs, filter, from) == MatchPositions(docs, filter, from + 1);
      }
    }
  }

  lemma {:induction false} MatchPositionsComplete(docs: seq<Doc>, filter: map<string, Value>, from: nat)
    ensures forall j | from <= j < |docs| :: Matches(docs[j], filter) <==> j in MatchPositions(docs, filter, from)
    decreases |docs| - from
  {
    if from < |docs| {
      MatchPositionsComplete(docs, filter, from + 1);
      MatchPositionsOrdered(docs, filter, from + 1);
      if Matches(docs[from], filter) {
        assert MatchPositions(docs, filter, from) == [from] + MatchPositions(docs, filter, from + 1);
      } else {
        assert MatchPositions(docs, filter, from) == MatchPositions(docs, filter, from + 1);
      }
    }
  }

  lemma {:induction false} AllMatchesAtMatchPositions(docs: seq<Doc>, filter: map<string, Value>, from: nat)
    requires from <= |docs|
    ensures var r, pos := AllMatches(docs[from..], filter), MatchPositions(docs, filter, from);
      |r| == |pos| && forall i | 0 <= i < |pos| :: pos[i] < |docs| && r[i] == docs[pos[i]]
    decreases |docs| - from
  {
    if from < |docs| {
      AllMatchesAtMatchPositions(docs, filter, from + 1);
      assert docs[from..][1..] == docs[from + 1..];
      var r, pos := AllMatches(docs[from..], filter), MatchPositions(docs, filter, from);
      var rest, later := AllMatches(docs[from + 1..], filter), MatchPositions(docs, filter, from + 1);
      if Matches(docs[from], filter) {
        assert r == [docs[from]] + rest;
        assert pos == [from] + later;
        forall i | 0 <= i < |pos| ensures pos[i] < |docs| && r[i] == docs[pos[i]] {
          if i > 0 {
            assert r[i] == rest[i - 1] && pos[i] == later[i - 1];
          }
        }
      } else {
        assert r == rest && pos == later;
      }
    }
  }

  /**
   * `find` returns exactly the matching documents in stored order: the i-th
   * result is the stored document at the i-th matching position.
   */
  lemma AllMatchesInOrder(docs: seq<Doc>, filter: map<string, Value>)
    ensures var r, pos := AllMatches(docs, filter), MatchPositions(docs, filter, 0);
      && |r| == |pos|
      && (forall i | 0 <= i < |pos| :: pos[i] < |docs| && r[i] == docs[pos[i]])
      && (forall i, j | 0 <= i < j < |pos| :: pos[i] < pos[j])
      && (forall j | 0 <= j < |docs| :: Matches(docs[j], filter) <==> j in pos)
  {
    MatchPositionsOrdered(docs, filter, 0);
    MatchPositionsComplete(docs, filter, 0);
    AllMatchesAtMatchPositions(docs, filter, 0);
    assert docs[0..] == docs;
  }

  /** The first match is the head of all matches. */
  lemma {:induction false} FirstMatchIsFirstOfAll(docs: seq<Doc>, filter: map<string, Value>)
    ensures FirstMatch(docs, filter).None? <==> AllMatches(docs, filter) == []
    ensures FirstMatch(docs, filter).Some? ==> FirstMatch(docs, filter).value == AllMatches(docs, filter)[0]
  {
    if docs != [] && !Matches(docs[0], filter) {
      FirstMatchIsFirstOfAll(docs[1..], filter);
    }
  }

  lemma AppendKeepsDistinct(stored: seq<Doc>, d: Doc)
    requires DistinctIds(stored) && !Conflicts(stored, d)
    ensures DistinctIds(stored + [d])
  {
  }

  class MongoStore {
    var collections: map<string, seq<Doc>>
    /** Whether the server refuses queries (`OperationFailure`). */
    var queriesFail: bool

    ghost predicate Valid()
      reads this
    {
      forall n | n in collections :: DistinctIds(collections[n])
    }

    /** A collection that was never written reads as empty. */
    function Docs(name: string): seq<Doc>
      reads this
    {
      if name in collections then collections[name] else []
    }

    constructor (queriesFail: bool)
      ensures Valid() && collections == map[] && this.queriesFail == queriesFail
    {
      collections := map[];
      this.queriesFail := queriesFail;
    }

    /** `insert_one`: appends the document, or refuses it with `WriteError` when its `_id` is taken. */
    method InsertOne(name: string, d: Doc) returns (r: Result<(), Error>)
      requires Valid()
      modifies this
      ensures Valid() && queriesFail == old(queriesFail)
      ensures r.Err? <==> Conflicts(old(Docs(name)), d)
      ensures r.Err? ==> r.error == WriteError
      ensures collections == if r.Ok? then old(collections)[name := old(Docs(name)) + [d]] else old(collections)
    {
      if Conflicts(Docs(name), d) {
        return Err(WriteError);
      }
      AppendKeepsDistinct(Docs(name), d);
      collections := collections[name := Docs(name) + [d]];
      return Ok(());
    }

    /**
     * `insert_many` (ordered): an empty batch is an `InvalidOperation`;
     * otherwise the documents go in one by one until one clashes, which makes
     * the whole call a `BulkWriteError` with the earlier ones kept.
     */
    method InsertMany(name: string, docs: seq<Doc>) returns (r: Result<(), Error>)
      requires Valid()
      modifies this
      ensures Valid() && queriesFail == old(queriesFail)
      ensures docs == [] ==> r == Err(InvalidOperation) && collections == old(collections)
      ensures docs != [] ==>
        var k := Accepted(old(Docs(name)), docs);
        && (r.Ok? <==> k == |docs|)
        && (r.Err? ==> r.error == BulkWriteError)
        && collections == old(collections)[name := old(Docs(name)) + docs[..k]]
    {
      if docs == [] {
        return Err(InvalidOperation);
      }
      var stored := Docs(name);
      var i := 0;
      while i < |docs| && !Conflicts(stored, docs[i])
        invariant 0 <= i <= |docs|
        invariant stored == old(Docs(name)) + docs[..i]
        invariant DistinctIds(stored)
        invariant Accepted(old(Docs(name)), docs) == i + Accepted(stored, docs[i..])
        invariant unchanged(this)
      {
        AppendKeepsDistinct(stored, docs[i]);
        assert docs[i..][1..] == docs[i + 1..];
        stored := stored + [docs[i]];
        assert docs[..i + 1] == docs[..i] + [docs[i]];
        i := i + 1;
      }
      collections := collections[name := stored];
      if i < |docs| {
        return Err(BulkWriteError);
      }
      return Ok(());
    }

    /** `find_one`: the first matching document, if any. */
    method FindOne(name: string, filter: map<string, Value>) returns (r: Result<Option<Doc>, Error>)
      ensures r.Err? <==> queriesFail
      ensures r.Err? ==> r.error == OperationFailure
      ensures r.Ok? ==> r.value == FirstMatch(Docs(name), filter)
    {
      if queriesFail {
        return Err(OperationFailure);
      }
      return Ok(FirstMatch(Docs(name), filter));
    }

    /** `find`: every matching document, in stored order. */
    method Find(name: string, filter: map<string, Value>) returns (r: Result<seq<Doc>, Error>)
      ensures r.Err? <==> queriesFail
      ensures r.Err? ==> r.error == OperationFailure
      ensures r.Ok? ==> r.value == AllMatches(Docs(name), filter)
    {
      if queriesFail {
        return Err(OperationFailure);
      }
      return Ok(AllMatches(Docs(name), filter));
    }
  }

  /** A batch without clashes, among its own documents or with the stored ones, goes in whole. */
  lemma {:induction false} AcceptedAll(stored: seq<Doc>, docs: seq<Doc>)
    requires DistinctIds(stored + docs)
    ensures Accepted(stored, docs) == |docs|
    decreases |docs|
  {
    if docs != [] {
      forall i | 0 <= i < |stored| && "_id" in stored[i] && "_id" in docs[0]
        ensures stored[i]["_id"] != docs[0]["_id"]
      {
        assert (stored + docs)[i] == stored[i] && (stored + docs)[|stored|] == docs[0];
      }
      assert stored + docs == (stored + [docs[0]]) + docs[1..];
      AcceptedAll(stored + [docs[0]], docs[1..]);
    }
  }

  /**
   * The accepted count is the position of the first clash: every earlier
   * document is free of the stored ones and of the batch before it, and the
   * document there clashes with them.
   */
  lemma {:induction false} AcceptedIsFirstClash(stored: seq<Doc>, docs: seq<Doc>)
    ensures var k := Accepted(stored, docs);
      && (forall i | 0 <= i < k :: !Conflicts(stored + docs[..i], docs[i]))
      && (k < |docs| ==> Conflicts(stored + docs[..k], docs[k]))
    decreases |docs|
  {
    if docs != [] && !Conflicts(stored, docs[0]) {
      var rest := docs[1..];
      AcceptedIsFirstClash(stored + [docs[0]], rest);
      var k := Accepted(stored, docs);
      assert k == 1 + Accepted(stored + [docs[0]], rest);
      forall i | 0 <= i < k
        ensures !Conflicts(stored + docs[..i], docs[i])
      {
        if i == 0 {
          assert stored + docs[..0] == stored;
        } else {
          assert stored + docs[..i] == (stored + [docs[0]]) + rest[..i - 1];
          assert docs[i] == rest[i - 1];
        }
      }
      if k < |docs| {
        assert stored + docs[..k] == (stored + [docs[0]]) + rest[..k - 1];
        assert docs[k] == rest[k - 1];
      }
    } else if docs != [] {
      assert stored + docs[..0] == stored;
    }
  }
}
