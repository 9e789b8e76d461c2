/**
 * The grouping engine of vector documents: one pass over the documents that
 * files each one under the key its selector gives, creating a group the first
 * time a key is seen.  A selector that raises aborts the pass.
 */
module Grouping {
  import opened Wrappers
  import opened Exceptions
  import opened DataCategories
  import opened Models
  import opened Registry

  /** The documents whose key is `k`, in input order. */
  function Group<T, K(==)>(docs: seq<T>, keys: seq<K>, k: K): (g: seq<T>)
    requires |docs| == |keys|
    ensures |g| <= |docs|
  {
    if docs == [] then []
    else
      var n := |docs| - 1;
      Group(docs[..n], keys[..n], k) + (if keys[n] == k then [docs[n]] else [])
  }

  /** The distinct keys in the order they first occur. */
  function FirstOccurrences<K(==)>(keys: seq<K>): seq<K>
  {
    if keys == [] then []
    else
      var n := |keys| - 1;
      var earlier := FirstOccurrences(keys[..n]);
      if keys[n] in earlier then earlier else earlier + [keys[n]]
  }

  predicate Distinct<K(==)>(ks: seq<K>)
  {
    forall i, j | 0 <= i < j < |ks| :: ks[i] != ks[j]
  }

  /** The keys a selector gives, when it gives one for every document. */
  function KeysOf<T, K(==)>(docs: seq<T>, selector: T -> Result<K, Error>): (ks: seq<K>)
    requires forall i | 0 <= i < |docs| :: selector(docs[i]).Ok?
    ensures |ks| == |docs| && forall i | 0 <= i < |docs| :: Ok(ks[i]) == selector(docs[i])
  {
    seq(|docs|, i requires 0 <= i < |docs| => selector(docs[i]).value)
  }

  /** Document `i` is the first on which the selector fails, and it fails with `e`. */
  predicate FailsFirstAt<T, K>(docs: seq<T>, selector: T -> Result<K, Error>, i: int, e: Error)
  {
    && 0 <= i < |docs|
    && selector(docs[i]) == Err(e)
    && forall j | 0 <= j < i :: selector(docs[j]).Ok?
  }

  /**
   * `cls._group_by(documents, selector)`: the groups, keyed by selector value,
   * with the keys in the order the dictionary receives them; the selector's
   * first error when it raises.
   */
  method GroupBy<T, K(==)>(docs: seq<T>, selector: T -> Result<K, Error>)
    returns (r: Result<(map<K, seq<T>>, seq<K>), Error>)
    ensures r.Err? <==> exists i | 0 <= i < |docs| :: selector(docs[i]).Err?
    ensures r.Err? ==> exists i :: FailsFirstAt(docs, selector, i, r.error)
    ensures r.Ok? ==>
      var keys := KeysOf(docs, selector);
      && r.value.1 == FirstOccurrences(keys)
      && r.value.0.Keys == set k | k in keys
      && forall k | k in r.value.0 :: r.value.0[k] == Group(docs, keys, k)
  {
    var grouped: map<K, seq<T>> := map[];
    var order: seq<K> := [];
    ghost var keys: seq<K> := [];
    var i := 0;
    while i < |docs|
      invariant 0 <= i <= |docs| && |keys| == i
      invariant forall j | 0 <= j < i :: selector(docs[j]) == Ok(keys[j])
      invariant Progress(docs[..i], keys, grouped, order)
    {
      var key := selector(docs[i]);
      if key.Err? {
        FirstError(docs, selector, keys, key.error);
        return Err(key.error);
      }
      ProgressStep(docs[..i], keys, grouped, order, docs[i], key.value);
      KeysSnoc(docs, selector, keys, key.value);
      if key.value !in grouped {
        order := order + [key.value];
      }
      var group := if key.value in grouped then grouped[key.value] else [];
      grouped := grouped[key.value := group + [docs[i]]];
      keys := keys + [key.value];
      i := i + 1;
    }
    assert docs[..i] == docs;
    GroupByDone(docs, selector, keys, grouped, order);
    return Ok((grouped, order));
  }

  /** Filing document `|keys|` under the key its selector gives extends the keys seen. */
  lemma KeysSnoc<T, K>(docs: seq<T>, selector: T -> Result<K, Error>, keys: seq<K>, key: K)
    requires |keys| < |docs| && selector(docs[|keys|]) == Ok(key)
    requires forall j | 0 <= j < |keys| :: selector(docs[j]) == Ok(keys[j])
    ensures docs[..|keys| + 1] == docs[..|keys|] + [docs[|keys|]]
    ensures forall j | 0 <= j < |keys| + 1 :: selector(docs[j]) == Ok((keys + [key])[j])
  {
    assert docs[..|keys| + 1] == docs[..|keys|] + [docs[|keys|]];
  }

  /** The selector's failure on document `|keys|`, after it succeeded on every earlier one, is the first failure. */
  lemma FirstError<T, K>(docs: seq<T>, selector: T -> Result<K, Error>, keys: seq<K>, e: Error)
    requires |keys| < |docs| && selector(docs[|keys|]) == Err(e)
    requires forall j | 0 <= j < |keys| :: selector(docs[j]) == Ok(keys[j])
    ensures exists i | 0 <= i < |docs| :: selector(docs[i]).Err?
    ensures FailsFirstAt(docs, selector, |keys|, e)
  {
  }

  /** Once every document is filed, the state of `GroupBy` is its promised result. */
  lemma GroupByDone<T, K>(docs: seq<T>, selector: T -> Result<K, Error>, keys: seq<K>, grouped: map<K, seq<T>>, order: seq<K>)
    requires |keys| == |docs| && forall j | 0 <= j < |docs| :: selector(docs[j]) == Ok(keys[j])
    requires Progress(docs, keys, grouped, order)
    ensures !exists i | 0 <= i < |docs| :: selector(docs[i]).Err?
    ensures var keys := KeysOf(docs, selector);
      && order == FirstOccurrences(keys)
      && grouped.Keys == set k | k in keys
      && forall k | k in grouped :: grouped[k] == Group(docs, keys, k)
  {
    assert forall i | 0 <= i < |docs| :: selector(docs[i]).Ok?;
    assert keys == KeysOf(docs, selector);
  }

  /** The state of `GroupBy` after filing `prefix` under `keys`: keys in first-occurrence order, each group exact. */
  ghost predicate Progress<T, K>(prefix: seq<T>, keys: seq<K>, grouped: map<K, seq<T>>, order: seq<K>)
  {
    && |keys| == |prefix|
    && order == FirstOccurrences(keys)
    && grouped.Keys == (set k | k in keys)
    && forall k | k in grouped :: grouped[k] == Group(prefix, keys, k)
  }

  /** Filing one more document, under a new or an existing key, keeps the state of `GroupBy` exact. */
  lemma ProgressStep<T, K>(prefix: seq<T>, keys: seq<K>, grouped: map<K, seq<T>>, order: seq<K>, d: T, key: K)
    requires Progress(prefix, keys, grouped, order)
    ensures var group := if key in grouped then grouped[key] else [];
      Progress(prefix + [d], keys + [key], grouped[key := group + [d]], if key in grouped then order else order + [key])
  {
    FirstOccurrencesDistinct(keys);
    FirstOccurrencesSnoc(keys, key);
    GroupsStep(prefix, keys, d, key, grouped);
  }

  /** The groups after filing document `d` under `key`. */
  lemma GroupsStep<T, K>(prefix: seq<T>, before: seq<K>, d: T, key: K, grouped: map<K, seq<T>>)
    requires |prefix| == |before|
    requires grouped.Keys == (set k | k in before)
    requires forall k | k in grouped :: grouped[k] == Group(prefix, before, k)
    ensures var group := if key in grouped then grouped[key] else [];
      var g' := grouped[key := group + [d]];
      && g'.Keys == (set k | k in before + [key])
      && forall k | k in g' :: g'[k] == Group(prefix + [d], before + [key], k)
  {
    if key !in grouped {
      GroupOfAbsentKey(prefix, before, key);
    }
    var group := if key in grouped then grouped[key] else [];
    var g' := grouped[key := group + [d]];
    forall k | k in g' ensures g'[k] == Group(prefix + [d], before + [key], k) {
      GroupSnoc(prefix, before, d, key, k);
    }
  }

  function Classes(docs: seq<Model>): (cs: seq<PyClass>)
    ensures |cs| == |docs| && forall i | 0 <= i < |docs| :: cs[i] == docs[i].cls
  {
    seq(|docs|, i requires 0 <= i < |docs| => docs[i].cls)
  }

  /** `grou_by_class`: documents grouped by their class. */
  method GroupByClass(docs: seq<Model>) returns (r: Result<(map<PyClass, seq<Model>>, seq<PyClass>), Error>)
    ensures r.Ok?
    ensures var keys := Classes(docs);
      && r.value.1 == FirstOccurrences(keys)
      && r.value.0.Keys == (set d | d in docs :: d.cls)
      && forall k | k in r.value.0 :: r.value.0[k] == Group(docs, keys, k)
  {
    r := GroupBy(docs, (d: Model) => Ok(d.cls));
    ghost var keys := KeysOf(docs, (d: Model) => Ok(d.cls));
    assert keys == Classes(docs);
    assert forall k :: k in keys <==> exists d | d in docs :: d.cls == k by {
      forall k | k in keys ensures exists d | d in docs :: d.cls == k {
        var i :| 0 <= i < |keys| && keys[i] == k;
        assert docs[i] in docs;
      }
    }
  }

  /** `group_by_category`: documents grouped by their class's category; `ImproperlyConfigured` when one has none. */
  method GroupByCategory(docs: seq<Model>) returns (r: Result<(map<DataCategory, seq<Model>>, seq<DataCategory>), Error>)
    ensures r.Err? <==> exists i | 0 <= i < |docs| :: GetCategory(docs[i].cls).Err?
    ensures r.Err? ==> r.error == ImproperlyConfigured
    ensures r.Ok? ==>
      var keys := KeysOf(docs, (d: Model) => GetCategory(d.cls));
      && r.value.1 == FirstOccurrences(keys)
      && r.value.0.Keys == (set k | k in keys)
      && forall k | k in r.value.0 :: r.value.0[k] == Group(docs, keys, k)
  {
    r := GroupBy(docs, (d: Model) => GetCategory(d.cls));
  }

  // ---------------------------------------------------------------------
  // Lemmas
  // ---------------------------------------------------------------------

  /** A document is in the group of a key exactly when it occurs in the input with that key. */
  lemma {:induction false} GroupMembership<T, K>(docs: seq<T>, keys: seq<K>, k: K, x: T)
    requires |docs| == |keys|
    ensures x in Group(docs, keys, k) <==> exists i | 0 <= i < |docs| :: docs[i] == x && keys[i] == k
  {
    if docs != [] {
      var n := |docs| - 1;
      GroupMembership(docs[..n], keys[..n], k, x);
      if x in Group(docs, keys, k) && !(x in Group(docs[..n], keys[..n], k)) {
        assert docs[n] == x && keys[n] == k;
      }
      if exists i | 0 <= i < |docs| :: docs[i] == x && keys[i] == k {
        var i :| 0 <= i < |docs| && docs[i] == x && keys[i] == k;
        if i < n {
          assert docs[..n][i] == x && keys[..n][i] == k;
        }
      }
    }
  }

  /** The first occurrences are distinct and are exactly the keys that occur. */
  lemma {:induction false} FirstOccurrencesDistinct<K>(keys: seq<K>)
    ensures Distinct(FirstOccurrences(keys))
    ensures forall k :: k in FirstOccurrences(keys) <==> k in keys
  {
    if keys != [] {
      var n := |keys| - 1;
      FirstOccurrencesDistinct(keys[..n]);
      assert keys == keys[..n] + [keys[n]];
    }
  }

  /** The total size of the groups of a set of distinct keys. */
  function SumSizes<T, K(==)>(docs: seq<T>, keys: seq<K>, ks: seq<K>): nat
    requires |docs| == |keys|
  {
    if ks == [] then 0 else |Group(docs, keys, ks[0])| + SumSizes(docs, keys, ks[1..])
  }

  lemma {:induction false} SumSizesGrow<T, K>(docs: seq<T>, keys: seq<K>, d: T, k: K, ks: seq<K>)
    requires |docs| == |keys| && Distinct(ks)
    ensures SumSizes(docs + [d], keys + [k], ks) == SumSizes(docs, keys, ks) + (if k in ks then 1 else 0)
  {
    var docs', keys' := docs + [d], keys + [k];
    assert docs'[..|docs|] == docs && keys'[..|keys|] == keys;
    if ks != [] {
      SumSizesGrow(docs, keys, d, k, ks[1..]);
      assert k in ks <==> k == ks[0] || k in ks[1..];
    }
  }

  lemma {:induction false} SumSizesAppend<T, K>(docs: seq<T>, keys: seq<K>, ks: seq<K>, k: K)
    requires |docs| == |keys|
    ensures SumSizes(docs, keys, ks + [k]) == SumSizes(docs, keys, ks) + |Group(docs, keys, k)|
  {
    if ks != [] {
      assert (ks + [k])[1..] == ks[1..] + [k];
      SumSizesAppend(docs, keys, ks[1..], k);
    }
  }

  lemma {:induction false} GroupOfAbsentKey<T, K>(docs: seq<T>, keys: seq<K>, k: K)
    requires |docs| == |keys| && k !in keys
    ensures Group(docs, keys, k) == []
  {
    if docs != [] {
      var n := |docs| - 1;
      GroupOfAbsentKey(docs[..n], keys[..n], k);
    }
  }

  /** Appending a document adds it to the end of its key's group and leaves the other groups alone. */
  lemma GroupSnoc<T, K>(docs: seq<T>, keys: seq<K>, d: T, key: K, k: K)
    requires |docs| == |keys|
    ensures Group(docs + [d], keys + [key], k) == Group(docs, keys, k) + (if key == k then [d] else [])
  {
    assert (docs + [d])[..|docs|] == docs && (keys + [key])[..|keys|] == keys;
  }

  /** Appending a key adds it to the first occurrences unless it occurred already. */
  lemma FirstOccurrencesSnoc<K>(keys: seq<K>, key: K)
    ensures FirstOccurrences(keys + [key]) ==
      if key in FirstOccurrences(keys) then FirstOccurrences(keys) else FirstOccurrences(keys) + [key]
  {
    assert (keys + [key])[..|keys|] == keys;
  }

  /** Every document lands in exactly one group: the group sizes add up to the number of documents. */
  lemma {:induction false} GroupSizesSum<T, K>(docs: seq<T>, keys: seq<K>)
    requires |docs| == |keys|
    ensures SumSizes(docs, keys, FirstOccurrences(keys)) == |docs|
  {
    if docs != [] {
      var n := |docs| - 1;
      var ks := FirstOccurrences(keys[..n]);
      GroupSizesSum(docs[..n], keys[..n]);
      FirstOccurrencesDistinct(keys[..n]);
      assert docs == docs[..n] + [docs[n]] && keys == keys[..n] + [keys[n]];
      SumSizesGrow(docs[..n], keys[..n], docs[n], keys[n], ks);
      if keys[n] !in ks {
        SumSizesAppend(docs, keys, ks, keys[n]);
        GroupOfAbsentKey(docs[..n], keys[..n], keys[n]);
      }
    }
  }
}
