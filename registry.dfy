/**
 * The configuration registry of vector documents: the getters that read the
 * inner `Config` class (and raise `ImproperlyConfigured` when it or the
 * attribute is missing), and the reverse lookup from a collection name to the
 * document class, a depth-first search through the subclass hierarchy.
 */
module Registry {
  import opened Wrappers
  import opened Exceptions
  import opened DataCategories
  import opened Models

  /** `cls.get_collection_name()`. */
  function GetCollectionName(c: PyClass): (r: Result<string, Error>)
    ensures r.Ok? <==> ConfigOf(c).Some? && ConfigOf(c).value.name.Some?
    ensures r.Err? ==> r.error == ImproperlyConfigured
    ensures r.Ok? ==> Some(r.value) == ConfigOf(c).value.name
  {
    match ConfigOf(c)
    case None => Err(ImproperlyConfigured)
    case Some(cfg) => if cfg.name.None? then Err(ImproperlyConfigured) else Ok(cfg.name.value)
  }

  /** `cls.get_category()`. */
  function GetCategory(c: PyClass): (r: Result<DataCategory, Error>)
    ensures r.Ok? <==> ConfigOf(c).Some? && ConfigOf(c).value.category.Some?
    ensures r.Err? ==> r.error == ImproperlyConfigured
    ensures r.Ok? ==> Some(r.value) == ConfigOf(c).value.category
  {
    match ConfigOf(c)
    case None => Err(ImproperlyConfigured)
    case Some(cfg) => if cfg.category.None? then Err(ImproperlyConfigured) else Ok(cfg.category.value)
  }

  /** `cls.get_use_vector_index()`. */
  function GetUseVectorIndex(c: PyClass): (r: Result<bool, Error>)
    ensures r.Ok? <==> ConfigOf(c).Some? && ConfigOf(c).value.useVectorIndex.Some?
    ensures r.Err? ==> r.error == ImproperlyConfigured
    ensures r.Ok? ==> Some(r.value) == ConfigOf(c).value.useVectorIndex
  {
    match ConfigOf(c)
    case None => Err(ImproperlyConfigured)
    case Some(cfg) => if cfg.useVectorIndex.None? then Err(ImproperlyConfigured) else Ok(cfg.useVectorIndex.value)
  }

  /** A class's own `Config` replaces the inherited one as a whole: a missing attribute is not looked up further. */
  lemma OwnConfigShadows(c: PyClass, cfg: Config)
    requires c.config == Some(cfg)
    ensures GetCollectionName(c).Ok? <==> cfg.name.Some?
    ensures GetCategory(c).Ok? <==> cfg.category.Some?
    ensures GetUseVectorIndex(c).Ok? <==> cfg.useVectorIndex.Some?
  {
  }

  /** Without a `Config` of its own, a class reads the first base's that has one. */
  lemma {:induction false} ConfigInherited(c: PyClass, i: nat)
    requires c.config.None? && i < |c.bases|
    requires ConfigOf(c.bases[i]).Some?
    requires forall j | 0 <= j < i :: ConfigOf(c.bases[j]).None?
    ensures GetCollectionName(c) == GetCollectionName(c.bases[i])
    ensures GetCategory(c) == GetCategory(c.bases[i])
    ensures GetUseVectorIndex(c) == GetUseVectorIndex(c.bases[i])
  {
    var xs := seq(|c.bases|, k requires 0 <= k < |c.bases| => ConfigOf(c.bases[k]));
    FirstSomeAt(xs, i);
  }

  lemma {:induction false} FirstSomeAt<T>(xs: seq<Option<T>>, i: nat)
    requires i < |xs| && xs[i].Some?
    requires forall j | 0 <= j < i :: xs[j].None?
    ensures FirstSome(xs) == xs[i]
  {
    if i > 0 {
      FirstSomeAt(xs[1..], i - 1);
    }
  }

  // ---------------------------------------------------------------------
  // collection_name_to_class
  // ---------------------------------------------------------------------

  /** A class with the tree of its subclasses, as `__subclasses__()` lists them. */
  datatype SubclassTree = Node(cls: PyClass, subclasses: seq<SubclassTree>)

  /**
   * `cls.collection_name_to_class(name)`: for each direct subclass in turn,
   * return it when its collection name matches (an unconfigured subclass is
   * skipped), else return what the search below it finds; `ValueError` when
   * nothing matches.
   */
  function CollectionNameToClass(t: SubclassTree, name: string): (r: Result<PyClass, Error>)
    ensures r.Ok? ==> GetCollectionName(r.value) == Ok(name)
    ensures r.Err? ==> r.error == ValueError
  {
    SearchSubclasses(t.subclasses, name)
  }

  function SearchSubclasses(ts: seq<SubclassTree>, name: string): (r: Result<PyClass, Error>)
    ensures r.Ok? ==> GetCollectionName(r.value) == Ok(name)
    ensures r.Err? ==> r.error == ValueError
  {
    if ts == [] then Err(ValueError)
    else if GetCollectionName(ts[0].cls) == Ok(name) then Ok(ts[0].cls)
    else
      var below := CollectionNameToClass(ts[0], name);
      if below.Ok? then below else SearchSubclasses(ts[1..], name)
  }

  /** Every class strictly below the root, in depth-first pre-order. */
  function Descendants(t: SubclassTree): seq<PyClass>
  {
    PreOrder(t.subclasses)
  }

  function PreOrder(ts: seq<SubclassTree>): seq<PyClass>
  {
    if ts == [] then [] else [ts[0].cls] + Descendants(ts[0]) + PreOrder(ts[1..])
  }

  /** The first class of a sequence whose collection name is `name`. */
  function FirstNamed(cs: seq<PyClass>, name: string): (r: Result<PyClass, Error>)
    ensures r.Ok? <==> exists i | 0 <= i < |cs| :: GetCollectionName(cs[i]) == Ok(name)
    ensures r.Ok? ==> exists i | 0 <= i < |cs| ::
      (cs[i] == r.value && GetCollectionName(cs[i]) == Ok(name)
       && forall j | 0 <= j < i :: GetCollectionName(cs[j]) != Ok(name))
    ensures r.Err? ==> r.error == ValueError
  {
    if cs == [] then Err(ValueError)
    else if GetCollectionName(cs[0]) == Ok(name) then Ok(cs[0])
    else
      var r := FirstNamed(cs[1..], name);
      assert forall i | 1 <= i < |cs| :: cs[i] == cs[1..][i - 1];
      r
  }

  lemma {:induction false} FirstNamedAppend(a: seq<PyClass>, b: seq<PyClass>, name: string)
    ensures FirstNamed(a + b, name) == if FirstNamed(a, name).Ok? then FirstNamed(a, name) else FirstNamed(b, name)
  {
    if a != [] {
      assert (a + b)[0] == a[0];
      assert (a + b)[1..] == a[1..] + b;
      FirstNamedAppend(a[1..], b, name);
    } else {
      assert a + b == b;
    }
  }

  /** The search returns the first matching subclass in depth-first pre-order, and `ValueError` when there is none. */
  lemma {:induction false} CollectionNameToClassIsFirstInPreOrder(t: SubclassTree, name: string)
    ensures CollectionNameToClass(t, name) == FirstNamed(Descendants(t), name)
    decreases t, 1
  {
    SearchIsFirstInPreOrder(t.subclasses, name);
  }

  lemma {:induction false} SearchIsFirstInPreOrder(ts: seq<SubclassTree>, name: string)
    ensures SearchSubclasses(ts, name) == FirstNamed(PreOrder(ts), name)
    decreases ts, 0
  {
    if ts != [] {
      var head, rest := [ts[0].cls], Descendants(ts[0]) + PreOrder(ts[1..]);
      assert PreOrder(ts) == head + rest;
      FirstNamedAppend(head, rest, name);
      CollectionNameToClassIsFirstInPreOrder(ts[0], name);
      FirstNamedAppend(Descendants(ts[0]), PreOrder(ts[1..]), name);
      SearchIsFirstInPreOrder(ts[1..], name);
    }
  }
}
