/**
 * The document-store base of the domain documents: the codec between a
 * document and a stored dict (`to_mongo`/`from_mongo`, which rename
 * `id` and `_id` and stringify top-level UUIDs), the collection-name lookup in
 * the inner `Settings` class, and the repository operations over the store.
 */
module NoSql {
  import opened Wrappers
  import opened Exceptions
  import opened Uuids
  import opened Values
  import opened Models
  import opened Mongo

  // ---------------------------------------------------------------------
  // Codec
  // ---------------------------------------------------------------------

  /** Every top-level UUID of a dict as a string; nested values untouched. */
  function StrTopMap(d: map<string, Value>): (r: map<string, Value>)
    ensures r.Keys == d.Keys
    ensures forall k | k in r :: r[k] == StrTop(d[k]) && !r[k].VUuid?
  {
    map k | k in d :: StrTop(d[k])
  }

  /** The loop of `_model_dump` and `to_mongo` that rewrites each top-level UUID value as a string. */
  method StringifyTopLevel(d: map<string, Value>) returns (r: map<string, Value>)
    ensures r == StrTopMap(d)
  {
    r := d;
    var todo := d.Keys;
    while todo != {}
      invariant todo <= d.Keys && r.Keys == d.Keys
      invariant forall k | k in todo :: r[k] == d[k]
      invariant forall k | k in d.Keys - todo :: r[k] == StrTop(d[k])
      decreases todo
    {
      var k :| k in todo;
      if r[k].VUuid? {
        r := r[k := VStr(ToStr(r[k].u))];
      }
      todo := todo - {k};
    }
  }

  /** `_model_dump()`: pydantic's dump with each top-level UUID as a string. */
  function ModelDumpOf(m: Model): (d: map<string, Value>)
    ensures "id" in d && d["id"] == VStr(ToStr(m.id))
  {
    StrTopMap(Dump(m))
  }

  /** The dict `to_mongo` produces: the dump with `id` renamed to `_id` unless a field already is `_id`. */
  function MongoOf(m: Model): Doc
  {
    var parsed := ModelDumpOf(m);
    var renamed := if "_id" !in parsed then (parsed - {"id"})["_id" := parsed["id"]] else parsed;
    StrTopMap(renamed)
  }

  /** `doc.to_mongo()` with its defaults (all fields, keyed by alias). */
  method ToMongo(m: Model) returns (parsed: Doc)
    ensures parsed == MongoOf(m)
  {
    parsed := StringifyTopLevel(Dump(m));
    if "_id" !in parsed && "id" in parsed {
      var idValue := parsed["id"];
      parsed := (parsed - {"id"})["_id" := VStr(idValue.s)];
    }
    parsed := StringifyTopLevel(parsed);
  }

  /** `uuid.UUID(value)` on whatever `_id` holds. */
  function UuidOfValue(v: Value): (r: Result<Uuid, Error>)
    ensures r.Ok? <==> v.VStr? && Parse(v.s).Some?
    ensures r.Ok? ==> r.value == Parse(v.s).value
    ensures r.Err? ==> r.error in {ValueError, TypeError, AttributeError}
  {
    match v
    case VStr(s) => if Parse(s).Some? then Ok(Parse(s).value) else Err(ValueError)
    case VNone => Err(TypeError)
    case _ => Err(AttributeError)
  }

  /**
   * `cls.from_mongo(data)`: `ValueError` on an empty dict, `KeyError` without
   * `_id`; otherwise the `_id` parsed as the id, the remaining entries as the
   * other arguments (`TypeError` if one of them is `id` too), and validation.
   */
  function FromMongoOf(c: PyClass, data: Doc): (r: Result<Model, Error>)
    ensures data == map[] ==> r == Err(ValueError)
    ensures data != map[] && "_id" !in data ==> r == Err(KeyError)
    ensures r.Ok? ==> "_id" in data && UuidOfValue(data["_id"]) == Ok(r.value.id) && r.value.cls == c
    ensures r.Ok? ==> IsV4(r.value.id)
  {
    if data == map[] then Err(ValueError)
    else if "_id" !in data then Err(KeyError)
    else
      var rest := data - {"_id"};
      match UuidOfValue(data["_id"])
      case Err(e) => Err(e)
      case Ok(u) => if "id" in rest then Err(TypeError) else Construct(c, rest["id" := VUuid(u)], u)
  }

  /** `cls.from_mongo(data)` also pops `_id` out of the caller's dict once it has been found. */
  method FromMongo(c: PyClass, data: Doc) returns (r: Result<Model, Error>, remaining: Doc)
    ensures r == FromMongoOf(c, data)
    ensures remaining == if data != map[] && "_id" in data then data - {"_id"} else data
  {
    remaining := data;
    if data == map[] {
      return Err(ValueError), remaining;
    }
    if "_id" !in remaining {
      return Err(KeyError), remaining;
    }
    var id := remaining["_id"];
    remaining := remaining - {"_id"};
    var u := UuidOfValue(id);
    if u.Err? {
      return Err(u.error), remaining;
    }
    if "id" in remaining {
      return Err(TypeError), remaining;
    }
    r := Construct(c, remaining["id" := VUuid(u.value)], u.value);
  }

  /** `cls.get_collection_name()`: `Settings.name`, `ImproperlyConfigured` when it or `Settings` is missing. */
  function CollectionName(c: PyClass): (r: Result<string, Error>)
    ensures r.Ok? <==> SettingsOf(c).Some? && SettingsOf(c).value.name.Some?
    ensures r.Err? ==> r.error == ImproperlyConfigured
    ensures r.Ok? ==> Some(r.value) == SettingsOf(c).value.name
  {
    match SettingsOf(c)
    case None => Err(ImproperlyConfigured)
    case Some(s) => if s.name.None? then Err(ImproperlyConfigured) else Ok(s.name.value)
  }

  // ---------------------------------------------------------------------
  // Codec lemmas
  // ---------------------------------------------------------------------

  /** `to_mongo` stores the id as the string `_id`, drops `id`, and stringifies exactly the top-level UUIDs. */
  lemma ToMongoShape(m: Model)
    requires "_id" !in m.fields
    ensures MongoOf(m).Keys == m.fields.Keys - {"id"} + {"_id"}
    ensures MongoOf(m)["_id"] == VStr(ToStr(m.id))
    ensures forall k | k in m.fields && k != "id" :: MongoOf(m)[k] == StrTop(m.fields[k])
    ensures forall k | k in MongoOf(m) :: !MongoOf(m)[k].VUuid?
    ensures forall k | k in m.fields && k != "id" && !m.fields[k].VUuid? :: MongoOf(m)[k] == m.fields[k]
  {
  }

  /** A document that survives the trip through the store: every UUID it holds at top level is in a UUID field. */
  predicate MongoSafe(m: Model)
  {
    && Conforms(m) && IsV4(m.id) && "_id" !in m.fields
    && forall k | k in m.fields :: FieldMap(m.cls)[k].typ == TUuid4 || !m.fields[k].VUuid?
  }

  /** The `_id` that `to_mongo` writes parses back to the id, and no other entry is keyed `id`. */
  lemma MongoIdParses(m: Model)
    requires "_id" !in m.fields
    ensures "_id" in MongoOf(m) && UuidOfValue(MongoOf(m)["_id"]) == Ok(m.id)
    ensures "id" !in MongoOf(m) - {"_id"}
  {
    ToMongoShape(m);
    ParseToStr(m.id);
  }

  /** The arguments `from_mongo` passes to the class for a stored document. */
  function MongoArguments(m: Model): map<string, Value>
  {
    (MongoOf(m) - {"_id"})["id" := VUuid(m.id)]
  }

  /** Those arguments validate back to the document's own fields. */
  lemma MongoArgumentsRebuild(m: Model)
    requires MongoSafe(m)
    ensures Construct(m.cls, MongoArguments(m), m.id) == Ok(m)
  {
    ToMongoShape(m);
    var kwargs := MongoArguments(m);
    var fm := FieldMap(m.cls);
    forall k | k in fm ensures k in kwargs && Coerce(fm[k].typ, kwargs[k]) == Ok(m.fields[k]) {
      CoerceAfterStrTop(fm[k].typ, m.fields[k]);
    }
    ConstructRebuilds(m, kwargs);
  }

  /** `from_mongo` inverts `to_mongo`. */
  lemma FromMongoToMongo(m: Model)
    requires MongoSafe(m)
    ensures FromMongoOf(m.cls, MongoOf(m)) == Ok(m)
  {
    MongoIdParses(m);
    MongoArgumentsRebuild(m);
  }

  /** Hence a document read back is `==` to the one stored. */
  lemma FromMongoToMongoEqual(m: Model)
    requires MongoSafe(m)
    ensures FromMongoOf(m.cls, MongoOf(m)).Ok? && OperatorEq(FromMongoOf(m.cls, MongoOf(m)).value, m)
  {
    FromMongoToMongo(m);
    OperatorEqIsIdentity(m, m);
  }

  /** A stored dict whose `_id` is not a UUID string is refused before validation. */
  lemma FromMongoBadId(c: PyClass, data: Doc)
    requires "_id" in data && UuidOfValue(data["_id"]).Err?
    ensures FromMongoOf(c, data) == Err(UuidOfValue(data["_id"]).error)
  {
  }

  // ---------------------------------------------------------------------
  // Repository
  // ---------------------------------------------------------------------

  /** `doc.save()`: the document once stored; `None` when the store refuses it with a write error. */
  method Save(store: MongoStore, m: Model) returns (r: Result<Option<Model>, Error>)
    requires store.Valid()
    modifies store
    ensures store.Valid() && store.queriesFail == old(store.queriesFail)
    ensures CollectionName(m.cls).Err? ==> r == Err(ImproperlyConfigured) && store.collections == old(store.collections)
    ensures CollectionName(m.cls).Ok? ==>
      var name := CollectionName(m.cls).value;
      if Conflicts(old(store.Docs(name)), MongoOf(m)) then
        r == Ok(None) && store.collections == old(store.collections)
      else
        r == Ok(Some(m)) && store.collections == old(store.collections)[name := old(store.Docs(name)) + [MongoOf(m)]]
  {
    var name := CollectionName(m.cls);
    if name.Err? {
      return Err(name.error);
    }
    var d := ToMongo(m);
    var inserted := store.InsertOne(name.value, d);
    if inserted.Err? {
      return Ok(None);
    }
    return Ok(Some(m));
  }

  /**
   * `cls.get_or_create(**filter_options)`: the first stored match, read back,
   * with nothing written; otherwise a new document built from the filter,
   * saved and returned whether or not the save went through.  A failing query
   * is re-raised.  `generated` is the fresh `uuid.uuid4()` the new document
   * would take when the filter names no id.
   */
  method GetOrCreate(store: MongoStore, c: PyClass, filter: map<string, Value>, generated: Uuid)
    returns (r: Result<Model, Error>)
    requires store.Valid() && IsV4(generated)
    modifies store
    ensures store.Valid() && store.queriesFail == old(store.queriesFail)
    ensures r.Ok? ==> IsV4(r.value.id)
    ensures CollectionName(c).Err? ==> r == Err(ImproperlyConfigured) && store.collections == old(store.collections)
    ensures store.queriesFail && CollectionName(c).Ok? ==>
      r == Err(OperationFailure) && store.collections == old(store.collections)
    ensures !store.queriesFail && CollectionName(c).Ok? ==>
      var name := CollectionName(c).value;
      var found := FirstMatch(old(store.Docs(name)), filter);
      if found.Some? && found.value != map[] then
        r == FromMongoOf(c, found.value) && store.collections == old(store.collections)
      else if Construct(c, filter, generated).Err? then
        r == Err(ValidationError) && store.collections == old(store.collections)
      else
        var created := Construct(c, filter, generated).value;
        && r == Ok(created)
        && store.collections == if Conflicts(old(store.Docs(name)), MongoOf(created)) then old(store.collections)
                                 else old(store.collections)[name := old(store.Docs(name)) + [MongoOf(created)]]
  {
    var name := CollectionName(c);
    if name.Err? {
      return Err(name.error);
    }
    var found := store.FindOne(name.value, filter);
    if found.Err? {
      return Err(found.error);
    }
    if found.value.Some? && found.value.value != map[] {
      var doc, _ := FromMongo(c, found.value.value);
      return doc;
    }
    var created := Construct(c, filter, generated);
    if created.Err? {
      return Err(created.error);
    }
    var _ := Save(store, created.value);
    return created;
  }

  function MongoOfAll(docs: seq<Model>): (ds: seq<Doc>)
    ensures |ds| == |docs| && forall i | 0 <= i < |docs| :: ds[i] == MongoOf(docs[i])
  {
    seq(|docs|, i requires 0 <= i < |docs| => MongoOf(docs[i]))
  }

  /** `cls.bulk_insert(documents)`: true when the batch goes in whole, false on a clash (the earlier documents stay). */
  method BulkInsert(store: MongoStore, c: PyClass, docs: seq<Model>) returns (r: Result<bool, Error>)
    requires store.Valid()
    modifies store
    ensures store.Valid() && store.queriesFail == old(store.queriesFail)
    ensures CollectionName(c).Err? ==> r == Err(ImproperlyConfigured) && store.collections == old(store.collections)
    ensures CollectionName(c).Ok? && docs == [] ==> r == Err(InvalidOperation) && store.collections == old(store.collections)
    ensures CollectionName(c).Ok? && docs != [] ==>
      var name, ds := CollectionName(c).value, MongoOfAll(docs);
      var k := Accepted(old(store.Docs(name)), ds);
      && r == Ok(k == |ds|)
      && store.collections == old(store.collections)[name := old(store.Docs(name)) + ds[..k]]
  {
    var name := CollectionName(c);
    if name.Err? {
      return Err(name.error);
    }
    var ds: seq<Doc> := [];
    var i := 0;
    while i < |docs|
      invariant 0 <= i <= |docs|
      invariant ds == MongoOfAll(docs[..i])
      invariant unchanged(store)
    {
      var d := ToMongo(docs[i]);
      ds := ds + [d];
      i := i + 1;
      assert docs[..i] == docs[..i - 1] + [docs[i - 1]];
    }
    assert docs[..i] == docs;
    var inserted := store.InsertMany(name.value, ds);
    if inserted.Err? {
      if inserted.error == BulkWriteError {
        return Ok(false);
      }
      return Err(inserted.error);
    }
    return Ok(true);
  }

  /** `cls.find(**filter_options)`: the first match read back; `None` when nothing matches or the query fails. */
  method Find(store: MongoStore, c: PyClass, filter: map<string, Value>) returns (r: Result<Option<Model>, Error>)
    ensures CollectionName(c).Err? ==> r == Err(ImproperlyConfigured)
    ensures CollectionName(c).Ok? && store.queriesFail ==> r == Ok(None)
    ensures CollectionName(c).Ok? && !store.queriesFail ==>
      var found := FirstMatch(store.Docs(CollectionName(c).value), filter);
      if found.Some? && found.value != map[] then
        match FromMongoOf(c, found.value)
        case Ok(m) => r == Ok(Some(m))
        case Err(e) => r == Err(e)
      else r == Ok(None)
    ensures r.Err? ==> r.error != OperationFailure
  {
    var name := CollectionName(c);
    if name.Err? {
      return Err(name.error);
    }
    var found := store.FindOne(name.value, filter);
    if found.Err? {
      return Ok(None);
    }
    if found.value.Some? && found.value.value != map[] {
      var doc, _ := FromMongo(c, found.value.value);
      if doc.Err? {
        return Err(doc.error);
      }
      return Ok(Some(doc.value));
    }
    return Ok(None);
  }

  /** Stored document `i` is the first that `from_mongo` rejects, and it raises `e`. */
  predicate MongoFailsFirstAt(c: PyClass, docs: seq<Doc>, i: int, e: Error)
  {
    && 0 <= i < |docs| && FromMongoOf(c, docs[i]) == Err(e)
    && forall j | 0 <= j < i :: FromMongoOf(c, docs[j]).Ok?
  }

  /** `[cls.from_mongo(d) for d in docs]`: the documents in order, or the first error. */
  function FromMongoAll(c: PyClass, docs: seq<Doc>): (r: Result<seq<Model>, Error>)
    ensures r.Ok? <==> forall i | 0 <= i < |docs| :: FromMongoOf(c, docs[i]).Ok?
    ensures r.Ok? ==> |r.value| == |docs| && forall i | 0 <= i < |docs| :: r.value[i] == FromMongoOf(c, docs[i]).value
    ensures r.Err? ==> exists i :: MongoFailsFirstAt(c, docs, i, r.error)
  {
    if docs == [] then Ok([])
    else match FromMongoOf(c, docs[0])
      case Err(e) => assert MongoFailsFirstAt(c, docs, 0, e); Err(e)
      case Ok(m) =>
        match FromMongoAll(c, docs[1..])
        case Err(e) => MongoFailsFirstAtShift(c, docs, e); Err(e)
        case Ok(ms) => Ok([m] + ms)
  }

  /** A first failure in the tail is the first failure overall when the head is accepted. */
  lemma MongoFailsFirstAtShift(c: PyClass, docs: seq<Doc>, e: Error)
    requires |docs| > 0 && FromMongoOf(c, docs[0]).Ok?
    requires exists i :: MongoFailsFirstAt(c, docs[1..], i, e)
    ensures exists i :: MongoFailsFirstAt(c, docs, i, e)
  {
    var i :| MongoFailsFirstAt(c, docs[1..], i, e);
    assert MongoFailsFirstAt(c, docs, i + 1, e) by {
      forall j | 0 <= j < i + 1 ensures FromMongoOf(c, docs[j]).Ok? {
        if j > 0 {
          assert docs[j] == docs[1..][j - 1];
        }
      }
    }
  }

  /** `cls.bulk_find(**filter_options)`: every match read back, in stored order; `[]` when the query fails. */
  method BulkFind(store: MongoStore, c: PyClass, filter: map<string, Value>) returns (r: Result<seq<Model>, Error>)
    ensures CollectionName(c).Err? ==> r == Err(ImproperlyConfigured)
    ensures CollectionName(c).Ok? && store.queriesFail ==> r == Ok([])
    ensures CollectionName(c).Ok? && !store.queriesFail ==>
      r == FromMongoAll(c, AllMatches(store.Docs(CollectionName(c).value), filter))
    ensures r.Err? ==> r.error != OperationFailure
  {
    var name := CollectionName(c);
    if name.Err? {
      return Err(name.error);
    }
    var found := store.Find(name.value, filter);
    if found.Err? {
      return Ok([]);
    }
    r := FromMongoAll(c, found.value);
    if r.Err? {
      FromMongoErrors(c, found.value);
    }
  }

  lemma {:induction false} FromMongoErrors(c: PyClass, docs: seq<Doc>)
    requires FromMongoAll(c, docs).Err?
    ensures FromMongoAll(c, docs).error != OperationFailure
  {
    var i :| 0 <= i < |docs| && FromMongoOf(c, docs[i]) == Err(FromMongoAll(c, docs).error);
  }

  /** Saving a safe document and then finding by its `_id` finds exactly the saved dict, which reads back as the document. */
  lemma SavedIsFound(m: Model, stored: seq<Doc>)
    requires MongoSafe(m) && !Conflicts(stored, MongoOf(m))
    ensures FirstMatch(stored + [MongoOf(m)], map["_id" := VStr(ToStr(m.id))]) == Some(MongoOf(m))
    ensures FromMongoOf(m.cls, MongoOf(m)) == Ok(m)
  {
    ToMongoShape(m);
    var filter := map["_id" := VStr(ToStr(m.id))];
    assert Matches(MongoOf(m), filter);
    forall i | 0 <= i < |stored| ensures !Matches(stored[i], filter) {
      if "_id" in stored[i] {
        assert stored[i]["_id"] != MongoOf(m)["_id"];
      }
    }
    FirstMatchAppend(stored, MongoOf(m), filter);
    FromMongoToMongo(m);
  }

  /** A matching document appended after documents that do not match is the first match. */
  lemma {:induction false} FirstMatchAppend(docs: seq<Doc>, d: Doc, filter: map<string, Value>)
    requires Matches(d, filter) && forall i | 0 <= i < |docs| :: !Matches(docs[i], filter)
    ensures FirstMatch(docs + [d], filter) == Some(d)
  {
    if docs != [] {
      assert (docs + [d])[1..] == docs[1..] + [d];
      FirstMatchAppend(docs[1..], d, filter);
    }
  }
}
