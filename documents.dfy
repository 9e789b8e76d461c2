/**
 * The domain documents stored in the document store: users, and the
 * repository, post and article documents that share the `Document` fields.
 */
module Documents {
  import opened Wrappers
  import opened Exceptions
  import opened Uuids
  import opened Values
  import opened DataCategories
  import opened Models
  import opened NoSql
  import opened SplitNames

  /** `NoSQLBaseDocument`: only the `id`, whose default comes from `uuid4`. */
  const NoSqlBase: PyClass := PyClass("NoSQLBaseDocument", [FieldDecl("id", None, TUuid4, None)], None, None, [])

  const UserDocument: PyClass := PyClass(
    "UserDocument",
    [FieldDecl("first_name", None, TStr, None), FieldDecl("last_name", None, TStr, None)],
    None, Some(Settings(Some("users"))), [NoSqlBase])

  /** `Document`: the fields every crawled document has; it names no collection. */
  const DocumentClass: PyClass := PyClass(
    "Document",
    [ FieldDecl("content", None, TDict, None),
      FieldDecl("platform", None, TStr, None),
      FieldDecl("author_id", Some("authorId"), TUuid4, None),
      FieldDecl("author_full_name", Some("author_full_name"), TStr, None) ],
    None, None, [NoSqlBase])

  const RepositoryDocument: PyClass := PyClass(
    "RepositoryDocument",
    [FieldDecl("name", None, TStr, None), FieldDecl("link", None, TStr, None)],
    None, Some(Settings(Some(ValueOf(Repositories)))), [DocumentClass])

  const PostDocument: PyClass := PyClass(
    "PostDocument",
    [FieldDecl("image", None, TOptStr, Some(VNone)), FieldDecl("link", None, TOptStr, Some(VNone))],
    None, Some(Settings(Some(ValueOf(Posts)))), [DocumentClass])

  const ArticleDocument: PyClass := PyClass(
    "ArticleDocument",
    [FieldDecl("link", None, TStr, None)],
    None, Some(Settings(Some(ValueOf(Articles)))), [DocumentClass])

  /** The classes that can be instantiated and stored. */
  predicate IsStoredClass(c: PyClass)
  {
    c in {UserDocument, RepositoryDocument, PostDocument, ArticleDocument}
  }

  /** `user.full_name`: the first and the last name with a space between. */
  function FullName(user: Model): string
    requires user.cls == UserDocument && Conforms(user)
  {
    UserFields();
    user.fields["first_name"].s + " " + user.fields["last_name"].s
  }

  /** Splitting a user's full name always succeeds, and gives back both names when the last one holds no space. */
  lemma FullNameSplits(user: Model)
    requires user.cls == UserDocument && Conforms(user)
    ensures SplitUserFullName(Some(FullName(user))).Ok?
    ensures ' ' !in user.fields["last_name"].s ==>
      SplitUserFullName(Some(FullName(user))) == Ok((user.fields["first_name"].s, user.fields["last_name"].s))
  {
    UserFields();
    var first, last := user.fields["first_name"], user.fields["last_name"];
    assert Coerce(TStr, first) == Ok(first) && Coerce(TStr, last) == Ok(last);
    if ' ' !in last.s {
      SplitUserFullNameRoundTrip(first.s, last.s);
    }
  }

  // ---------------------------------------------------------------------
  // The classes' fields
  // ---------------------------------------------------------------------

  lemma {:induction false} OwnFieldsSnoc(ds: seq<FieldDecl>, d: FieldDecl)
    ensures OwnFields(ds + [d]) == OwnFields(ds)[Key(d) := d]
  {
    assert (ds + [d])[..|ds|] == ds;
  }

  lemma {:induction false} InheritedFromOne(b: PyClass)
    ensures InheritedFields([b]) == FieldMap(b)
  {
    assert [b][1..] == [];
  }

  lemma BaseFields()
    ensures FieldMap(NoSqlBase) == map[]
  {
    OwnFieldsSnoc([], FieldDecl("id", None, TUuid4, None));
  }

  lemma UserFields()
    ensures FieldMap(UserDocument) == map[
      "first_name" := FieldDecl("first_name", None, TStr, None),
      "last_name" := FieldDecl("last_name", None, TStr, None)]
  {
    BaseFields();
    InheritedFromOne(NoSqlBase);
    var d0, d1 := FieldDecl("first_name", None, TStr, None), FieldDecl("last_name", None, TStr, None);
    OwnFieldsSnoc([], d0);
    OwnFieldsSnoc([d0], d1);
    assert UserDocument.annotations == [d0] + [d1];
  }

  /** The fields `Document` declares, by key. */
  const DocumentFieldMap: map<string, FieldDecl> := map[
    "content" := FieldDecl("content", None, TDict, None),
    "platform" := FieldDecl("platform", None, TStr, None),
    "authorId" := FieldDecl("author_id", Some("authorId"), TUuid4, None),
    "author_full_name" := FieldDecl("author_full_name", Some("author_full_name"), TStr, None)]

  lemma DocumentFields()
    ensures FieldMap(DocumentClass) == DocumentFieldMap
  {
    BaseFields();
    InheritedFromOne(NoSqlBase);
    var ds := DocumentClass.annotations;
    OwnFieldsSnoc([], ds[0]);
    OwnFieldsSnoc([ds[0]], ds[1]);
    OwnFieldsSnoc([ds[0], ds[1]], ds[2]);
    OwnFieldsSnoc([ds[0], ds[1], ds[2]], ds[3]);
    assert [ds[0]] == [] + [ds[0]];
    assert [ds[0], ds[1]] == [ds[0]] + [ds[1]];
    assert [ds[0], ds[1], ds[2]] == [ds[0], ds[1]] + [ds[2]];
    assert ds == [ds[0], ds[1], ds[2]] + [ds[3]];
    assert Key(ds[2]) == "authorId";
    assert OwnFields(ds) == DocumentFieldMap;
  }

  /** A class with one base adds its own fields to the base's. */
  lemma {:induction false} FieldsBelow(c: PyClass, base: PyClass, own: map<string, FieldDecl>)
    requires c.bases == [base] && OwnFields(c.annotations) == own && "id" !in own
    ensures FieldMap(c) == FieldMap(base) + own
  {
    InheritedFromOne(base);
    var all := FieldMap(base) + own;
    assert "id" !in all;
    assert all - {"id"} == all;
  }

  lemma RepositoryFields()
    ensures FieldMap(RepositoryDocument) == DocumentFieldMap + map[
      "name" := FieldDecl("name", None, TStr, None),
      "link" := FieldDecl("link", None, TStr, None)]
  {
    var d0, d1 := FieldDecl("name", None, TStr, None), FieldDecl("link", None, TStr, None);
    OwnFieldsSnoc([], d0);
    OwnFieldsSnoc([d0], d1);
    assert RepositoryDocument.annotations == [d0] + [d1];
    DocumentFields();
    FieldsBelow(RepositoryDocument, DocumentClass, map["name" := d0, "link" := d1]);
  }

  lemma PostFields()
    ensures FieldMap(PostDocument) == DocumentFieldMap + map[
      "image" := FieldDecl("image", None, TOptStr, Some(VNone)),
      "link" := FieldDecl("link", None, TOptStr, Some(VNone))]
  {
    var d0, d1 := FieldDecl("image", None, TOptStr, Some(VNone)), FieldDecl("link", None, TOptStr, Some(VNone));
    OwnFieldsSnoc([], d0);
    OwnFieldsSnoc([d0], d1);
    assert PostDocument.annotations == [d0] + [d1];
    DocumentFields();
    FieldsBelow(PostDocument, DocumentClass, map["image" := d0, "link" := d1]);
  }

  lemma ArticleFields()
    ensures FieldMap(ArticleDocument) == DocumentFieldMap + map["link" := FieldDecl("link", None, TStr, None)]
  {
    var d0 := FieldDecl("link", None, TStr, None);
    OwnFieldsSnoc([], d0);
    assert ArticleDocument.annotations == [] + [d0];
    DocumentFields();
    FieldsBelow(ArticleDocument, DocumentClass, map["link" := d0]);
  }

  // ---------------------------------------------------------------------
  // Properties
  // ---------------------------------------------------------------------

  /** The four stored classes name their collections; `Document` and the base name none. */
  lemma CollectionNames()
    ensures CollectionName(UserDocument) == Ok("users")
    ensures CollectionName(RepositoryDocument) == Ok("repositories")
    ensures CollectionName(PostDocument) == Ok("posts")
    ensures CollectionName(ArticleDocument) == Ok("articles")
    ensures CollectionName(DocumentClass) == Err(ImproperlyConfigured)
    ensures CollectionName(NoSqlBase) == Err(ImproperlyConfigured)
  {
    assert SettingsOf(NoSqlBase) == None;
    assert SettingsOf(DocumentClass) == FirstSome([SettingsOf(NoSqlBase)]);
  }

  /** No two stored classes share a collection. */
  lemma CollectionsDistinct(c: PyClass, d: PyClass)
    requires IsStoredClass(c) && IsStoredClass(d) && c != d
    ensures CollectionName(c) != CollectionName(d)
  {
    CollectionNames();
  }

  /** Fields that hold no `_id`, no untyped value, and no default other than `None` on an optional string. */
  predicate PlainFields(fm: map<string, FieldDecl>)
  {
    && "_id" !in fm
    && (forall k | k in fm :: fm[k].typ != TAny)
    && (forall k | k in fm && fm[k].default.Some? :: fm[k].typ == TOptStr && fm[k].default == Some(VNone))
  }

  /** Every field of a stored class holds a string, a dict or a UUID, and none is keyed `_id`. */
  lemma StoredClassFields(c: PyClass)
    requires IsStoredClass(c)
    ensures "_id" !in FieldMap(c)
    ensures forall k | k in FieldMap(c) :: FieldMap(c)[k].typ != TAny
    ensures DefaultsConform(c)
  {
    if c == UserDocument {
      UserPlain();
    } else if c == RepositoryDocument {
      RepositoryPlain();
    } else if c == PostDocument {
      PostPlain();
    } else {
      ArticlePlain();
    }
  }

  lemma UserPlain()
    ensures PlainFields(FieldMap(UserDocument))
  {
    UserFields();
  }

  lemma RepositoryPlain()
    ensures PlainFields(FieldMap(RepositoryDocument))
  {
    RepositoryFields();
    DocumentPlain();
    PlainUnion(DocumentFieldMap, map[
      "name" := FieldDecl("name", None, TStr, None),
      "link" := FieldDecl("link", None, TStr, None)]);
  }

  lemma PostPlain()
    ensures PlainFields(FieldMap(PostDocument))
  {
    PostFields();
    DocumentPlain();
    PlainUnion(DocumentFieldMap, map[
      "image" := FieldDecl("image", None, TOptStr, Some(VNone)),
      "link" := FieldDecl("link", None, TOptStr, Some(VNone))]);
  }

  lemma ArticlePlain()
    ensures PlainFields(FieldMap(ArticleDocument))
  {
    ArticleFields();
    DocumentPlain();
    PlainUnion(DocumentFieldMap, map["link" := FieldDecl("link", None, TStr, None)]);
  }

  lemma DocumentPlain()
    ensures PlainFields(DocumentFieldMap)
  {
  }

  lemma PlainUnion(a: map<string, FieldDecl>, b: map<string, FieldDecl>)
    requires PlainFields(a) && PlainFields(b)
    ensures PlainFields(a + b)
  {
  }

  /** Hence every valid stored document survives the store: `from_mongo(to_mongo(doc))` is the document. */
  lemma StoredDocumentRoundTrip(m: Model)
    requires IsStoredClass(m.cls) && Conforms(m) && IsV4(m.id)
    ensures FromMongoOf(m.cls, MongoOf(m)) == Ok(m)
  {
    StoredClassFields(m.cls);
    var fm := FieldMap(m.cls);
    forall k | k in m.fields ensures fm[k].typ == TUuid4 || !m.fields[k].VUuid? {
      assert Coerce(fm[k].typ, m.fields[k]) == Ok(m.fields[k]);
    }
    FromMongoToMongo(m);
  }

  /** A post built without an image or a link has `None` for both. */
  lemma PostDefaults(kwargs: map<string, Value>, generated: Uuid)
    requires "image" !in kwargs && "link" !in kwargs
    requires Construct(PostDocument, kwargs, generated).Ok?
    ensures Construct(PostDocument, kwargs, generated).value.fields["image"] == VNone
    ensures Construct(PostDocument, kwargs, generated).value.fields["link"] == VNone
  {
    PostFields();
    ConstructField(PostDocument, kwargs, generated, "image");
    ConstructField(PostDocument, kwargs, generated, "link");
  }

  /** Articles and repositories require a link, and every document requires its author's id as `authorId`. */
  lemma RequiredFields(c: PyClass, kwargs: map<string, Value>, generated: Uuid)
    requires c in {ArticleDocument, RepositoryDocument}
    requires "link" !in kwargs || "authorId" !in kwargs
    ensures Construct(c, kwargs, generated) == Err(ValidationError)
  {
    if c == RepositoryDocument {
      RepositoryFields();
    } else {
      ArticleFields();
    }
    var k := if "link" !in kwargs then "link" else "authorId";
    assert FieldInput(FieldMap(c)[k], kwargs).Err?;
  }

  lemma AuthorIdField(c: PyClass)
    requires c in {RepositoryDocument, PostDocument, ArticleDocument}
    ensures "authorId" in FieldMap(c) && FieldMap(c)["authorId"] == DocumentFieldMap["authorId"]
  {
    if c == RepositoryDocument {
      RepositoryFields();
    } else if c == PostDocument {
      PostFields();
    } else {
      ArticleFields();
    }
  }

  /** The author id of a stored document is a version-4 UUID, whether it arrived as a UUID or as its string. */
  lemma AuthorIdIsV4(c: PyClass, kwargs: map<string, Value>, generated: Uuid)
    requires c in {RepositoryDocument, PostDocument, ArticleDocument}
    requires Construct(c, kwargs, generated).Ok?
    ensures var fields := Construct(c, kwargs, generated).value.fields;
      "authorId" in fields && fields["authorId"].VUuid? && IsV4(fields["authorId"].u)
  {
    AuthorIdField(c);
    var f := FieldMap(c)["authorId"];
    assert FieldInput(f, kwargs).Ok?;
    assert "authorId" in kwargs;
    assert Coerce(TUuid4, kwargs["authorId"]) == Ok(Construct(c, kwargs, generated).value.fields["authorId"]);
  }
}
