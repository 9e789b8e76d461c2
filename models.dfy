/**
 * The pydantic layer both document bases stand on: document classes (their
 * field declarations, their inner `Config`/`Settings` classes and their bases),
 * document instances, construction with validation (`cls(**kwargs)`),
 * `model_dump`, and the identity semantics of `__eq__`/`__hash__` that
 * `VectorBaseDocument` and `NoSQLBaseDocument` share.
 */
module Models {
  import opened Wrappers
  import opened Exceptions
  import opened Uuids
  import opened Values
  import opened DataCategories

  /** The field types the documents declare (`str`, `str | None`, `dict`, `UUID4`, anything else). */
  datatype FieldType = TStr | TOptStr | TDict | TUuid4 | TAny

  /** A pydantic field: its name, its alias, its type and its default (`None` = required). */
  datatype FieldDecl = FieldDecl(name: string, alias: Option<string>, typ: FieldType, default: Option<Value>)

  /** The inner `Config` class of a vector document; `None` = attribute missing. */
  datatype Config = Config(name: Option<string>, category: Option<DataCategory>, useVectorIndex: Option<bool>)

  /** The inner `Settings` class of a document-store document; `None` = attribute missing. */
  datatype Settings = Settings(name: Option<string>)

  /**
   * A document class: its own annotations, its own inner classes, and those of
   * its bases that are document classes.  Bases are searched depth first, left
   * to right (Python's method resolution order on the single-inheritance
   * hierarchies of this code).
   */
  datatype PyClass = PyClass(
    name: string,
    annotations: seq<FieldDecl>,
    config: Option<Config>,
    settings: Option<Settings>,
    bases: seq<PyClass>)

  /** A document: its class, its `id` and its other fields, keyed as `model_dump(by_alias=True)` keys them. */
  datatype Model = Model(cls: PyClass, id: Uuid, fields: map<string, Value>)

  /** The key of a field in a dump and in keyword arguments: its alias, else its name. */
  function Key(f: FieldDecl): string
  {
    f.alias.GetOr(f.name)
  }

  // ---------------------------------------------------------------------
  // Class attributes
  // ---------------------------------------------------------------------

  function FirstSome<T>(xs: seq<Option<T>>): (r: Option<T>)
    ensures r.Some? ==> exists i | 0 <= i < |xs| :: xs[i] == r
    ensures r.None? ==> forall i | 0 <= i < |xs| :: xs[i].None?
  {
    if xs == [] then None
    else if xs[0].Some? then xs[0]
    else FirstSome(xs[1..])
  }

  /** `cls.Config`, looked up through the bases when the class has none of its own. */
  function ConfigOf(c: PyClass): Option<Config>
  {
    if c.config.Some? then c.config
    else FirstSome(seq(|c.bases|, i requires 0 <= i < |c.bases| => ConfigOf(c.bases[i])))
  }

  /** `cls.Settings`, looked up through the bases when the class has none of its own. */
  function SettingsOf(c: PyClass): Option<Settings>
  {
    if c.settings.Some? then c.settings
    else FirstSome(seq(|c.bases|, i requires 0 <= i < |c.bases| => SettingsOf(c.bases[i])))
  }

  /** `VectorBaseDocument._has_class_attribute`: the class or one of its bases annotates `a`. */
  predicate HasClassAttribute(c: PyClass, a: string)
  {
    (exists i | 0 <= i < |c.annotations| :: c.annotations[i].name == a)
    || AnyBaseHasAttribute(c.bases, a)
  }

  predicate AnyBaseHasAttribute(bs: seq<PyClass>, a: string)
  {
    bs != [] && (HasClassAttribute(bs[0], a) || AnyBaseHasAttribute(bs[1..], a))
  }

  /** Every name annotated on the class or on any class above it. */
  function AnnotationNames(c: PyClass): set<string>
  {
    (set i | 0 <= i < |c.annotations| :: c.annotations[i].name) + BasesAnnotationNames(c.bases)
  }

  function BasesAnnotationNames(bs: seq<PyClass>): set<string>
  {
    if bs == [] then {} else AnnotationNames(bs[0]) + BasesAnnotationNames(bs[1..])
  }

  /** `issubclass(c, d)`. */
  predicate IsSubclass(c: PyClass, d: PyClass)
  {
    c == d || exists i | 0 <= i < |c.bases| :: IsSubclass(c.bases[i], d)
  }

  /** The length of the longest chain of bases above a class. */
  function Height(c: PyClass): nat
  {
    1 + MaxHeight(c.bases)
  }

  function MaxHeight(bs: seq<PyClass>): (h: nat)
    ensures forall i | 0 <= i < |bs| :: Height(bs[i]) <= h
  {
    if bs == [] then 0
    else var h1, h2 := Height(bs[0]), MaxHeight(bs[1..]); if h1 < h2 then h2 else h1
  }

  // ---------------------------------------------------------------------
  // Fields and construction
  // ---------------------------------------------------------------------

  /** The fields a class body declares, by key; a later declaration replaces an earlier one. */
  function OwnFields(ds: seq<FieldDecl>): (fm: map<string, FieldDecl>)
    ensures forall k | k in fm :: Key(fm[k]) == k
  {
    if ds == [] then map[] else OwnFields(ds[..|ds| - 1])[Key(ds[|ds| - 1]) := ds[|ds| - 1]]
  }

  /** The fields inherited from the bases; an earlier base wins over a later one. */
  function InheritedFields(bs: seq<PyClass>): (fm: map<string, FieldDecl>)
    ensures forall k | k in fm :: Key(fm[k]) == k
  {
    if bs == [] then map[] else InheritedFields(bs[1..]) + FieldMap(bs[0])
  }

  /** All fields of a class other than `id`, by key; the class's own declarations win. */
  function FieldMap(c: PyClass): (fm: map<string, FieldDecl>)
    ensures "id" !in fm
    ensures forall k | k in fm :: Key(fm[k]) == k
  {
    (InheritedFields(c.bases) + OwnFields(c.annotations)) - {"id"}
  }

  /** Pydantic's validation of one value against a field type (lax mode: a UUID may arrive as a string). */
  function Coerce(t: FieldType, v: Value): (r: Result<Value, Error>)
    ensures r.Err? ==> r.error == ValidationError
  {
    match t
    case TStr => if v.VStr? then Ok(v) else Err(ValidationError)
    case TOptStr => if v.VStr? || v.VNone? then Ok(v) else Err(ValidationError)
    case TDict => if v.VDict? then Ok(v) else Err(ValidationError)
    case TAny => Ok(v)
    case TUuid4 =>
      if v.VUuid? && IsV4(v.u) then Ok(v)
      else if v.VStr? && Parse(v.s).Some? && IsV4(Parse(v.s).value) then Ok(VUuid(Parse(v.s).value))
      else Err(ValidationError)
  }

  /** The value a field receives from keyword arguments, else from its default. */
  function FieldInput(f: FieldDecl, kwargs: map<string, Value>): Result<Value, Error>
  {
    if Key(f) in kwargs then Coerce(f.typ, kwargs[Key(f)])
    else if f.default.Some? then Ok(f.default.value)
    else Err(ValidationError)
  }

  /** The `id` a document receives: the `id` argument validated as a version-4 UUID, else the generated one. */
  function IdInput(kwargs: map<string, Value>, generated: Uuid): Result<Uuid, Error>
  {
    if "id" !in kwargs then Ok(generated)
    else match Coerce(TUuid4, kwargs["id"])
      case Ok(v) => if v.VUuid? then Ok(v.u) else Err(ValidationError)
      case Err(e) => Err(e)
  }

  predicate FieldsAccepted(c: PyClass, kwargs: map<string, Value>)
  {
    forall k | k in FieldMap(c) :: FieldInput(FieldMap(c)[k], kwargs).Ok?
  }

  /** Every field value is one its type accepts as it is. */
  predicate Conforms(m: Model)
  {
    && m.fields.Keys == FieldMap(m.cls).Keys
    && forall k | k in m.fields :: Coerce(FieldMap(m.cls)[k].typ, m.fields[k]) == Ok(m.fields[k])
  }

  /** Every default of the class is a value of its field's type (pydantic does not validate defaults). */
  predicate DefaultsConform(c: PyClass)
  {
    forall k | k in FieldMap(c) && FieldMap(c)[k].default.Some? ::
      Coerce(FieldMap(c)[k].typ, FieldMap(c)[k].default.value) == Ok(FieldMap(c)[k].default.value)
  }

  /**
   * `cls(**kwargs)`: every field takes its argument (validated) or its default;
   * a missing required field or a value of the wrong type is a `ValidationError`;
   * arguments that name no field are ignored.  `generated` is the id the
   * `uuid4` default factory would produce.
   */
  function Construct(c: PyClass, kwargs: map<string, Value>, generated: Uuid): (r: Result<Model, Error>)
    ensures r.Ok? <==> IdInput(kwargs, generated).Ok? && FieldsAccepted(c, kwargs)
    ensures r.Err? ==> r.error == ValidationError
    ensures r.Ok? ==> r.value.cls == c && r.value.id == IdInput(kwargs, generated).value
    ensures r.Ok? ==> r.value.fields.Keys == FieldMap(c).Keys
    ensures r.Ok? ==> forall k | k in FieldMap(c) && Key(FieldMap(c)[k]) in kwargs ::
      Coerce(FieldMap(c)[k].typ, kwargs[Key(FieldMap(c)[k])]) == Ok(r.value.fields[k])
    ensures r.Ok? && DefaultsConform(c) ==> Conforms(r.value)
    ensures r.Ok? && "id" in kwargs ==> IsV4(r.value.id)
  {
    var id := IdInput(kwargs, generated);
    if id.Err? || !FieldsAccepted(c, kwargs) then Err(ValidationError)
    else
      var fm := FieldMap(c);
      var m := Model(c, id.value, map k | k in fm :: FieldInput(fm[k], kwargs).value);
      CoerceIdempotentAll(m, kwargs);
      Ok(m)
  }

  /** Each field of a constructed document is the argument under the field's key, or else the field's default. */
  lemma ConstructField(c: PyClass, kwargs: map<string, Value>, generated: Uuid, k: string)
    requires Construct(c, kwargs, generated).Ok? && k in FieldMap(c)
    ensures FieldInput(FieldMap(c)[k], kwargs).Ok?
    ensures Construct(c, kwargs, generated).value.fields[k] == FieldInput(FieldMap(c)[k], kwargs).value
  {
  }

  /** `model_dump(by_alias=True)`: the fields by key, and the id under `id`. */
  function Dump(m: Model): (d: map<string, Value>)
    ensures d.Keys == m.fields.Keys + {"id"}
    ensures d["id"] == VUuid(m.id)
    ensures forall k | k in m.fields && k != "id" :: d[k] == m.fields[k]
  {
    m.fields["id" := VUuid(m.id)]
  }

  // ---------------------------------------------------------------------
  // Identity: __eq__ and __hash__
  // ---------------------------------------------------------------------

  /** `self.__eq__(value)`: `isinstance(value, self.__class__) and self.id == value.id`. */
  predicate InstanceEq(self: Model, value: Model)
  {
    IsSubclass(value.cls, self.cls) && self.id == value.id
  }

  /**
   * The operator `a == b`: when the right operand's class is a proper subclass
   * of the left operand's, Python asks the right operand first; `__eq__` never
   * declines, so its answer is final.
   */
  predicate OperatorEq(a: Model, b: Model)
  {
    if a.cls != b.cls && IsSubclass(b.cls, a.cls) then InstanceEq(b, a) else InstanceEq(a, b)
  }

  /** `hash(doc)` is `hash(doc.id)`. */
  function HashOf(m: Model): int
  {
    Hash(m.id)
  }

  // ---------------------------------------------------------------------
  // Lemmas
  // ---------------------------------------------------------------------

  /** `_has_class_attribute` finds exactly the names annotated somewhere above the class. */
  lemma {:induction false} HasClassAttributeIffAnnotated(c: PyClass, a: string)
    ensures HasClassAttribute(c, a) <==> a in AnnotationNames(c)
    decreases c, 1
  {
    BasesHaveAttributeIffAnnotated(c.bases, a);
  }

  lemma {:induction false} BasesHaveAttributeIffAnnotated(bs: seq<PyClass>, a: string)
    ensures AnyBaseHasAttribute(bs, a) <==> a in BasesAnnotationNames(bs)
    decreases bs, 0
  {
    if bs != [] {
      HasClassAttributeIffAnnotated(bs[0], a);
      BasesHaveAttributeIffAnnotated(bs[1..], a);
    }
  }

  /** A class is strictly higher than each of its proper superclasses. */
  lemma {:induction false} SubclassHeight(c: PyClass, d: PyClass)
    requires IsSubclass(c, d)
    ensures c == d || Height(d) < Height(c)
  {
    if c != d {
      var i :| 0 <= i < |c.bases| && IsSubclass(c.bases[i], d);
      SubclassHeight(c.bases[i], d);
    }
  }

  /** `issubclass` is antisymmetric: the hierarchy has no cycles. */
  lemma SubclassAntisymmetric(c: PyClass, d: PyClass)
    requires IsSubclass(c, d) && IsSubclass(d, c)
    ensures c == d
  {
    SubclassHeight(c, d);
    SubclassHeight(d, c);
  }

  /** Two documents are `==` exactly when they are of the same class and have the same id. */
  lemma OperatorEqIsIdentity(a: Model, b: Model)
    ensures OperatorEq(a, b) <==> a.cls == b.cls && a.id == b.id
  {
    if a.cls != b.cls && IsSubclass(b.cls, a.cls) && IsSubclass(a.cls, b.cls) {
      SubclassAntisymmetric(a.cls, b.cls);
    }
  }

  /** `issubclass` is transitive. */
  lemma {:induction false} SubclassTransitive(a: PyClass, b: PyClass, c: PyClass)
    requires IsSubclass(a, b) && IsSubclass(b, c)
    ensures IsSubclass(a, c)
    decreases a
  {
    if a != b {
      var i :| 0 <= i < |a.bases| && IsSubclass(a.bases[i], b);
      SubclassTransitive(a.bases[i], b, c);
    }
  }

  /**
   * `__eq__` itself also accepts an instance of any subclass, however far down,
   * of a class it accepts, when the ids agree.
   */
  lemma InstanceEqAcceptsSubclass(self: Model, other: Model, value: Model)
    requires InstanceEq(self, other) && IsSubclass(value.cls, other.cls) && value.id == other.id
    ensures InstanceEq(self, value)
  {
    SubclassTransitive(value.cls, other.cls, self.cls);
  }

  /** Equal documents hash equally. */
  lemma EqualDocumentsHashEqually(a: Model, b: Model)
    requires OperatorEq(a, b)
    ensures HashOf(a) == HashOf(b)
  {
    OperatorEqIsIdentity(a, b);
  }

  /** Validating a value that validation already produced gives it back. */
  lemma CoerceIdempotent(t: FieldType, v: Value, w: Value)
    requires Coerce(t, v) == Ok(w)
    ensures Coerce(t, w) == Ok(w)
  {
  }

  lemma CoerceIdempotentAll(m: Model, kwargs: map<string, Value>)
    requires m.fields.Keys == FieldMap(m.cls).Keys
    requires forall k | k in FieldMap(m.cls) :: FieldInput(FieldMap(m.cls)[k], kwargs) == Ok(m.fields[k])
    ensures DefaultsConform(m.cls) ==> Conforms(m)
  {
    var fm := FieldMap(m.cls);
    if DefaultsConform(m.cls) {
      forall k | k in m.fields ensures Coerce(fm[k].typ, m.fields[k]) == Ok(m.fields[k]) {
        if Key(fm[k]) in kwargs {
          CoerceIdempotent(fm[k].typ, kwargs[Key(fm[k])], m.fields[k]);
        }
      }
    }
  }

  /** A value survives being stringified and validated again, unless a UUID sits where no UUID is expected. */
  lemma CoerceAfterUuidToStr(t: FieldType, v: Value)
    requires Coerce(t, v) == Ok(v)
    requires t == TUuid4 || NoUuid(v)
    ensures Coerce(t, UuidToStr(v)) == Ok(v)
  {
    if t == TUuid4 {
      ParseToStr(v.u);
    } else {
      UuidFreeUnchanged(v);
    }
  }

  /** Validating arguments that each give back a document's field rebuilds that document. */
  lemma ConstructRebuilds(m: Model, attrs: map<string, Value>)
    requires Conforms(m)
    requires "id" in attrs && attrs["id"] == VUuid(m.id) && IsV4(m.id)
    requires forall k | k in FieldMap(m.cls) :: k in attrs && Coerce(FieldMap(m.cls)[k].typ, attrs[k]) == Ok(m.fields[k])
    ensures Construct(m.cls, attrs, m.id) == Ok(m)
  {
    assert IdInput(attrs, m.id) == Ok(m.id);
    var r := Construct(m.cls, attrs, m.id);
    assert FieldsAccepted(m.cls, attrs);
    assert r.value.fields == m.fields;
  }

  /** The same for the top-level conversion of the document-store codec. */
  lemma CoerceAfterStrTop(t: FieldType, v: Value)
    requires Coerce(t, v) == Ok(v)
    requires t == TUuid4 || !v.VUuid?
    ensures Coerce(t, StrTop(v)) == Ok(v)
  {
    if t == TUuid4 {
      ParseToStr(v.u);
    }
  }
}
