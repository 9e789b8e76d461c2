/**
 * The values a document field or a store payload can hold: Python's None,
 * booleans, numbers, strings, `uuid.UUID` objects, lists and dicts.  Numbers
 * are integers here: floating point is not modelled.  Dict key order is not
 * modelled either (a dict is a map).
 */
module Values {
  import opened Uuids

  datatype Value =
    | VNone
    | VBool(b: bool)
    | VInt(i: int)
    | VStr(s: string)
    | VUuid(u: Uuid)
    | VList(items: seq<Value>)
    | VDict(entries: map<string, Value>)

  /** Python truthiness (`bool(v)`); a UUID object is always true. */
  predicate Truthy(v: Value)
  {
    match v
    case VNone => false
    case VBool(b) => b
    case VInt(i) => i != 0
    case VStr(s) => s != ""
    case VUuid(_) => true
    case VList(xs) => xs != []
    case VDict(m) => m != map[]
  }

  /** No UUID object occurs anywhere inside `v`. */
  predicate NoUuid(v: Value)
  {
    match v
    case VUuid(_) => false
    case VList(xs) => forall i | 0 <= i < |xs| :: NoUuid(xs[i])
    case VDict(m) => forall k | k in m :: NoUuid(m[k])
    case _ => true
  }

  /**
   * `VectorBaseDocument._uuid_to_str`: every UUID, at any depth of lists and
   * dicts, becomes its string form; the shape of lists and dicts is kept.
   */
  function UuidToStr(v: Value): (r: Value)
    ensures NoUuid(r)
    ensures v.VUuid? ==> r == VStr(ToStr(v.u))
    ensures v.VList? <==> r.VList?
    ensures v.VList? ==> |r.items| == |v.items|
    ensures v.VDict? <==> r.VDict?
    ensures v.VDict? ==> r.entries.Keys == v.entries.Keys
    ensures v.VNone? || v.VBool? || v.VInt? || v.VStr? ==> r == v
  {
    match v
    case VUuid(u) => VStr(ToStr(u))
    case VDict(m) => VDict(map k | k in m :: UuidToStr(m[k]))
    case VList(xs) => VList(seq(|xs|, i requires 0 <= i < |xs| => UuidToStr(xs[i])))
    case _ => v
  }

  /** `_uuid_to_str` applied to every value of a top-level dict. */
  function UuidToStrMap(d: map<string, Value>): (r: map<string, Value>)
    ensures r.Keys == d.Keys
    ensures forall k | k in r :: NoUuid(r[k])
  {
    map k | k in d :: UuidToStr(d[k])
  }

  /** The top-level-only conversion of the document-store codec: a UUID value becomes a string. */
  function StrTop(v: Value): (r: Value)
    ensures !r.VUuid?
  {
    if v.VUuid? then VStr(ToStr(v.u)) else v
  }

  // ---------------------------------------------------------------------
  // Lemmas
  // ---------------------------------------------------------------------

  /** The element at position `i` of a converted list is the converted element. */
  lemma UuidToStrListAt(xs: seq<Value>, i: nat)
    requires i < |xs|
    ensures UuidToStr(VList(xs)).items[i] == UuidToStr(xs[i])
  {
  }

  /** The value under key `k` of a converted dict is the converted value. */
  lemma UuidToStrDictAt(m: map<string, Value>, k: string)
    requires k in m
    ensures UuidToStr(VDict(m)).entries[k] == UuidToStr(m[k])
  {
  }

  /** Values without UUIDs pass through unchanged. */
  lemma {:induction false} UuidFreeUnchanged(v: Value)
    requires NoUuid(v)
    ensures UuidToStr(v) == v
  {
    match v
    case VList(xs) =>
      forall i | 0 <= i < |xs| ensures UuidToStr(xs[i]) == xs[i] {
        UuidFreeUnchanged(xs[i]);
      }
      assert UuidToStr(v).items == xs;
    case VDict(m) =>
      forall k | k in m ensures UuidToStr(m[k]) == m[k] {
        UuidFreeUnchanged(m[k]);
      }
      assert UuidToStr(v).entries == m;
    case _ =>
  }

  /** Applying the conversion twice is the same as applying it once. */
  lemma UuidToStrIdempotent(v: Value)
    ensures UuidToStr(UuidToStr(v)) == UuidToStr(v)
  {
    UuidFreeUnchanged(UuidToStr(v));
  }

  /** The conversion is the identity exactly on UUID-free values. */
  lemma UuidToStrFixedPoints(v: Value)
    ensures UuidToStr(v) == v <==> NoUuid(v)
  {
    if NoUuid(v) {
      UuidFreeUnchanged(v);
    }
  }
}
