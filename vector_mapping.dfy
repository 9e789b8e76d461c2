/**
 * The two directions between a vector document and a store point:
 * `to_point` (dump the document, stringify every UUID, then pop the id and the
 * embedding out of the payload) and `from_record` (rebuild a document from a
 * record, re-attaching the vector only to classes that annotate `embedding`).
 */
module VectorMapping {
  import opened Wrappers
  import opened Exceptions
  import opened Uuids
  import opened Values
  import opened Models
  import opened Qdrant

  /** The `model_dump` override of vector documents: the pydantic dump with every UUID, at any depth, as a string. */
  function VectorDump(m: Model): (d: map<string, Value>)
    ensures d.Keys == m.fields.Keys + {"id"}
    ensures d["id"] == VStr(ToStr(m.id))
    ensures forall k | k in m.fields && k != "id" :: d[k] == UuidToStr(m.fields[k])
    ensures forall k | k in d :: NoUuid(d[k])
  {
    UuidToStrMap(Dump(m))
  }

  /** The point `to_point` builds from a document's dump. */
  function PointOf(m: Model): Point
  {
    var d := VectorDump(m);
    Point(ToStr(m.id), if "embedding" in d then d["embedding"] else VNone, d - {"id", "embedding"})
  }

  /** A document's point: its id as a string, its embedding (or none), and every other field, stringified, as payload. */
  lemma PointOfShape(m: Model)
    ensures PointOf(m).id == ToStr(m.id)
    ensures PointOf(m).vector == if "embedding" in m.fields then UuidToStr(m.fields["embedding"]) else VNone
    ensures PointOf(m).payload.Keys == m.fields.Keys - {"id", "embedding"}
    ensures forall k | k in PointOf(m).payload :: PointOf(m).payload[k] == UuidToStr(m.fields[k])
    ensures forall k | k in PointOf(m).payload :: NoUuid(PointOf(m).payload[k])
  {
  }

  /** `doc.to_point()` with its defaults (all fields, keyed by alias). */
  method ToPoint(m: Model) returns (p: Point)
    ensures p == PointOf(m)
  {
    var payload := VectorDump(m);
    var idValue := payload["id"];
    payload := payload - {"id"};
    var id := idValue.s;
    var vector := VNone;
    if "embedding" in payload {
      vector := payload["embedding"];
      payload := payload - {"embedding"};
    }
    p := Point(id, vector, payload);
  }

  /** `point.vector or None`: a missing or empty vector becomes `None`. */
  function VectorOrNone(v: Option<Value>): (r: Value)
    ensures r == VNone || (v.Some? && r == v.value && Truthy(r))
  {
    if v.Some? && Truthy(v.value) then v.value else VNone
  }

  /** The keyword arguments `from_record` passes to the class. */
  function RecordAttributes(c: PyClass, id: Uuid, rec: Record): map<string, Value>
  {
    var attrs := map["id" := VUuid(id)] + rec.payload.GetOr(map[]);
    if HasClassAttribute(c, "embedding") then attrs["embedding" := VectorOrNone(rec.vector)] else attrs
  }

  /**
   * `cls.from_record(point)`: parse the record's id (`ValueError` when it is no
   * UUID) and force it to version 4, merge the payload, re-attach the vector
   * when the class annotates `embedding`, and validate.
   */
  function FromRecord(c: PyClass, rec: Record): (r: Result<Model, Error>)
    ensures Parse(rec.id).None? ==> r == Err(ValueError)
    ensures r.Err? ==> r.error == ValueError || r.error == ValidationError
    ensures r.Ok? ==> Parse(rec.id).Some? && r.value.cls == c && IsV4(r.value.id)
  {
    match Parse(rec.id)
    case None => Err(ValueError)
    case Some(u) =>
      var id := ForceV4(u);
      Construct(c, RecordAttributes(c, id, rec), id)
  }

  /** A document whose fields survive the trip through a point with payload and vector. */
  predicate PointSafe(m: Model)
  {
    && Conforms(m) && IsV4(m.id)
    && ("embedding" in m.fields ==>
          HasClassAttribute(m.cls, "embedding") && NoUuid(m.fields["embedding"])
          && (Truthy(m.fields["embedding"]) || m.fields["embedding"] == VNone))
    && forall k | k in m.fields && k != "embedding" :: FieldMap(m.cls)[k].typ == TUuid4 || NoUuid(m.fields[k])
  }

  /** The arguments rebuilt from a document's point carry the document's id... */
  lemma PointAttributesId(m: Model)
    requires "id" !in m.fields
    ensures RecordAttributes(m.cls, m.id, RecordOf(PointOf(m), true, true))["id"] == VUuid(m.id)
  {
    PointOfShape(m);
  }

  /** ...every field other than the embedding, stringified... */
  lemma PointAttributesFields(m: Model)
    requires "id" !in m.fields
    ensures var attrs := RecordAttributes(m.cls, m.id, RecordOf(PointOf(m), true, true));
      forall k | k in m.fields && k != "embedding" :: k in attrs && attrs[k] == UuidToStr(m.fields[k])
  {
    PointOfShape(m);
    var p := PointOf(m);
    var rec := RecordOf(p, true, true);
    forall k | k in m.fields && k != "embedding"
      ensures k in RecordAttributes(m.cls, m.id, rec) && RecordAttributes(m.cls, m.id, rec)[k] == UuidToStr(m.fields[k])
    {
      assert k in p.payload;
      PayloadAttribute(m.cls, m.id, rec, k);
    }
  }

  /** A payload entry other than the embedding reaches the class as it is. */
  lemma PayloadAttribute(c: PyClass, id: Uuid, rec: Record, k: string)
    requires rec.payload.Some? && k in rec.payload.value && k != "embedding"
    ensures k in RecordAttributes(c, id, rec) && RecordAttributes(c, id, rec)[k] == rec.payload.value[k]
  {
  }

  /** ...and the embedding as it was, when it is a plain value that is non-empty or `None`. */
  lemma PointAttributesEmbedding(m: Model)
    requires "embedding" in m.fields ==>
      HasClassAttribute(m.cls, "embedding") && NoUuid(m.fields["embedding"])
      && (Truthy(m.fields["embedding"]) || m.fields["embedding"] == VNone)
    ensures var attrs := RecordAttributes(m.cls, m.id, RecordOf(PointOf(m), true, true));
      "embedding" in m.fields ==> "embedding" in attrs && attrs["embedding"] == m.fields["embedding"]
  {
    PointOfShape(m);
    if "embedding" in m.fields {
      UuidFreeUnchanged(m.fields["embedding"]);
    }
  }

  /** `from_record` inverts `to_point`: reading back the full record of a document's point rebuilds the document. */
  lemma FromRecordToPoint(m: Model)
    requires PointSafe(m)
    ensures FromRecord(m.cls, RecordOf(PointOf(m), true, true)) == Ok(m)
  {
    var rec := RecordOf(PointOf(m), true, true);
    ParseToStr(m.id);
    ForceV4KeepsV4(m.id);
    var attrs := RecordAttributes(m.cls, m.id, rec);
    PointAttributesId(m);
    PointAttributesFields(m);
    PointAttributesEmbedding(m);
    var fm := FieldMap(m.cls);
    forall k | k in fm ensures k in attrs && Coerce(fm[k].typ, attrs[k]) == Ok(m.fields[k]) {
      if k != "embedding" {
        CoerceAfterUuidToStr(fm[k].typ, m.fields[k]);
      }
    }
    ConstructRebuilds(m, attrs);
  }

  /** A class that does not annotate `embedding` ignores the record's vector. */
  lemma VectorIgnoredWithoutEmbedding(c: PyClass, rec: Record)
    requires !HasClassAttribute(c, "embedding")
    ensures FromRecord(c, rec) == FromRecord(c, rec.(vector := None))
  {
  }

  /** A class that annotates `embedding` receives the record's vector, an empty or missing one as `None`. */
  lemma VectorAttachedWithEmbedding(c: PyClass, rec: Record)
    requires HasClassAttribute(c, "embedding") && "embedding" in FieldMap(c) && FieldMap(c)["embedding"].typ == TAny
    requires FromRecord(c, rec).Ok?
    ensures FromRecord(c, rec).value.fields["embedding"] == VectorOrNone(rec.vector)
  {
    var u := Parse(rec.id).value;
    var attrs := RecordAttributes(c, ForceV4(u), rec);
    assert Key(FieldMap(c)["embedding"]) in attrs;
  }
}
