/** The record normaliser of process_file: one parsed crawled document becomes a body and a
    metadata record with a fixed schema. */
module Normalizer {
  import opened Json
  import opened Outcomes

  /** A parsed source document: the top-level object of one crawled JSON file. */
  type Document = map<string, Value>

  /** The metadata sidecar: Title, ContentType, DocumentId and the Attributes object. */
  datatype Metadata = Metadata(title: Value, contentType: string, documentId: Value, attributes: map<string, Value>)

  /** The pair process_file derives from one document: the body and its metadata. */
  datatype Record = Record(body: Value, metadata: Metadata)

  const CONTENT_TYPE := "JSON"
  const CATEGORY := ""
  const LAST_UPDATED_AT := "ISO 8601 encoded string"
  const VERSION := "file version"
  const VIEW_COUNT := 0

  /** The fifteen input fields, in the order in which process_file first looks each one up. */
  const READ_ORDER: seq<string> := [
    "text", "title", "uuid", "published", "url", "organizations", "author", "entities",
    "locations", "language", "persons", "external_links", "crawled", "highlightTitle", "highlightText"]

  /** The six reserved attribute keys. */
  const RESERVED_KEYS: set<string> :=
    {"_category", "_created_at", "_last_updated_at", "_source_uri", "_version", "_view_count"}

  /** The twelve custom attribute keys, each copied from the input field of the same name. */
  const PASSTHROUGH_KEYS: set<string> := {
    "published", "organizations", "author", "entities", "url", "locations", "language",
    "persons", "external_links", "crawled", "highlightTitle", "highlightText"}

  /** Every key of the Attributes object: the reserved keys and the passthrough keys. */
  const ATTRIBUTE_KEYS: set<string> := RESERVED_KEYS + PASSTHROUGH_KEYS

  /** data[key]: the value, or the KeyError the lookup raises. */
  function Field(data: Document, key: string): Result<Value>
  {
    if key in data then Ok(data[key]) else Err(MissingField(key))
  }

  /** The index of the first key of keys that data lacks, if any. */
  function FirstMissing(data: Document, keys: seq<string>): (r: Option<nat>)
    ensures r.Some? ==> r.value < |keys| && keys[r.value] !in data
    ensures r.Some? ==> forall j :: 0 <= j < r.value ==> keys[j] in data
    ensures r.None? ==> forall j :: 0 <= j < |keys| ==> keys[j] in data
  {
    if keys == [] then None
    else if keys[0] !in data then Some(0)
    else match FirstMissing(data, keys[1..])
      case None => None
      case Some(i) => Some(i + 1)
  }

  /** The Attributes dictionary: the six reserved entries, two of them derived from the
      published and url fields, and the twelve passthrough entries copied from data. */
  function Attributes(published: Value, url: Value, data: Document): map<string, Value>
    requires PASSTHROUGH_KEYS <= data.Keys
  {
    map[
      "_category" := Str(CATEGORY),
      "_created_at" := published,
      "_last_updated_at" := Str(LAST_UPDATED_AT),
      "_source_uri" := url,
      "_version" := Str(VERSION),
      "_view_count" := Num(VIEW_COUNT)]
    + map k | k in PASSTHROUGH_KEYS :: data[k]
  }

  /** process_file's lookups and metadata construction, in source order: the first lookup
      that finds no field raises, before anything is written. The twelve custom attributes
      hold the values these lookups found. */
  function Normalize(data: Document): Result<Record>
  {
    var text :- Field(data, "text");
    var title :- Field(data, "title");
    var uuid :- Field(data, "uuid");
    var published :- Field(data, "published");
    var url :- Field(data, "url");
    var _ :- Field(data, "organizations");
    var _ :- Field(data, "author");
    var _ :- Field(data, "entities");
    var _ :- Field(data, "locations");
    var _ :- Field(data, "language");
    var _ :- Field(data, "persons");
    var _ :- Field(data, "external_links");
    var _ :- Field(data, "crawled");
    var _ :- Field(data, "highlightTitle");
    var _ :- Field(data, "highlightText");
    Ok(Record(text, Metadata(title, CONTENT_TYPE, uuid, Attributes(published, url, data))))
  }

  /** Every field process_file reads is present. */
  predicate HasAllFields(data: Document)
  {
    forall k :: k in READ_ORDER ==> k in data
  }

  /** The header of a record normalised from data: the body is the text field, Title and
      DocumentId come from title and uuid, and ContentType is the constant "JSON". */
  ghost predicate HeaderFrom(data: Document, rec: Record)
    requires HasAllFields(data)
  {
    && rec.body == data["text"]
    && rec.metadata.title == data["title"]
    && rec.metadata.contentType == CONTENT_TYPE
    && rec.metadata.documentId == data["uuid"]
  }

  /** The reserved attributes: the placeholders and defaults, and the two derived timestamps and URIs. */
  ghost predicate ReservedFrom(data: Document, attributes: map<string, Value>)
    requires HasAllFields(data)
  {
    && attributes.Keys == ATTRIBUTE_KEYS
    && attributes["_category"] == Str(CATEGORY)
    && attributes["_created_at"] == data["published"]
    && attributes["_last_updated_at"] == Str(LAST_UPDATED_AT)
    && attributes["_source_uri"] == data["url"]
    && attributes["_version"] == Str(VERSION)
    && attributes["_view_count"] == Num(VIEW_COUNT)
  }

  /** The passthrough attributes: each is the input field of the same name, unchanged. */
  ghost predicate PassthroughFrom(data: Document, attributes: map<string, Value>)
    requires HasAllFields(data)
  {
    forall k :: k in PASSTHROUGH_KEYS ==> k in data && k in attributes && attributes[k] == data[k]
  }

  /** The record the schema prescribes for data. */
  ghost predicate NormalizedFrom(data: Document, rec: Record)
    requires HasAllFields(data)
  {
    && HeaderFrom(data, rec)
    && ReservedFrom(data, rec.metadata.attributes)
    && PassthroughFrom(data, rec.metadata.attributes)
  }

  lemma ReadOrderListing()
    ensures |READ_ORDER| == 15
    ensures READ_ORDER[0] == "text" && READ_ORDER[1] == "title" && READ_ORDER[2] == "uuid"
    ensures READ_ORDER[3] == "published" && READ_ORDER[4] == "url" && READ_ORDER[5] == "organizations"
    ensures READ_ORDER[6] == "author" && READ_ORDER[7] == "entities" && READ_ORDER[8] == "locations"
    ensures READ_ORDER[9] == "language" && READ_ORDER[10] == "persons" && READ_ORDER[11] == "external_links"
    ensures READ_ORDER[12] == "crawled" && READ_ORDER[13] == "highlightTitle" && READ_ORDER[14] == "highlightText"
  {
  }

  lemma ReservedKeyCount()
    ensures |RESERVED_KEYS| == 6
  {
  }

  lemma PassthroughKeyCount()
    ensures |PASSTHROUGH_KEYS| == 12
  {
  }

  lemma ReservedNotPassthrough()
    ensures RESERVED_KEYS !! PASSTHROUGH_KEYS
  {
  }

  /** The Attributes object has exactly eighteen keys: six reserved and twelve passthrough. */
  lemma AttributeKeyCount()
    ensures |ATTRIBUTE_KEYS| == 18
  {
    ReservedKeyCount();
    PassthroughKeyCount();
    ReservedNotPassthrough();
  }

  lemma AllFieldsPresent(data: Document)
    requires HasAllFields(data)
    ensures "text" in data && "title" in data && "uuid" in data && "published" in data && "url" in data
    ensures "organizations" in data && "author" in data && "entities" in data && "locations" in data
    ensures "language" in data && "persons" in data && "external_links" in data && "crawled" in data
    ensures "highlightTitle" in data && "highlightText" in data
    ensures PASSTHROUGH_KEYS <= data.Keys
  {
  }

  /** With every field present, every lookup succeeds and the record is built from the fields. */
  lemma NormalizeBuilds(data: Document)
    requires HasAllFields(data)
    ensures PASSTHROUGH_KEYS <= data.Keys
    ensures Normalize(data)
         == Ok(Record(data["text"], Metadata(data["title"], CONTENT_TYPE, data["uuid"],
                                             Attributes(data["published"], data["url"], data))))
  {
    AllFieldsPresent(data);
  }

  lemma NormalizeHeader(data: Document)
    requires HasAllFields(data)
    ensures Normalize(data).Ok? && HeaderFrom(data, Normalize(data).value)
  {
    NormalizeBuilds(data);
  }

  lemma NormalizeReserved(data: Document)
    requires HasAllFields(data)
    ensures Normalize(data).Ok? && ReservedFrom(data, Normalize(data).value.metadata.attributes)
  {
    NormalizeBuilds(data);
    ReservedNotPassthrough();
  }

  lemma NormalizePassthrough(data: Document)
    requires HasAllFields(data)
    ensures Normalize(data).Ok? && PassthroughFrom(data, Normalize(data).value.metadata.attributes)
  {
    NormalizeBuilds(data);
  }

  /** A document with every field normalises to the record of the schema. */
  lemma NormalizeComplete(data: Document)
    requires HasAllFields(data)
    ensures Normalize(data).Ok? && NormalizedFrom(data, Normalize(data).value)
  {
    NormalizeHeader(data);
    NormalizeReserved(data);
    NormalizePassthrough(data);
  }

  /** A document that lacks a field fails with a KeyError naming the first missing field in the
      order of the source's lookups. */
  lemma NormalizeMissing(data: Document)
    requires FirstMissing(data, READ_ORDER).Some?
    ensures Normalize(data) == Err(MissingField(READ_ORDER[FirstMissing(data, READ_ORDER).value]))
  {
    ReadOrderListing();
  }

  /** Normalisation succeeds exactly when every field is present. */
  lemma NormalizeSucceedsIff(data: Document)
    ensures Normalize(data).Ok? <==> HasAllFields(data)
  {
    if !HasAllFields(data) {
      NormalizeMissing(data);
    } else {
      NormalizeHeader(data);
    }
  }

  /** The object that json.dumps serialises into the metadata sidecar. */
  function MetadataToJson(m: Metadata): Value
  {
    Obj(map[
      "Title" := m.title,
      "ContentType" := Str(m.contentType),
      "DocumentId" := m.documentId,
      "Attributes" := Obj(m.attributes)])
  }

  /** Reads a sidecar's object back as metadata, when it has the four keys of the schema. */
  function MetadataFromJson(v: Value): Option<Metadata>
  {
    if v.Obj? && "Title" in v.fields && "ContentType" in v.fields && "DocumentId" in v.fields
       && "Attributes" in v.fields && v.fields["ContentType"].Str? && v.fields["Attributes"].Obj?
    then Some(Metadata(v.fields["Title"], v.fields["ContentType"].s, v.fields["DocumentId"],
                       v.fields["Attributes"].fields))
    else None
  }

  /** A metadata sidecar reads back as the metadata that was written. */
  lemma MetadataRoundTrip(m: Metadata)
    ensures MetadataFromJson(MetadataToJson(m)) == Some(m)
  {
  }
}
