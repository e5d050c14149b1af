/**
 * The codec between a document's field map and the flat string-to-string
 * hashes that Redis stores: `flatten` splits the `_attachments` field into
 * self-describing attachment records and encodes every other field on its
 * own; `inflate` decodes each stored field, falling back to the raw string.
 */
module Codec {
  import opened Options
  import opened Json

  /**
   * `payload.body` and `payload.attachments`; the latter stays undefined
   * (None) when the input had no truthy `_attachments` field.
   */
  datatype Payload = Payload(body: map<string, string>, attachments: Option<map<string, string>>)

  /** flatten either returns a payload or throws a TypeError (an attachment entry is null). */
  datatype Flattening = Flat(payload: Payload) | NullAttachmentError

  /** A JavaScript object whose properties flatten updates in place. */
  class JsObject {
    var fields: map<string, Value>

    constructor (fields: map<string, Value>)
      ensures this.fields == fields
    {
      this.fields := fields;
    }
  }

  /** Whether flatten treats `json` as carrying attachments (`if (json._attachments)`). */
  predicate HasAttachments(json: map<string, Value>)
  {
    "_attachments" in json && Truthy(json["_attachments"])
  }

  /** The attachment entries flatten walks over. */
  function AttachmentEntries(json: map<string, Value>): map<string, Value>
  {
    if HasAttachments(json) then Entries(json["_attachments"]) else map[]
  }

  /**
   * The self-describing record of one attachment: its `body`,
   * `content_type` and `length` where defined (JSON.stringify drops
   * undefined properties), and its own `name`.
   */
  function AttachmentRecord(name: string, attachment: Value): Value
  {
    Obj(Defined(attachment, "body") + Defined(attachment, "content_type")
        + Defined(attachment, "length") + map["name" := Str(name)])
  }

  function Defined(v: Value, name: string): map<string, Value>
  {
    match Property(v, name)
    case Some(p) => map[name := p]
    case None => map[]
  }

  /** Encodes every field of `m` on its own. */
  function EncodeFields(c: Serializer, m: map<string, Value>): map<string, string>
  {
    map f | f in m :: c.encode(m[f])
  }

  /** The encoded record of every attachment entry, keyed by its name. */
  function EncodeRecords(c: Serializer, entries: map<string, Value>): map<string, string>
  {
    map n | n in entries :: c.encode(AttachmentRecord(n, entries[n]))
  }

  /** Reading `.body` of a null attachment entry throws. */
  predicate HasNullEntry(entries: map<string, Value>)
  {
    exists n :: n in entries && entries[n] == Null
  }

  /** What `flatten(json)` returns. */
  function Flattened(c: Serializer, json: map<string, Value>): Flattening
  {
    if !HasAttachments(json) then Flat(Payload(EncodeFields(c, json), None))
    else if HasNullEntry(AttachmentEntries(json)) then NullAttachmentError
    else Flat(Payload(EncodeFields(c, json - {"_attachments"}), Some(EncodeRecords(c, AttachmentEntries(json)))))
  }

  /** The input object after `flatten(json)` (it deletes `_attachments` on success). */
  function FlattenedInput(c: Serializer, json: map<string, Value>): map<string, Value>
  {
    if HasAttachments(json) && Flattened(c, json).Flat? then json - {"_attachments"} else json
  }

  /** One stored field: JSON.parse of it, or the raw string when parsing throws. */
  function DecodeOrRaw(c: Serializer, s: string): Value
  {
    match c.decode(s)
    case Some(v) => v
    case None => Str(s)
  }

  /** What `inflate(payload)` gives: nothing for null, else the decoded fields over `{_attachments: {}}`. */
  function Inflated(c: Serializer, payload: Option<map<string, string>>): Option<map<string, Value>>
  {
    match payload
    case None => None
    case Some(p) => Some(map["_attachments" := Obj(map[])] + map f | f in p :: DecodeOrRaw(c, p[f]))
  }

  /**
   * The attachment loop of flatten: one encoded record per entry name, or
   * None when reading the properties of a null entry throws.
   */
  method EncodeAttachments(c: Serializer, entries: map<string, Value>) returns (r: Option<map<string, string>>)
    ensures r.None? <==> HasNullEntry(entries)
    ensures r.Some? ==> r.value.Keys == entries.Keys
    ensures r.Some? ==> forall n :: n in entries ==> r.value[n] == c.encode(AttachmentRecord(n, entries[n]))
    ensures r.Some? ==> r.value == EncodeRecords(c, entries)
  {
    var records: map<string, string> := map[];
    var todo := entries.Keys;
    while todo != {}
      invariant todo <= entries.Keys
      invariant forall n :: n in entries && n !in todo ==> entries[n] != Null
      invariant records.Keys == entries.Keys - todo
      invariant forall n :: n in records ==> records[n] == c.encode(AttachmentRecord(n, entries[n]))
      decreases todo
    {
      var n :| n in todo;
      if entries[n] == Null {
        return None;
      }
      records := records[n := c.encode(AttachmentRecord(n, entries[n]))];
      todo := todo - {n};
    }
    r := Some(records);
  }

  /** The field loop of flatten: every field encoded on its own. */
  method EncodeBody(c: Serializer, json: map<string, Value>) returns (body: map<string, string>)
    ensures body.Keys == json.Keys
    ensures forall f :: f in json ==> body[f] == c.encode(json[f])
    ensures body == EncodeFields(c, json)
  {
    body := map[];
    var todo := json.Keys;
    while todo != {}
      invariant todo <= json.Keys
      invariant body.Keys == json.Keys - todo
      invariant forall f :: f in body ==> body[f] == c.encode(json[f])
      decreases todo
    {
      var f :| f in todo;
      body := body[f := c.encode(json[f])];
      todo := todo - {f};
    }
  }

  /**
   * flatten: encodes the attachment records, deletes `_attachments` from
   * the input, then encodes every remaining field.
   */
  method Flatten(c: Serializer, json: JsObject) returns (r: Flattening)
    modifies json
    ensures r == Flattened(c, old(json.fields))
    ensures json.fields == FlattenedInput(c, old(json.fields))
  {
    if "_attachments" in json.fields && Truthy(json.fields["_attachments"]) {
      var entries := Entries(json.fields["_attachments"]);
      var attachments := EncodeAttachments(c, entries);
      if attachments.None? {
        return NullAttachmentError;
      }
      json.fields := json.fields - {"_attachments"};
      var body := EncodeBody(c, json.fields);
      r := Flat(Payload(body, attachments));
    } else {
      var body := EncodeBody(c, json.fields);
      r := Flat(Payload(body, None));
    }
  }

  /**
   * inflate: nothing for a null payload; otherwise a map that starts as
   * `{_attachments: {}}` and gets every stored field, decoded when it parses
   * and verbatim when it does not.
   */
  method Inflate(c: Serializer, payload: Option<map<string, string>>) returns (r: Option<map<string, Value>>)
    ensures payload.None? <==> r.None?
    ensures r.Some? ==> r.value.Keys == payload.value.Keys + {"_attachments"}
    ensures r.Some? ==> forall f :: f in payload.value ==> r.value[f] == DecodeOrRaw(c, payload.value[f])
    ensures r.Some? && "_attachments" !in payload.value ==> r.value["_attachments"] == Obj(map[])
    ensures r == Inflated(c, payload)
  {
    if payload.None? {
      return None;
    }
    var p := payload.value;
    var json: map<string, Value> := map["_attachments" := Obj(map[])];
    var todo := p.Keys;
    while todo != {}
      invariant todo <= p.Keys
      invariant json == map["_attachments" := Obj(map[])] + map f | f in p && f !in todo :: DecodeOrRaw(c, p[f])
      decreases todo
    {
      var f :| f in todo;
      json := json[f := DecodeOrRaw(c, p[f])];
      todo := todo - {f};
    }
    assert (map f | f in p && f !in todo :: DecodeOrRaw(c, p[f])) == map f | f in p :: DecodeOrRaw(c, p[f]);
    r := Some(json);
  }

  /**
   * The body holds exactly the input's fields, without `_attachments` when
   * that field was split off, each encoded on its own.
   */
  lemma FlattenedBody(c: Serializer, json: map<string, Value>)
    requires Flattened(c, json).Flat?
    ensures var body := Flattened(c, json).payload.body;
      && body.Keys == (if HasAttachments(json) then json.Keys - {"_attachments"} else json.Keys)
      && forall f :: f in body ==> body[f] == c.encode(json[f])
  {
  }

  /**
   * flatten throws exactly when the attachment map has a null entry;
   * otherwise it leaves `payload.attachments` undefined exactly when
   * `_attachments` is missing or falsy, and deletes `_attachments` from its
   * input exactly when it split it off.
   */
  lemma FlattenedOutcome(c: Serializer, json: map<string, Value>)
    ensures Flattened(c, json) == NullAttachmentError <==> HasAttachments(json) && HasNullEntry(AttachmentEntries(json))
    ensures Flattened(c, json).Flat? ==> (Flattened(c, json).payload.attachments.Some? <==> HasAttachments(json))
    ensures Flattened(c, json).Flat? && HasAttachments(json) ==> FlattenedInput(c, json) == json - {"_attachments"}
    ensures Flattened(c, json) == NullAttachmentError ==> FlattenedInput(c, json) == json
  {
  }

  /**
   * An attachment record carries its own name, and the entry's `body`,
   * `content_type` and `length` exactly where they are defined.
   */
  lemma AttachmentRecordFields(name: string, attachment: Value)
    ensures var props := AttachmentRecord(name, attachment).props;
      && props.Keys <= {"body", "content_type", "length", "name"}
      && "name" in props && props["name"] == Str(name)
      && ("body" in props <==> Property(attachment, "body").Some?)
      && ("body" in props ==> props["body"] == Property(attachment, "body").value)
      && ("content_type" in props <==> Property(attachment, "content_type").Some?)
      && ("content_type" in props ==> props["content_type"] == Property(attachment, "content_type").value)
      && ("length" in props <==> Property(attachment, "length").Some?)
      && ("length" in props ==> props["length"] == Property(attachment, "length").value)
  {
  }

  /**
   * The attachment hash has one field per attachment entry, named by the
   * entry, and each field decodes to that entry's self-describing record.
   */
  lemma AttachmentRecordsSelfDescribing(c: Serializer, json: map<string, Value>)
    requires RoundTrips(c)
    requires Flattened(c, json).Flat? && Flattened(c, json).payload.attachments.Some?
    ensures var records := Flattened(c, json).payload.attachments.value;
      && records.Keys == AttachmentEntries(json).Keys
      && forall n :: n in records ==> c.decode(records[n]) == Some(AttachmentRecord(n, AttachmentEntries(json)[n]))
  {
    var entries := AttachmentEntries(json);
    var records := Flattened(c, json).payload.attachments.value;
    assert records == EncodeRecords(c, entries);
    forall n | n in records
      ensures c.decode(records[n]) == Some(AttachmentRecord(n, entries[n]))
    {
      assert c.decode(c.encode(AttachmentRecord(n, entries[n]))) == Some(AttachmentRecord(n, entries[n]));
    }
  }

  /** inflate of a null payload gives nothing, not an empty object. */
  lemma InflatedNull(c: Serializer)
    ensures Inflated(c, None) == None
  {
  }

  /**
   * Every stored field comes back as its parse, or as the raw string when
   * parsing throws; `_attachments` starts out as an empty object.
   */
  lemma InflatedFields(c: Serializer, p: map<string, string>)
    ensures Inflated(c, Some(p)).Some?
    ensures Inflated(c, Some(p)).value.Keys == p.Keys + {"_attachments"}
    ensures forall f :: f in p && c.decode(p[f]).Some? ==> Inflated(c, Some(p)).value[f] == c.decode(p[f]).value
    ensures forall f :: f in p && c.decode(p[f]).None? ==> Inflated(c, Some(p)).value[f] == Str(p[f])
    ensures "_attachments" !in p ==> Inflated(c, Some(p)).value["_attachments"] == Obj(map[])
  {
  }

  /**
   * Given that parsing undoes stringifying, inflating the flattened body
   * gives back the fields flatten left in its input, over an empty
   * `_attachments` object.
   */
  lemma {:induction false} FlattenInflateRoundTrip(c: Serializer, json: map<string, Value>)
    requires RoundTrips(c)
    requires Flattened(c, json).Flat?
    ensures Inflated(c, Some(Flattened(c, json).payload.body)) == Some(map["_attachments" := Obj(map[])] + FlattenedInput(c, json))
  {
    var body := Flattened(c, json).payload.body;
    var rest := FlattenedInput(c, json);
    assert body == EncodeFields(c, rest);
    var decoded := map f | f in body :: DecodeOrRaw(c, body[f]);
    forall f | f in body
      ensures decoded[f] == rest[f]
    {
      assert c.decode(c.encode(rest[f])) == Some(rest[f]);
    }
    assert decoded == rest;
  }
}
