/**
 * What the attachment operations do: attachment() reads one named record
 * of a document's attachment hash, saveAttachment() writes one, and
 * removeAttachment() deletes one; records written by save come back with
 * their body.
 */
module AttachmentProperties {
  import opened Options
  import opened Json
  import opened KeyScheme
  import opened Redis
  import opened Codec
  import opened Engine
  import opened SaveProperties

  /** Expiry only ever removes a whole key: a field is kept or the hash is gone. */
  lemma PurgeFields(db: Db, k: string, now: int)
    ensures FieldsOf(Purge(db, now), k) == FieldsOf(db, k) || FieldsOf(Purge(db, now), k) == map[]
  {
  }

  /** A store expiry has just swept keeps every key through the same instant. */
  lemma PurgeSwept(db: Db, now: int, k: string, e: Entry)
    ensures var d := Put(Purge(db, now), k, e); Purge(d, now) == d
  {
    var d := Put(Purge(db, now), k, e);
    assert forall x :: x in d.deadlines ==> d.deadlines[x] >= now;
  }

  /** What attachment() answers for a record, read off the attachment object itself. */
  lemma RecordBodyOfObject(a: map<string, Value>)
    ensures RecordBody(Obj(a)) == Completed(
      if "body" in a && Truthy(a["body"]) && IsObjectLike(a["body"]) then Buffer(a["body"])
      else if "body" in a then Plain(a["body"])
      else Undefined)
  {
  }

  /** attachment() of a name the attachment hash lacks answers null, not an error. */
  lemma FetchMissing(cfg: Config, c: Serializer, db: Db, key: string, name: string, now: int)
    requires var ak := AttachmentKey(cfg.dbname, key);
      !HoldsNonHash(Purge(db, now), ak) && name !in FieldsOf(Purge(db, now), ak)
    ensures FetchAttachment(cfg, c, db, key, name, now) == (Completed(NoAttachment), Purge(db, now))
  {
  }

  /** attachment() of a stored record answers its body (a buffer for an object body). */
  lemma FetchStored(cfg: Config, c: Serializer, db: Db, key: string, name: string, now: int)
    requires RoundTrips(c) && NeverEmpty(c)
    requires var ak := AttachmentKey(cfg.dbname, key);
      !HoldsNonHash(Purge(db, now), ak) && name in FieldsOf(Purge(db, now), ak)
    requires exists record :: FieldsOf(Purge(db, now), AttachmentKey(cfg.dbname, key))[name] == c.encode(record)
    ensures var record :| FieldsOf(Purge(db, now), AttachmentKey(cfg.dbname, key))[name] == c.encode(record);
      FetchAttachment(cfg, c, db, key, name, now) == (RecordBody(record), Purge(db, now))
  {
    var record :| FieldsOf(Purge(db, now), AttachmentKey(cfg.dbname, key))[name] == c.encode(record);
    assert c.decode(c.encode(record)) == Some(record);
  }

  /**
   * saveAttachment() stores the whole attachment object under its name
   * (answering 1 for a new name, 0 for a replaced one), and attachment()
   * then answers its body.
   */
  lemma SaveAttachmentThenFetch(cfg: Config, c: Serializer, db: Db, key: string, attachment: map<string, Value>, now: int)
    requires RoundTrips(c) && NeverEmpty(c)
    requires "name" in attachment && attachment["name"].Str?
    requires !HoldsNonHash(Purge(db, now), AttachmentKey(cfg.dbname, key))
    ensures var name := attachment["name"].s;
      var (r, d) := SaveAttachment(cfg, c, db, key, attachment, now);
      && r == Completed(Integer(if name in FieldsOf(Purge(db, now), AttachmentKey(cfg.dbname, key)) then 0 else 1))
      && FetchAttachment(cfg, c, d, key, name, now).0 == RecordBody(Obj(attachment))
  {
    var ak := AttachmentKey(cfg.dbname, key);
    var name := attachment["name"].s;
    var d := SaveAttachment(cfg, c, db, key, attachment, now).1;
    var e := HashEntry(FieldsOf(Purge(db, now), ak)[name := c.encode(Obj(attachment))]);
    assert d == Put(Purge(db, now), ak, e);
    PurgeSwept(db, now, ak, e);
    assert c.decode(c.encode(Obj(attachment))) == Some(Obj(attachment));
  }

  /**
   * removeAttachment() deletes the named record only (answering 1 when it
   * existed), after which attachment() of that name answers null.
   */
  lemma RemoveAttachmentThenFetch(cfg: Config, c: Serializer, db: Db, key: string, name: string, now: int)
    requires !HoldsNonHash(Purge(db, now), AttachmentKey(cfg.dbname, key))
    ensures var ak := AttachmentKey(cfg.dbname, key);
      var db0 := Purge(db, now);
      var (r, d) := RemoveAttachment(cfg, db, key, name, now);
      && r == Completed(Integer(if name in FieldsOf(db0, ak) then 1 else 0))
      && FieldsOf(d, ak) == FieldsOf(db0, ak) - {name}
      && FetchAttachment(cfg, c, d, key, name, now).0 == Completed(NoAttachment)
  {
    var ak := AttachmentKey(cfg.dbname, key);
    var d := RemoveAttachment(cfg, db, key, name, now).1;
    PurgeFields(d, ak, now);
  }

  /** The attachment operations answer WRONGTYPE when the attachment key holds a set. */
  lemma AttachmentWrongType(cfg: Config, c: Serializer, db: Db, key: string, name: string, now: int)
    requires HoldsNonHash(Purge(db, now), AttachmentKey(cfg.dbname, key))
    ensures FetchAttachment(cfg, c, db, key, name, now).0 == Failed(Rejected(WrongType))
    ensures RemoveAttachment(cfg, db, key, name, now).0 == Failed(Rejected(WrongType))
  {
  }

  /** What attachment() answers for the record save wrote for an attachment entry. */
  lemma AttachmentRecordBody(name: string, entry: Value)
    ensures var body := Property(entry, "body");
      RecordBody(AttachmentRecord(name, entry)) == Completed(
        if body.Some? && Truthy(body.value) && IsObjectLike(body.value) then Buffer(body.value)
        else if body.Some? then Plain(body.value)
        else Undefined)
  {
    AttachmentRecordFields(name, entry);
  }

  /** attachment() of a record stored in a live attachment hash answers that record's body. */
  lemma FetchFromHash(cfg: Config, c: Serializer, d: Db, key: string, name: string, record: Value, now: int)
    requires RoundTrips(c) && NeverEmpty(c)
    requires var ak := AttachmentKey(cfg.dbname, key);
      && ak in d.data && d.data[ak].HashEntry? && ak !in d.deadlines
      && name in d.data[ak].fields && d.data[ak].fields[name] == c.encode(record)
    ensures FetchAttachment(cfg, c, d, key, name, now).0 == RecordBody(record)
  {
    assert c.decode(c.encode(record)) == Some(record);
  }

  /**
   * Round trip through save: each attachment entry save splits off comes
   * back from attachment() as its body -- a buffer when the body is an
   * object, the body itself when it is a primitive, undefined when absent.
   */
  lemma SaveThenFetchAttachment(cfg: Config, c: Serializer, db: Db, obj: Instance, json: map<string, Value>, name: string, now: int)
    requires RoundTrips(c) && NeverEmpty(c)
    requires Saveable(c, obj, json)
    requires name in AttachmentEntries(json)
    requires var ak := AttachmentKey(cfg.dbname, obj.key.value);
      !HoldsNonHash(Purge(db, now), ak) && ak !in db.deadlines
    ensures var d := Save(cfg, c, db, obj, json, now).1;
      FetchAttachment(cfg, c, d, obj.key.value, name, now).0
        == RecordBody(AttachmentRecord(name, AttachmentEntries(json)[name]))
  {
    var records := Records(c, json);
    var record := AttachmentRecord(name, AttachmentEntries(json)[name]);
    assert records == EncodeRecords(c, AttachmentEntries(json));
    assert name in records && records[name] == c.encode(record);
    SaveWritesAttachments(cfg, c, db, obj, json, now);
    FetchFromHash(cfg, c, Save(cfg, c, db, obj, json, now).1, obj.key.value, name, record, now);
  }
}
