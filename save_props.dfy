/**
 * What save does to the store: the chain it queues, the fields, id-set
 * membership, attachment hash and expiry it leaves behind, and the keys it
 * leaves alone.
 */
module SaveProperties {
  import opened Options
  import opened Json
  import opened KeyScheme
  import opened Redis
  import opened Codec
  import opened Engine

  /** save gets as far as EXEC: a key, attachments split off, a non-empty body. */
  predicate Saveable(c: Serializer, obj: Instance, json: map<string, Value>)
  {
    && HasKey(obj)
    && Flattened(c, json).Flat?
    && Flattened(c, json).payload.attachments.Some?
    && Flattened(c, json).payload.body != map[]
  }

  function Body(c: Serializer, json: map<string, Value>): map<string, string>
    requires Flattened(c, json).Flat?
  {
    Flattened(c, json).payload.body
  }

  function Records(c: Serializer, json: map<string, Value>): map<string, string>
    requires Flattened(c, json).Flat? && Flattened(c, json).payload.attachments.Some?
  {
    Flattened(c, json).payload.attachments.value
  }

  function IdStage(cfg: Config, key: string): seq<Command>
  {
    if !cfg.ephemeral then [SAdd(IdsKey(cfg.dbname), key)] else []
  }

  function AttachStage(cfg: Config, key: string, records: map<string, string>): seq<Command>
  {
    if records != map[] then [HMSet(AttachmentKey(cfg.dbname, key), records)] else []
  }

  function ExpiryStage(cfg: Config, obj: Instance, key: string): seq<Command>
  {
    if cfg.ephemeral then ExpiryCommands(HashKey(cfg.dbname, key), obj.ttl, obj.expireAt) else []
  }

  /** The deadline (ms) an ephemeral save asks for, if any. */
  function RequestedDeadline(obj: Instance, now: int): Option<int>
  {
    if obj.ttl.Some? && obj.ttl.value > 0 then Some(now + obj.ttl.value * 1000)
    else if obj.expireAt.Some? && obj.expireAt.value > 0.0 then Some(obj.expireAt.value.Floor * 1000)
    else None
  }

  /** An ephemeral save whose requested deadline is already past. */
  predicate PastDeadline(cfg: Config, obj: Instance, now: int)
  {
    cfg.ephemeral && RequestedDeadline(obj, now).Some? && RequestedDeadline(obj, now).value <= now
  }

  /** The chain save queues for `obj` once the body and records are split. */
  function Batch(cfg: Config, obj: Instance, body: map<string, string>, records: map<string, string>): seq<Command>
    requires HasKey(obj)
  {
    SaveBatch(cfg, obj.key.value, body, records, obj.ttl, obj.expireAt)
  }

  /** The store after the HMSET and the id stage, and after the attachment stage as well. */
  function AfterIds(cfg: Config, obj: Instance, body: map<string, string>, db: Db, now: int): Db
    requires HasKey(obj)
  {
    Run(Step(db, HMSet(HashKey(cfg.dbname, obj.key.value), body), now).0, IdStage(cfg, obj.key.value), now).db
  }

  function AfterAttachments(cfg: Config, obj: Instance, body: map<string, string>, records: map<string, string>, db: Db, now: int): Db
    requires HasKey(obj)
  {
    Run(AfterIds(cfg, obj, body, db, now), AttachStage(cfg, obj.key.value, records), now).db
  }

  /** The chain runs as HMSET, then the id, attachment and expiry stages. */
  lemma BatchStages(cfg: Config, obj: Instance, body: map<string, string>, records: map<string, string>, db: Db, now: int)
    requires HasKey(obj)
    ensures Run(db, Batch(cfg, obj, body, records), now).db
         == Run(AfterAttachments(cfg, obj, body, records, db, now), ExpiryStage(cfg, obj, obj.key.value), now).db
    ensures Run(db, Batch(cfg, obj, body, records), now).replies[0]
         == Step(db, HMSet(HashKey(cfg.dbname, obj.key.value), body), now).1
  {
    var key := obj.key.value;
    var h := [HMSet(HashKey(cfg.dbname, key), body)];
    var s, a, e := IdStage(cfg, key), AttachStage(cfg, key, records), ExpiryStage(cfg, obj, key);
    assert Batch(cfg, obj, body, records) == h + s + a + e;
    RunAppend(db, h + s + a, e, now);
    RunAppend(db, h + s, a, now);
    RunAppend(db, h, s, now);
    RunSingleton(db, h[0], now);
  }

  /** Past its guards, save is EXEC of the batch on the store expiry leaves. */
  lemma SaveRunsBatch(cfg: Config, c: Serializer, db: Db, obj: Instance, json: map<string, Value>, now: int)
    requires Saveable(c, obj, json)
    ensures var o := Run(Purge(db, now), Batch(cfg, obj, Body(c, json), Records(c, json)), now);
      Save(cfg, c, db, obj, json, now) == (Completed(o.replies[0]), o.db)
  {
    var chain := Batch(cfg, obj, Body(c, json), Records(c, json));
    BatchWellFormed(cfg, obj, Body(c, json), Records(c, json));
    TransactionRuns(db, chain, now);
  }

  /** A body with fields makes every command of the chain pass EXEC's arity check. */
  lemma BatchWellFormed(cfg: Config, obj: Instance, body: map<string, string>, records: map<string, string>)
    requires HasKey(obj) && body != map[]
    ensures var chain := Batch(cfg, obj, body, records);
      forall i :: 0 <= i < |chain| ==> WellFormed(chain[i])
  {
    var chain := Batch(cfg, obj, body, records);
    forall i | 0 <= i < |chain| ensures WellFormed(chain[i]) {
    }
  }

  /** The HMSET of a document whose key holds no set or the like writes its fields. */
  lemma FirstStageStoresBody(cfg: Config, obj: Instance, body: map<string, string>, records: map<string, string>, db: Db, now: int)
    requires HasKey(obj) && body != map[]
    requires !HoldsNonHash(db, HashKey(cfg.dbname, obj.key.value))
    requires !cfg.ephemeral ==> obj.key.value != "ids"
    ensures Run(db, Batch(cfg, obj, body, records), now).replies[0] == Status("OK")
    ensures var hk := HashKey(cfg.dbname, obj.key.value);
      var d := AfterAttachments(cfg, obj, body, records, db, now);
      hk in d.data && d.data[hk] == HashEntry(FieldsOf(db, hk) + body)
  {
    BatchStages(cfg, obj, body, records, db, now);
    var key := obj.key.value;
    var hk := HashKey(cfg.dbname, key);
    var d1 := Step(db, HMSet(hk, body), now).0;
    assert d1 == Put(db, hk, HashEntry(FieldsOf(db, hk) + body));
    HashKeyIsIdsKey(cfg.dbname, key);
    RunFrame(d1, IdStage(cfg, key), now, hk);
    AttachmentKeyDistinct(cfg.dbname, key);
    RunFrame(AfterIds(cfg, obj, body, db, now), AttachStage(cfg, key, records), now, hk);
  }

  /** The batch writes nothing but the document's hash, its attachment hash and the id set. */
  lemma BatchFrame(cfg: Config, obj: Instance, body: map<string, string>, records: map<string, string>, db: Db, now: int, k: string)
    requires HasKey(obj)
    requires k != HashKey(cfg.dbname, obj.key.value) && k != AttachmentKey(cfg.dbname, obj.key.value)
    requires !cfg.ephemeral ==> k != IdsKey(cfg.dbname)
    ensures Slot(Run(db, Batch(cfg, obj, body, records), now).db, k) == Slot(db, k)
  {
    BatchStages(cfg, obj, body, records, db, now);
    var key := obj.key.value;
    StepFrame(db, HMSet(HashKey(cfg.dbname, key), body), now, k);
    RunFrame(Step(db, HMSet(HashKey(cfg.dbname, key), body), now).0, IdStage(cfg, key), now, k);
    RunFrame(AfterIds(cfg, obj, body, db, now), AttachStage(cfg, key, records), now, k);
    RunFrame(AfterAttachments(cfg, obj, body, records, db, now), ExpiryStage(cfg, obj, key), now, k);
  }

  /** The batch merges non-empty records into the attachment hash, and leaves it alone otherwise. */
  lemma BatchWritesAttachments(cfg: Config, obj: Instance, body: map<string, string>, records: map<string, string>, db: Db, now: int)
    requires HasKey(obj)
    ensures var ak := AttachmentKey(cfg.dbname, obj.key.value);
      var d := Run(db, Batch(cfg, obj, body, records), now).db;
      && (records != map[] && !HoldsNonHash(db, ak) ==> ak in d.data && d.data[ak] == HashEntry(FieldsOf(db, ak) + records))
      && (records == map[] ==> Slot(d, ak) == Slot(db, ak))
      && Slot(d, ak).1 == Slot(db, ak).1
  {
    BatchStages(cfg, obj, body, records, db, now);
    var key := obj.key.value;
    var hk, ak := HashKey(cfg.dbname, key), AttachmentKey(cfg.dbname, key);
    AttachmentKeyDistinct(cfg.dbname, key);
    StepFrame(db, HMSet(hk, body), now, ak);
    RunFrame(Step(db, HMSet(hk, body), now).0, IdStage(cfg, key), now, ak);
    var a := AttachStage(cfg, key, records);
    if a != [] {
      RunSingleton(AfterIds(cfg, obj, body, db, now), a[0], now);
    }
    RunFrame(AfterAttachments(cfg, obj, body, records, db, now), ExpiryStage(cfg, obj, key), now, ak);
  }

  /** With no id set yet, the persistent batch of the document keyed "ids" leaves a hash at the id set's key. */
  lemma BatchKeyedIds(cfg: Config, obj: Instance, body: map<string, string>, records: map<string, string>, db: Db, now: int)
    requires HasKey(obj) && body != map[]
    requires !cfg.ephemeral && obj.key.value == "ids"
    requires IdsKey(cfg.dbname) !in db.data
    ensures Run(db, Batch(cfg, obj, body, records), now).replies[0] == Status("OK")
    ensures var d := Run(db, Batch(cfg, obj, body, records), now).db;
      IdsKey(cfg.dbname) in d.data && d.data[IdsKey(cfg.dbname)].HashEntry?
  {
    BatchStages(cfg, obj, body, records, db, now);
    var ids := IdsKey(cfg.dbname);
    assert HashKey(cfg.dbname, "ids") == ids;
    var d1 := Step(db, HMSet(ids, body), now).0;
    assert ids in d1.data && d1.data[ids].HashEntry?;
    RunSingleton(d1, SAdd(ids, "ids"), now);
    AttachmentKeyDistinct(cfg.dbname, "ids");
    RunFrame(AfterIds(cfg, obj, body, db, now), AttachStage(cfg, "ids", records), now, ids);
  }

  /** With the id set already in place, the HMSET of the "ids" document hits WRONGTYPE and the SADD goes through. */
  lemma BatchKeyedIdsOverSet(cfg: Config, obj: Instance, body: map<string, string>, records: map<string, string>, db: Db, now: int)
    requires HasKey(obj) && body != map[]
    requires !cfg.ephemeral && obj.key.value == "ids"
    requires IdsKey(cfg.dbname) in db.data && db.data[IdsKey(cfg.dbname)].SetEntry?
    ensures Run(db, Batch(cfg, obj, body, records), now).replies[0] == Error(WrongType)
    ensures var d := Run(db, Batch(cfg, obj, body, records), now).db;
      && IdsKey(cfg.dbname) in d.data
      && MembersOf(d, IdsKey(cfg.dbname)) == MembersOf(db, IdsKey(cfg.dbname)) + {"ids"}
  {
    BatchStages(cfg, obj, body, records, db, now);
    var ids := IdsKey(cfg.dbname);
    assert HashKey(cfg.dbname, "ids") == ids;
    assert Step(db, HMSet(ids, body), now).0 == db;
    RunSingleton(db, SAdd(ids, "ids"), now);
    AttachmentKeyDistinct(cfg.dbname, "ids");
    RunFrame(AfterIds(cfg, obj, body, db, now), AttachStage(cfg, "ids", records), now, ids);
  }

  /** The batch's HMSET stores the body and, unless the requested deadline is past, the hash survives. */
  lemma BatchStoresBody(cfg: Config, obj: Instance, body: map<string, string>, records: map<string, string>, db: Db, now: int)
    requires HasKey(obj) && body != map[]
    requires !HoldsNonHash(db, HashKey(cfg.dbname, obj.key.value))
    requires !cfg.ephemeral ==> obj.key.value != "ids"
    requires !PastDeadline(cfg, obj, now)
    ensures Run(db, Batch(cfg, obj, body, records), now).replies[0] == Status("OK")
    ensures var hk := HashKey(cfg.dbname, obj.key.value);
      var d := Run(db, Batch(cfg, obj, body, records), now).db;
      hk in d.data && d.data[hk] == HashEntry(FieldsOf(db, hk) + body)
  {
    BatchStages(cfg, obj, body, records, db, now);
    FirstStageStoresBody(cfg, obj, body, records, db, now);
    var e := ExpiryStage(cfg, obj, obj.key.value);
    if e != [] {
      RunSingleton(AfterAttachments(cfg, obj, body, records, db, now), e[0], now);
    }
  }

  /**
   * The document's hash ends up holding its previous fields overwritten by
   * the flattened body, and the callback gets HMSET's "OK" -- unless an
   * ephemeral save asks for a deadline already past (SavePastDeadlineDeletes).
   */
  lemma SaveStoresBody(cfg: Config, c: Serializer, db: Db, obj: Instance, json: map<string, Value>, now: int)
    requires Saveable(c, obj, json)
    requires !HoldsNonHash(Purge(db, now), HashKey(cfg.dbname, obj.key.value))
    requires !cfg.ephemeral ==> obj.key.value != "ids"
    requires !PastDeadline(cfg, obj, now)
    ensures Save(cfg, c, db, obj, json, now).0 == Completed(Status("OK"))
    ensures var hk := HashKey(cfg.dbname, obj.key.value);
      var d := Save(cfg, c, db, obj, json, now).1;
      hk in d.data && d.data[hk] == HashEntry(FieldsOf(Purge(db, now), hk) + Body(c, json))
  {
    SaveRunsBatch(cfg, c, db, obj, json, now);
    BatchStoresBody(cfg, obj, Body(c, json), Records(c, json), Purge(db, now), now);
  }

  /** A past requested deadline deletes the hash the batch's HMSET wrote. */
  lemma BatchPastDeadlineDeletes(cfg: Config, obj: Instance, body: map<string, string>, records: map<string, string>, db: Db, now: int)
    requires HasKey(obj) && body != map[]
    requires !HoldsNonHash(db, HashKey(cfg.dbname, obj.key.value))
    requires PastDeadline(cfg, obj, now)
    ensures Run(db, Batch(cfg, obj, body, records), now).replies[0] == Status("OK")
    ensures var hk := HashKey(cfg.dbname, obj.key.value);
      var d := Run(db, Batch(cfg, obj, body, records), now).db;
      hk !in d.data && hk !in d.deadlines
  {
    BatchStages(cfg, obj, body, records, db, now);
    FirstStageStoresBody(cfg, obj, body, records, db, now);
    var e := ExpiryStage(cfg, obj, obj.key.value);
    assert e == [ExpireAt(HashKey(cfg.dbname, obj.key.value), obj.expireAt.value.Floor)];
    RunSingleton(AfterAttachments(cfg, obj, body, records, db, now), e[0], now);
  }

  /**
   * An ephemeral save whose expire_at is not after the current second has
   * its EXPIREAT delete the document it has just written; HMSET still
   * replies "OK".
   */
  lemma SavePastDeadlineDeletes(cfg: Config, c: Serializer, db: Db, obj: Instance, json: map<string, Value>, now: int)
    requires Saveable(c, obj, json)
    requires !HoldsNonHash(Purge(db, now), HashKey(cfg.dbname, obj.key.value))
    requires PastDeadline(cfg, obj, now)
    ensures Save(cfg, c, db, obj, json, now).0 == Completed(Status("OK"))
    ensures var hk := HashKey(cfg.dbname, obj.key.value);
      var d := Save(cfg, c, db, obj, json, now).1;
      hk !in d.data && hk !in d.deadlines
  {
    SaveRunsBatch(cfg, c, db, obj, json, now);
    BatchPastDeadlineDeletes(cfg, obj, Body(c, json), Records(c, json), Purge(db, now), now);
  }

  /** The batch of a persistent save adds the key to the id set. */
  lemma BatchRegistersId(cfg: Config, obj: Instance, body: map<string, string>, records: map<string, string>, db: Db, now: int)
    requires HasKey(obj) && body != map[]
    requires !cfg.ephemeral && obj.key.value != "ids"
    requires !HoldsNonSet(db, IdsKey(cfg.dbname))
    ensures var ids := IdsKey(cfg.dbname);
      var d := Run(db, Batch(cfg, obj, body, records), now).db;
      ids in d.data && MembersOf(d, ids) == MembersOf(db, ids) + {obj.key.value}
  {
    BatchStages(cfg, obj, body, records, db, now);
    var key := obj.key.value;
    var hk, ids := HashKey(cfg.dbname, key), IdsKey(cfg.dbname);
    HashKeyIsIdsKey(cfg.dbname, key);
    StepFrame(db, HMSet(hk, body), now, ids);
    RunSingleton(Step(db, HMSet(hk, body), now).0, SAdd(ids, key), now);
    AttachmentKeyDistinct(cfg.dbname, key);
    RunFrame(AfterIds(cfg, obj, body, db, now), AttachStage(cfg, key, records), now, ids);
  }

  /** A persistent save adds the key to the id set (the key "ids" excepted, see SaveKeyedIdsBreaksAll). */
  lemma SaveRegistersId(cfg: Config, c: Serializer, db: Db, obj: Instance, json: map<string, Value>, now: int)
    requires Saveable(c, obj, json)
    requires !cfg.ephemeral && obj.key.value != "ids"
    requires !HoldsNonSet(Purge(db, now), IdsKey(cfg.dbname))
    ensures var ids := IdsKey(cfg.dbname);
      var d := Save(cfg, c, db, obj, json, now).1;
      ids in d.data && MembersOf(d, ids) == MembersOf(Purge(db, now), ids) + {obj.key.value}
  {
    SaveRunsBatch(cfg, c, db, obj, json, now);
    BatchRegistersId(cfg, obj, Body(c, json), Records(c, json), Purge(db, now), now);
  }

  /**
   * The attachment records are merged into the attachment hash when there
   * are any; with none, the attachment hash is left as it was.
   */
  lemma SaveWritesAttachments(cfg: Config, c: Serializer, db: Db, obj: Instance, json: map<string, Value>, now: int)
    requires Saveable(c, obj, json)
    ensures var ak := AttachmentKey(cfg.dbname, obj.key.value);
      var d := Save(cfg, c, db, obj, json, now).1;
      && (Records(c, json) != map[] && !HoldsNonHash(Purge(db, now), ak) ==>
            ak in d.data && d.data[ak] == HashEntry(FieldsOf(Purge(db, now), ak) + Records(c, json)))
      && (Records(c, json) == map[] ==> Slot(d, ak) == Slot(Purge(db, now), ak))
      && Slot(d, ak).1 == Slot(Purge(db, now), ak).1
  {
    SaveRunsBatch(cfg, c, db, obj, json, now);
    BatchWritesAttachments(cfg, obj, Body(c, json), Records(c, json), Purge(db, now), now);
  }

  /**
   * save writes only the document's hash, its attachment hash and, in a
   * persistent collection, the id set; every other key is as expiry left it.
   */
  lemma SaveFrame(cfg: Config, c: Serializer, db: Db, obj: Instance, json: map<string, Value>, now: int, k: string)
    requires Saveable(c, obj, json)
    requires k != HashKey(cfg.dbname, obj.key.value) && k != AttachmentKey(cfg.dbname, obj.key.value)
    requires !cfg.ephemeral ==> k != IdsKey(cfg.dbname)
    ensures Slot(Save(cfg, c, db, obj, json, now).1, k) == Slot(Purge(db, now), k)
  {
    SaveRunsBatch(cfg, c, db, obj, json, now);
    BatchFrame(cfg, obj, Body(c, json), Records(c, json), Purge(db, now), now, k);
  }

  /** Without a requested expiry the batch leaves every deadline alone. */
  lemma BatchKeepsDeadlines(cfg: Config, obj: Instance, body: map<string, string>, records: map<string, string>, db: Db, now: int)
    requires HasKey(obj)
    requires !cfg.ephemeral || RequestedDeadline(obj, now).None?
    ensures Run(db, Batch(cfg, obj, body, records), now).db.deadlines == db.deadlines
  {
    var chain := Batch(cfg, obj, body, records);
    assert forall i :: 0 <= i < |chain| ==> KeepsDeadlines(chain[i]);
    RunKeepsDeadlines(db, chain, now);
  }

  /**
   * A persistent save, and an ephemeral one that asks for no expiry, leave
   * every deadline alone: in particular a re-saved ephemeral document keeps
   * the expiry it had.
   */
  lemma SaveKeepsDeadlines(cfg: Config, c: Serializer, db: Db, obj: Instance, json: map<string, Value>, now: int)
    requires Saveable(c, obj, json)
    requires !cfg.ephemeral || RequestedDeadline(obj, now).None?
    ensures Save(cfg, c, db, obj, json, now).1.deadlines == Purge(db, now).deadlines
  {
    SaveRunsBatch(cfg, c, db, obj, json, now);
    BatchKeepsDeadlines(cfg, obj, Body(c, json), Records(c, json), Purge(db, now), now);
  }

  /** A future requested deadline becomes the hash's deadline. */
  lemma BatchSetsDeadline(cfg: Config, obj: Instance, body: map<string, string>, records: map<string, string>, db: Db, now: int)
    requires HasKey(obj) && body != map[]
    requires !HoldsNonHash(db, HashKey(cfg.dbname, obj.key.value))
    requires cfg.ephemeral && RequestedDeadline(obj, now).Some? && RequestedDeadline(obj, now).value > now
    ensures var hk := HashKey(cfg.dbname, obj.key.value);
      var d := Run(db, Batch(cfg, obj, body, records), now).db;
      hk in d.data && hk in d.deadlines && d.deadlines[hk] == RequestedDeadline(obj, now).value
  {
    BatchStages(cfg, obj, body, records, db, now);
    FirstStageStoresBody(cfg, obj, body, records, db, now);
    var e := ExpiryStage(cfg, obj, obj.key.value);
    RunSingleton(AfterAttachments(cfg, obj, body, records, db, now), e[0], now);
  }

  /**
   * An ephemeral save with a future deadline gives the document exactly
   * that deadline; the document is readable up to and including that
   * instant and gone at any later one.
   */
  lemma SaveSetsDeadline(cfg: Config, c: Serializer, db: Db, obj: Instance, json: map<string, Value>, now: int, later: int)
    requires Saveable(c, obj, json)
    requires !HoldsNonHash(Purge(db, now), HashKey(cfg.dbname, obj.key.value))
    requires cfg.ephemeral && RequestedDeadline(obj, now).Some? && RequestedDeadline(obj, now).value > now
    ensures var hk := HashKey(cfg.dbname, obj.key.value);
      var d := Save(cfg, c, db, obj, json, now).1;
      && hk in d.data
      && hk in d.deadlines && d.deadlines[hk] == RequestedDeadline(obj, now).value
      && (later > RequestedDeadline(obj, now).value ==> hk !in Purge(d, later).data)
      && (later <= RequestedDeadline(obj, now).value ==> hk in Purge(d, later).data)
  {
    SaveRunsBatch(cfg, c, db, obj, json, now);
    BatchSetsDeadline(cfg, obj, Body(c, json), Records(c, json), Purge(db, now), now);
  }

  /**
   * A persistent document keyed "ids" has the collection's id set key as
   * its hash key: when no id set exists yet (no document saved before), the
   * HMSET claims the key, the SADD that follows hits WRONGTYPE, and every
   * later all() fails with WRONGTYPE.
   */
  lemma SaveKeyedIdsBreaksAll(cfg: Config, c: Serializer, db: Db, obj: Instance, json: map<string, Value>, now: int, later: int)
    requires Saveable(c, obj, json)
    requires !cfg.ephemeral && obj.key.value == "ids"
    requires IdsKey(cfg.dbname) !in db.data && IdsKey(cfg.dbname) !in db.deadlines
    ensures Save(cfg, c, db, obj, json, now).0 == Completed(Status("OK"))
    ensures All(cfg, Save(cfg, c, db, obj, json, now).1, later).0 == Failed(Rejected(WrongType))
  {
    SaveRunsBatch(cfg, c, db, obj, json, now);
    BatchKeyedIds(cfg, obj, Body(c, json), Records(c, json), Purge(db, now), now);
    SaveKeepsDeadlines(cfg, c, db, obj, json, now);
    var d := Save(cfg, c, db, obj, json, now).1;
    assert HoldsNonSet(Purge(d, later), IdsKey(cfg.dbname));
  }

  /**
   * Once the id set exists, saving a persistent document keyed "ids" stores
   * nothing under its hash key: the HMSET is refused with WRONGTYPE, which is
   * save's answer, while the SADD adds "ids" to the set, so every later
   * all() lists "ids" beside the ids it listed before.
   */
  lemma SaveKeyedIdsIntoSet(cfg: Config, c: Serializer, db: Db, obj: Instance, json: map<string, Value>, now: int, later: int)
    requires Saveable(c, obj, json)
    requires !cfg.ephemeral && obj.key.value == "ids"
    requires IdsKey(cfg.dbname) in db.data && db.data[IdsKey(cfg.dbname)].SetEntry? && IdsKey(cfg.dbname) !in db.deadlines
    ensures Save(cfg, c, db, obj, json, now).0 == Completed(Error(WrongType))
    ensures All(cfg, Save(cfg, c, db, obj, json, now).1, later).0
         == Completed(MembersOf(db, IdsKey(cfg.dbname)) + {"ids"})
  {
    SaveRunsBatch(cfg, c, db, obj, json, now);
    var ids := IdsKey(cfg.dbname);
    assert ids in Purge(db, now).data && MembersOf(Purge(db, now), ids) == MembersOf(db, ids);
    BatchKeyedIdsOverSet(cfg, obj, Body(c, json), Records(c, json), Purge(db, now), now);
    SaveKeepsDeadlines(cfg, c, db, obj, json, now);
    var d := Save(cfg, c, db, obj, json, now).1;
    assert ids in Purge(d, later).data && MembersOf(Purge(d, later), ids) == MembersOf(d, ids);
  }

  /** save keeps the store well formed. */
  lemma SaveKeepsValid(cfg: Config, c: Serializer, db: Db, obj: Instance, json: map<string, Value>, now: int)
    requires Valid(db)
    ensures Valid(Save(cfg, c, db, obj, json, now).1)
  {
    if Saveable(c, obj, json) {
      TransactionValid(db, Batch(cfg, obj, Body(c, json), Records(c, json)), now);
    } else if HasKey(obj) && Flattened(c, json).Flat? && Flattened(c, json).payload.attachments.Some? {
      SaveEmptyBodyAborts(cfg, c, db, obj, json, now);
    }
  }

  /**
   * What save queues: the HMSET of the body first, the SADD into the id set
   * exactly when the collection is persistent, the attachment HMSET exactly
   * when there are attachments, and at most one expiry command, EXPIRE when
   * a positive ttl is given and otherwise EXPIREAT for a positive expire_at.
   */
  lemma SaveBatchContents(cfg: Config, key: string, body: map<string, string>, records: map<string, string>,
                          ttl: Option<int>, expireAt: Option<real>)
    ensures var batch := SaveBatch(cfg, key, body, records, ttl, expireAt);
      && batch[0] == HMSet(HashKey(cfg.dbname, key), body)
      && (SAdd(IdsKey(cfg.dbname), key) in batch <==> !cfg.ephemeral)
      && (HMSet(AttachmentKey(cfg.dbname, key), records) in batch <==> records != map[])
      && (forall t :: Expire(HashKey(cfg.dbname, key), t) in batch <==> cfg.ephemeral && ttl == Some(t) && t > 0)
      && (forall t :: ExpireAt(HashKey(cfg.dbname, key), t) in batch <==>
            cfg.ephemeral && !(ttl.Some? && ttl.value > 0) && expireAt.Some? && expireAt.value > 0.0 && t == expireAt.value.Floor)
      && (forall i, j :: 0 <= i < j < |batch| && (batch[i].Expire? || batch[i].ExpireAt?) ==> !(batch[j].Expire? || batch[j].ExpireAt?))
  {
    AttachmentKeyDistinct(cfg.dbname, key);
  }

  /** save without a key throws before queuing anything. */
  lemma SaveWithoutKey(cfg: Config, c: Serializer, db: Db, obj: Instance, json: map<string, Value>, now: int)
    requires !HasKey(obj)
    ensures Save(cfg, c, db, obj, json, now) == (Threw(KeyRequired), db)
  {
  }

  /**
   * A document with nothing left to store after flattening queues an HMSET
   * without fields: EXEC is refused, nothing is written, and the callback
   * throws reading the missing replies.
   */
  lemma SaveEmptyBodyAborts(cfg: Config, c: Serializer, db: Db, obj: Instance, json: map<string, Value>, now: int)
    requires HasKey(obj) && Flattened(c, json).Flat? && Flattened(c, json).payload.attachments.Some?
    requires Flattened(c, json).payload.body == map[]
    ensures Save(cfg, c, db, obj, json, now) == (Threw(RepliesUndefined), db)
  {
    var chain := SaveBatch(cfg, obj.key.value, Body(c, json), Records(c, json), obj.ttl, obj.expireAt);
    assert !WellFormed(chain[0]);
    TransactionRuns(db, chain, now);
  }
}
