/**
 * What get and getBatch hand back: null for a missing document, the
 * inflated hash (with ttl and expire_at in an ephemeral collection) for a
 * stored one, and -- for a list of keys -- the documents of the present keys
 * among the first ceil(2n/3), in key order.
 */
module ReadProperties {
  import opened Options
  import opened Json
  import opened KeyScheme
  import opened Redis
  import opened Codec
  import opened Engine
  import opened SaveProperties

  /** What TTL reports for a live key, in seconds: -1 when it has no deadline. */
  function RemainingTtl(db: Db, k: string, now: int): int
  {
    if k !in db.deadlines then -1 else (Max(db.deadlines[k] - now, 0) + 500) / 1000
  }

  /** HGETALL's reply on a store: WRONGTYPE on a set, else the hash (empty when absent). */
  function HashReply(db: Db, k: string): Reply
  {
    if HoldsNonHash(db, k) then Error(WrongType) else Fields(FieldsOf(db, k))
  }

  /** TTL's reply on a store: -2 for an absent key. */
  function TtlReply(db: Db, k: string, now: int): Reply
  {
    Integer(if k !in db.data then -2 else RemainingTtl(db, k, now))
  }

  /** HGETALL and TTL change nothing and answer HashReply and TtlReply. */
  lemma ReadSteps(db: Db, k: string, now: int)
    ensures Step(db, HGetAll(k), now) == (db, HashReply(db, k))
    ensures Step(db, Ttl(k), now) == (db, TtlReply(db, k, now))
  {
  }

  /** The transaction of get only reads: it sees the store as expiry leaves it. */
  lemma GetReads(cfg: Config, db: Db, key: string, now: int)
    ensures var hk := HashKey(cfg.dbname, key);
      var db0 := Purge(db, now);
      Transaction(db, GetChain(cfg, key), now) == (db0, Replies([HashReply(db0, hk), TtlReply(db0, hk, now)]))
  {
    var chain := GetChain(cfg, key);
    TransactionRuns(db, chain, now);
    var db0 := Purge(db, now);
    RunReadOnly(db0, chain, now);
    ReadSteps(db0, HashKey(cfg.dbname, key), now);
    var replies := Run(db0, chain, now).replies;
    assert replies == [replies[0], replies[1]];
  }

  /** get of a key with no stored document answers null, not an error. */
  lemma GetMissing(cfg: Config, c: Serializer, db: Db, key: string, now: int)
    requires HashKey(cfg.dbname, key) !in Purge(db, now).data
    ensures GetOne(cfg, c, db, key, now) == (Completed(One(None)), Purge(db, now))
  {
    GetReads(cfg, db, key, now);
  }

  /**
   * get of a stored document answers its inflated hash, with the remaining
   * ttl and the matching expire_at in an ephemeral collection.
   */
  lemma GetFound(cfg: Config, c: Serializer, db: Db, key: string, now: int)
    requires Valid(db)
    requires var hk := HashKey(cfg.dbname, key); hk in Purge(db, now).data && Purge(db, now).data[hk].HashEntry?
    ensures var hk := HashKey(cfg.dbname, key);
      var db0 := Purge(db, now);
      GetOne(cfg, c, db, key, now)
        == (Completed(One(Some(Materialize(cfg, c, db0.data[hk].fields, RemainingTtl(db0, hk, now), now)))), db0)
  {
    GetReads(cfg, db, key, now);
    var hk := HashKey(cfg.dbname, key);
    assert NonEmpty(Purge(db, now).data[hk]);
  }

  /**
   * get never reports an error once EXEC runs: a key that holds a set comes
   * back as a document with no fields, because the client hands the error
   * reply over as an object.
   */
  lemma GetNeverFails(cfg: Config, c: Serializer, db: Db, key: string, now: int)
    ensures GetOne(cfg, c, db, key, now).0.Completed?
    ensures GetOne(cfg, c, db, key, now).1 == Purge(db, now)
    ensures HoldsNonHash(Purge(db, now), HashKey(cfg.dbname, key)) ==>
      GetOne(cfg, c, db, key, now).0.value == One(Some(Materialize(cfg, c, map[], 
        RemainingTtl(Purge(db, now), HashKey(cfg.dbname, key), now), now)))
  {
    GetReads(cfg, db, key, now);
  }

  /**
   * The document get builds: every stored field inflated, and in an
   * ephemeral collection `ttl` and `expire_at` = floor(now / 1000 + ttl).
   */
  lemma MaterializeFields(cfg: Config, c: Serializer, item: map<string, string>, ttl: int, now: int)
    ensures var doc := Materialize(cfg, c, item, ttl, now);
      && (cfg.ephemeral ==> doc.Keys == item.Keys + {"_attachments", "ttl", "expire_at"})
      && (cfg.ephemeral ==> doc["ttl"] == Num(ttl) && doc["expire_at"] == Num(now / 1000 + ttl))
      && (!cfg.ephemeral ==> doc == Inflated(c, Some(item)).value)
      && forall f :: f in item && f != "ttl" && f != "expire_at" ==> doc[f] == DecodeOrRaw(c, item[f])
  {
    InflatedFields(c, item);
  }

  /**
   * Round trip through the store: once a persistent save of a new document
   * succeeds, get at the same instant answers the saved object (as flatten
   * left it) with an empty `_attachments`.
   */
  lemma SaveThenGet(cfg: Config, c: Serializer, db: Db, obj: Instance, json: map<string, Value>, now: int)
    requires RoundTrips(c) && Valid(db)
    requires Saveable(c, obj, json)
    requires !cfg.ephemeral && obj.key.value != "ids"
    requires HashKey(cfg.dbname, obj.key.value) !in Purge(db, now).data
    ensures var d := Save(cfg, c, db, obj, json, now).1;
      GetOne(cfg, c, d, obj.key.value, now).0
        == Completed(One(Some(map["_attachments" := Obj(map[])] + FlattenedInput(c, json))))
  {
    var hk := HashKey(cfg.dbname, obj.key.value);
    SaveStoresBody(cfg, c, db, obj, json, now);
    SaveKeepsDeadlines(cfg, c, db, obj, json, now);
    SaveKeepsValid(cfg, c, db, obj, json, now);
    var d := Save(cfg, c, db, obj, json, now).1;
    assert FieldsOf(Purge(db, now), hk) == map[];
    assert d.data[hk] == HashEntry(Body(c, json));
    GetStoredBody(cfg, c, d, obj.key.value, json, now);
  }

  /** A persistent hash holding a flattened body reads back as the object flatten left. */
  lemma GetStoredBody(cfg: Config, c: Serializer, d: Db, key: string, json: map<string, Value>, now: int)
    requires RoundTrips(c) && Valid(d) && !cfg.ephemeral
    requires Flattened(c, json).Flat?
    requires var hk := HashKey(cfg.dbname, key);
      hk in d.data && d.data[hk] == HashEntry(Body(c, json)) && hk !in d.deadlines
    ensures GetOne(cfg, c, d, key, now).0
      == Completed(One(Some(map["_attachments" := Obj(map[])] + FlattenedInput(c, json))))
  {
    var hk := HashKey(cfg.dbname, key);
    assert hk in Purge(d, now).data && Purge(d, now).data[hk] == d.data[hk];
    GetFound(cfg, c, d, key, now);
    FlattenInflateRoundTrip(c, json);
  }

  /** A live document with deadline `now + t` seconds reads back with ttl `t`. */
  lemma GetWithDeadline(cfg: Config, c: Serializer, db: Db, key: string, t: int, now: int)
    requires Valid(db) && t > 0
    requires var hk := HashKey(cfg.dbname, key);
      hk in db.data && db.data[hk].HashEntry? && hk in db.deadlines && db.deadlines[hk] == now + t * 1000
    ensures var hk := HashKey(cfg.dbname, key);
      GetOne(cfg, c, db, key, now).0 == Completed(One(Some(Materialize(cfg, c, db.data[hk].fields, t, now))))
  {
    var hk := HashKey(cfg.dbname, key);
    assert hk in Purge(db, now).data && Purge(db, now).data[hk] == db.data[hk];
    assert RemainingTtl(Purge(db, now), hk, now) == t;
    GetFound(cfg, c, db, key, now);
  }

  /**
   * The same round trip in an ephemeral collection with a positive ttl:
   * get at the same instant also reports that ttl and the matching expire_at.
   */
  lemma SaveThenGetEphemeral(cfg: Config, c: Serializer, db: Db, obj: Instance, json: map<string, Value>, now: int)
    requires RoundTrips(c) && Valid(db)
    requires Saveable(c, obj, json)
    requires cfg.ephemeral && obj.ttl.Some? && obj.ttl.value > 0
    requires HashKey(cfg.dbname, obj.key.value) !in Purge(db, now).data
    ensures var d := Save(cfg, c, db, obj, json, now).1;
      var t := obj.ttl.value;
      GetOne(cfg, c, d, obj.key.value, now).0
        == Completed(One(Some((map["_attachments" := Obj(map[])] + FlattenedInput(c, json))
                                ["ttl" := Num(t)]["expire_at" := Num(now / 1000 + t)])))
  {
    var hk := HashKey(cfg.dbname, obj.key.value);
    var t := obj.ttl.value;
    var d := Save(cfg, c, db, obj, json, now).1;
    assert hk in d.deadlines && d.deadlines[hk] == now + t * 1000 by {
      SaveSetsDeadline(cfg, c, db, obj, json, now, now);
    }
    assert d.data[hk] == HashEntry(Body(c, json)) by {
      SaveStoresBody(cfg, c, db, obj, json, now);
    }
    SaveKeepsValid(cfg, c, db, obj, json, now);
    GetWithDeadline(cfg, c, d, obj.key.value, t, now);
    FlattenInflateRoundTrip(c, json);
  }

  /**
   * An ephemeral document stored without a deadline reads back with ttl -1
   * and expire_at one second in the past; saving that object again sends
   * EXPIREAT for that past second, and Redis deletes the document.
   */
  lemma GetThenResaveDeletes(cfg: Config, c: Serializer, db: Db, key: string, json: map<string, Value>, now: int)
    requires Valid(db) && cfg.ephemeral && now >= 2000
    requires var hk := HashKey(cfg.dbname, key);
      hk in Purge(db, now).data && Purge(db, now).data[hk].HashEntry? && hk !in Purge(db, now).deadlines
    requires key != ""
    requires Saveable(c, Instance(Some(key), Some(-1), Some((now / 1000 - 1) as real)), json)
    ensures var doc := GetOne(cfg, c, db, key, now).0.value.doc.value;
      doc["ttl"] == Num(-1) && doc["expire_at"] == Num(now / 1000 - 1)
    ensures var obj := Instance(Some(key), Some(-1), Some((now / 1000 - 1) as real));
      HashKey(cfg.dbname, key) !in Save(cfg, c, db, obj, json, now).1.data
  {
    var hk := HashKey(cfg.dbname, key);
    GetFound(cfg, c, db, key, now);
    MaterializeFields(cfg, c, Purge(db, now).data[hk].fields, -1, now);
    var obj := Instance(Some(key), Some(-1), Some((now / 1000 - 1) as real));
    assert (now / 1000 - 1) as real > 0.0;
    assert ((now / 1000 - 1) as real).Floor == now / 1000 - 1;
    assert PastDeadline(cfg, obj, now);
    SavePastDeadlineDeletes(cfg, c, db, obj, json, now);
  }

  // ---------------------------------------------------------------- getBatch

  /** The document get and getBatch build for `key` from the store they read. */
  function StoredDocument(cfg: Config, c: Serializer, db: Db, key: string, now: int): Document
  {
    var hk := HashKey(cfg.dbname, key);
    Materialize(cfg, c, FieldsOf(db, hk), RemainingTtl(db, hk, now), now)
  }

  /** The positions among the first `k` keys whose document is stored, in increasing order. */
  function StoredSlots(cfg: Config, db: Db, keys: seq<string>, k: nat): (slots: seq<nat>)
    requires k <= |keys|
    ensures forall i :: 0 <= i < |slots| ==> slots[i] < k && HashKey(cfg.dbname, keys[slots[i]]) in db.data
    ensures forall i, j :: 0 <= i < j < |slots| ==> slots[i] < slots[j]
    ensures forall j :: 0 <= j < k && HashKey(cfg.dbname, keys[j]) in db.data ==> j in slots
  {
    if k == 0 then []
    else StoredSlots(cfg, db, keys, k - 1) + (if HashKey(cfg.dbname, keys[k - 1]) in db.data then [k - 1] else [])
  }

  /** When every key is stored, all of the first `k` positions are. */
  lemma {:induction false} StoredSlotsAll(cfg: Config, db: Db, keys: seq<string>, k: nat)
    requires k <= |keys|
    requires forall j :: 0 <= j < |keys| ==> HashKey(cfg.dbname, keys[j]) in db.data
    ensures |StoredSlots(cfg, db, keys, k)| == k
  {
    if k > 0 {
      StoredSlotsAll(cfg, db, keys, k - 1);
    }
  }

  /** The replies of getBatch's EXEC: HGETALL and TTL of each key on the store expiry leaves. */
  predicate BatchReplies(cfg: Config, db: Db, keys: seq<string>, replies: seq<Reply>, now: int)
  {
    && |replies| == 2 * |keys|
    && forall j :: 0 <= j < |keys| ==>
         && replies[2 * j] == HashReply(db, HashKey(cfg.dbname, keys[j]))
         && replies[2 * j + 1] == TtlReply(db, HashKey(cfg.dbname, keys[j]), now)
  }

  /** getBatch's chain holds only well-formed reads. */
  lemma {:induction false} BatchChainReads(cfg: Config, keys: seq<string>)
    ensures forall i :: 0 <= i < |BatchChain(cfg, keys)| ==>
      ReadOnly(BatchChain(cfg, keys)[i]) && WellFormed(BatchChain(cfg, keys)[i])
  {
    if keys != [] {
      BatchChainReads(cfg, keys[1..]);
      assert BatchChain(cfg, keys) == GetChain(cfg, keys[0]) + BatchChain(cfg, keys[1..]);
    }
  }

  /** getBatch's transaction only reads. */
  lemma BatchReads(cfg: Config, db: Db, keys: seq<string>, now: int)
    ensures Transaction(db, BatchChain(cfg, keys), now).0 == Purge(db, now)
    ensures Transaction(db, BatchChain(cfg, keys), now).1.Replies?
    ensures BatchReplies(cfg, Purge(db, now), keys, Transaction(db, BatchChain(cfg, keys), now).1.replies, now)
  {
    var chain := BatchChain(cfg, keys);
    var db0 := Purge(db, now);
    BatchChainReads(cfg, keys);
    TransactionRuns(db, chain, now);
    RunReadOnly(db0, chain, now);
    var replies := Run(db0, chain, now).replies;
    forall j | 0 <= j < |keys|
      ensures replies[2 * j] == HashReply(db0, HashKey(cfg.dbname, keys[j]))
      ensures replies[2 * j + 1] == TtlReply(db0, HashKey(cfg.dbname, keys[j]), now)
    {
      ReadSteps(db0, HashKey(cfg.dbname, keys[j]), now);
    }
  }

  /** Every key slot is present exactly when its key is stored, and then holds its stored document. */
  predicate SlotsAgree(cfg: Config, c: Serializer, db: Db, keys: seq<string>, replies: seq<Reply>, now: int)
    requires |replies| == 2 * |keys|
  {
    forall j :: 0 <= j < |keys| ==>
      && (Present(replies, j) <==> HashKey(cfg.dbname, keys[j]) in db.data)
      && (Present(replies, j) ==> SlotDocument(cfg, c, replies, j, now) == StoredDocument(cfg, c, db, keys[j], now))
  }

  /**
   * The collecting loop over the first `k` key slots keeps exactly the
   * stored documents, in key order.
   */
  lemma {:induction false} CollectedStored(cfg: Config, c: Serializer, db: Db, keys: seq<string>, replies: seq<Reply>, k: nat, now: int)
    requires |replies| == 2 * |keys| && SlotsAgree(cfg, c, db, keys, replies, now) && k <= |keys|
    ensures var docs := Collected(cfg, c, replies, k, now);
      var slots := StoredSlots(cfg, db, keys, k);
      && |docs| == |slots|
      && forall i :: 0 <= i < |docs| ==> docs[i] == StoredDocument(cfg, c, db, keys[slots[i]], now)
  {
    if k > 0 {
      CollectedStored(cfg, c, db, keys, replies, k - 1, now);
      var prev, ps := Collected(cfg, c, replies, k - 1, now), StoredSlots(cfg, db, keys, k - 1);
      var docs, slots := Collected(cfg, c, replies, k, now), StoredSlots(cfg, db, keys, k);
      var hk := HashKey(cfg.dbname, keys[k - 1]);
      assert Present(replies, k - 1) <==> hk in db.data;
      if hk in db.data {
        assert docs == prev + [StoredDocument(cfg, c, db, keys[k - 1], now)];
        assert slots == ps + [k - 1];
        MatchedAppend(cfg, c, db, keys, prev, ps, k - 1, now);
      } else {
        assert docs == prev && slots == ps;
      }
    }
  }

  /** Appending a stored slot and its document keeps documents and slots matched. */
  lemma MatchedAppend(cfg: Config, c: Serializer, db: Db, keys: seq<string>, prev: seq<Document>, ps: seq<nat>, s: nat, now: int)
    requires s < |keys| && forall i :: 0 <= i < |ps| ==> ps[i] < |keys|
    requires |prev| == |ps| && forall i :: 0 <= i < |prev| ==> prev[i] == StoredDocument(cfg, c, db, keys[ps[i]], now)
    ensures var docs, slots := prev + [StoredDocument(cfg, c, db, keys[s], now)], ps + [s];
      && |docs| == |slots|
      && forall i :: 0 <= i < |docs| ==> docs[i] == StoredDocument(cfg, c, db, keys[slots[i]], now)
  {
    var docs, slots := prev + [StoredDocument(cfg, c, db, keys[s], now)], ps + [s];
    forall i | 0 <= i < |docs| ensures docs[i] == StoredDocument(cfg, c, db, keys[slots[i]], now) {
      if i < |prev| {
        assert docs[i] == prev[i] && slots[i] == ps[i];
      }
    }
  }

  /** On the replies of getBatch's EXEC over a well-formed store, the slots agree with the store. */
  lemma BatchSlotsAgree(cfg: Config, c: Serializer, db: Db, keys: seq<string>, replies: seq<Reply>, now: int)
    requires Valid(db) && BatchReplies(cfg, db, keys, replies, now)
    ensures SlotsAgree(cfg, c, db, keys, replies, now)
  {
    forall j | 0 <= j < |keys|
      ensures Present(replies, j) <==> HashKey(cfg.dbname, keys[j]) in db.data
    {
      var hk := HashKey(cfg.dbname, keys[j]);
      if hk in db.data {
        assert NonEmpty(db.data[hk]);
      }
    }
  }

  /**
   * The loop `i < len--` runs while 3k < 2n: for n keys it examines
   * ceil(2n/3) of them -- all of them for one or two keys, fewer from three on.
   */
  lemma ExaminedBounds(n: nat)
    ensures 3 * Examined(n) >= 2 * n && (Examined(n) > 0 ==> 3 * (Examined(n) - 1) < 2 * n)
    ensures Examined(n) <= n
    ensures n <= 2 ==> Examined(n) == n
    ensures n >= 3 ==> Examined(n) < n
  {
  }

  /**
   * getBatch answers, in key order, the documents stored under the first
   * ceil(2n/3) keys; keys that hold nothing are skipped, not reported.
   */
  lemma GetBatchDocuments(cfg: Config, c: Serializer, db: Db, keys: seq<string>, now: int)
    requires Valid(db)
    ensures var db0 := Purge(db, now);
      var slots := StoredSlots(cfg, db0, keys, Examined(|keys|));
      && GetBatch(cfg, c, db, keys, now).1 == db0
      && GetBatch(cfg, c, db, keys, now).0.Completed?
      && GetBatch(cfg, c, db, keys, now).0.value.Many?
      && var docs := GetBatch(cfg, c, db, keys, now).0.value.docs;
      && |docs| == |slots|
      && forall i :: 0 <= i < |docs| ==> docs[i] == StoredDocument(cfg, c, db0, keys[slots[i]], now)
  {
    BatchReads(cfg, db, keys, now);
    ExaminedBounds(|keys|);
    BatchSlotsAgree(cfg, c, Purge(db, now), keys, Transaction(db, BatchChain(cfg, keys), now).1.replies, now);
    CollectedStored(cfg, c, Purge(db, now), keys, Transaction(db, BatchChain(cfg, keys), now).1.replies, Examined(|keys|), now);
  }

  /** For one or two keys getBatch misses nothing: every stored document comes back. */
  lemma GetBatchSmall(cfg: Config, c: Serializer, db: Db, keys: seq<string>, now: int)
    requires Valid(db) && |keys| <= 2
    ensures var slots := StoredSlots(cfg, Purge(db, now), keys, Examined(|keys|));
      forall j :: 0 <= j < |keys| && HashKey(cfg.dbname, keys[j]) in Purge(db, now).data ==> j in slots
  {
    ExaminedBounds(|keys|);
  }

  /**
   * From three keys on, getBatch drops the tail: with every document
   * stored it answers only ceil(2n/3) of them, and never the last one.
   */
  lemma GetBatchDropsTail(cfg: Config, c: Serializer, db: Db, keys: seq<string>, now: int)
    requires Valid(db) && |keys| >= 3
    requires forall j :: 0 <= j < |keys| ==> HashKey(cfg.dbname, keys[j]) in Purge(db, now).data
    ensures GetBatch(cfg, c, db, keys, now).0.Completed? && GetBatch(cfg, c, db, keys, now).0.value.Many?
    ensures |GetBatch(cfg, c, db, keys, now).0.value.docs| == Examined(|keys|) < |keys|
    ensures |keys| - 1 !in StoredSlots(cfg, Purge(db, now), keys, Examined(|keys|))
  {
    GetBatchDocuments(cfg, c, db, keys, now);
    ExaminedBounds(|keys|);
    StoredSlotsAll(cfg, Purge(db, now), keys, Examined(|keys|));
  }

  /** Three stored documents asked for together: two come back. */
  lemma GetBatchOfThree(cfg: Config, c: Serializer, db: Db, a: string, b: string, d: string, now: int)
    requires Valid(db)
    requires forall k :: k in [a, b, d] ==> HashKey(cfg.dbname, k) in Purge(db, now).data
    ensures GetBatch(cfg, c, db, [a, b, d], now).0.Completed? && GetBatch(cfg, c, db, [a, b, d], now).0.value.Many?
    ensures |GetBatch(cfg, c, db, [a, b, d], now).0.value.docs| == 2
  {
    GetBatchDropsTail(cfg, c, db, [a, b, d], now);
  }

  /** The intended getBatch answers every stored document, in key order. */
  lemma GetBatchIntendedComplete(cfg: Config, c: Serializer, db: Db, keys: seq<string>, now: int)
    requires Valid(db)
    ensures var db0 := Purge(db, now);
      var slots := StoredSlots(cfg, db0, keys, |keys|);
      && GetBatchIntended(cfg, c, db, keys, now).0.Completed?
      && GetBatchIntended(cfg, c, db, keys, now).0.value.Many?
      && var docs := GetBatchIntended(cfg, c, db, keys, now).0.value.docs;
      && |docs| == |slots|
      && (forall i :: 0 <= i < |docs| ==> docs[i] == StoredDocument(cfg, c, db0, keys[slots[i]], now))
      && (forall j :: 0 <= j < |keys| && HashKey(cfg.dbname, keys[j]) in db0.data ==> j in slots)
  {
    BatchReads(cfg, db, keys, now);
    BatchSlotsAgree(cfg, c, Purge(db, now), keys, Transaction(db, BatchChain(cfg, keys), now).1.replies, now);
    CollectedStored(cfg, c, Purge(db, now), keys, Transaction(db, BatchChain(cfg, keys), now).1.replies, |keys|, now);
  }

  /** getBatch and the intended version agree on one or two keys. */
  lemma GetBatchAgreesWhenSmall(cfg: Config, c: Serializer, db: Db, keys: seq<string>, now: int)
    requires |keys| <= 2
    ensures GetBatch(cfg, c, db, keys, now) == GetBatchIntended(cfg, c, db, keys, now)
  {
    ExaminedBounds(|keys|);
  }
}
