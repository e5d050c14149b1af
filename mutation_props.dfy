/**
 * What merge, remove, destroyMany and all do: merge overwrites the named
 * fields only; remove and destroyMany delete the document and attachment
 * hashes and drop the keys from the id set; all lists the id set.
 */
module MutationProperties {
  import opened Options
  import opened Json
  import opened KeyScheme
  import opened Redis
  import opened Codec
  import opened Engine

  // ---------------------------------------------------------------- merge

  /**
   * merge writes the flattened attributes over the stored fields, keeping
   * the fields it does not name and the document's expiry; it never
   * touches the attachment hash or the id set.
   */
  lemma MergeOverwrites(cfg: Config, c: Serializer, db: Db, key: string, attributes: map<string, Value>, now: int)
    requires Flattened(c, attributes).Flat? && Flattened(c, attributes).payload.body != map[]
    requires !HoldsNonHash(Purge(db, now), HashKey(cfg.dbname, key))
    ensures var hk := HashKey(cfg.dbname, key);
      var db0 := Purge(db, now);
      var (r, d) := Merge(cfg, c, db, key, attributes, now);
      && r == Completed(Status("OK"))
      && hk in d.data && d.data[hk] == HashEntry(FieldsOf(db0, hk) + Flattened(c, attributes).payload.body)
      && d.deadlines == db0.deadlines
      && forall k :: k != hk ==> Slot(d, k) == Slot(db0, k)
  {
  }

  /** merge with nothing to write sends HMSET without fields, which Redis refuses. */
  lemma MergeNothing(cfg: Config, c: Serializer, db: Db, key: string, attributes: map<string, Value>, now: int)
    requires Flattened(c, attributes).Flat? && Flattened(c, attributes).payload.body == map[]
    ensures Merge(cfg, c, db, key, attributes, now) == (Failed(Rejected(WrongArity)), db)
  {
  }

  /** merge onto a key that holds a set is refused with WRONGTYPE and changes nothing but expiry. */
  lemma MergeWrongType(cfg: Config, c: Serializer, db: Db, key: string, attributes: map<string, Value>, now: int)
    requires Flattened(c, attributes).Flat? && Flattened(c, attributes).payload.body != map[]
    requires HoldsNonHash(Purge(db, now), HashKey(cfg.dbname, key))
    ensures Merge(cfg, c, db, key, attributes, now) == (Failed(Rejected(WrongType)), Purge(db, now))
  {
  }

  // ---------------------------------------------------------------- remove

  /** remove is EXEC of its chain on the store expiry leaves. */
  lemma RemoveRuns(cfg: Config, db: Db, key: string, now: int)
    ensures var o := Run(Purge(db, now), RemoveBatch(cfg, key), now);
      RemoveDoc(cfg, db, key, now) == (Completed(o.replies[0]), o.db)
  {
    TransactionRuns(db, RemoveBatch(cfg, key), now);
  }

  /** remove's chain runs as the two DELs, then the SREM of a persistent collection. */
  lemma RemoveBatchStages(cfg: Config, db: Db, key: string, now: int)
    ensures var hk, ak, ids := HashKey(cfg.dbname, key), AttachmentKey(cfg.dbname, key), IdsKey(cfg.dbname);
      var d1 := Step(db, Del([hk]), now);
      var d2 := Step(d1.0, Del([ak]), now).0;
      var o := Run(db, RemoveBatch(cfg, key), now);
      && o.replies[0] == d1.1
      && o.db == if cfg.ephemeral then d2 else Step(d2, SRem(ids, key), now).0
  {
    var hk, ak, ids := HashKey(cfg.dbname, key), AttachmentKey(cfg.dbname, key), IdsKey(cfg.dbname);
    var a, b := Del([hk]), Del([ak]);
    var s := if !cfg.ephemeral then [SRem(ids, key)] else [];
    assert RemoveBatch(cfg, key) == [a] + [b] + s;
    RunAppend(db, [a] + [b], s, now);
    RunAppend(db, [a], [b], now);
    RunSingleton(db, a, now);
    var d1 := Step(db, a, now).0;
    RunSingleton(d1, b, now);
    if s != [] {
      RunSingleton(Step(d1, b, now).0, s[0], now);
    }
  }

  /** remove's chain deletes both hashes and answers how many documents existed. */
  lemma RemoveBatchDeletes(cfg: Config, db: Db, key: string, now: int)
    ensures var hk, ak := HashKey(cfg.dbname, key), AttachmentKey(cfg.dbname, key);
      var o := Run(db, RemoveBatch(cfg, key), now);
      && o.replies[0] == Integer(if hk in db.data then 1 else 0)
      && hk !in o.db.data && ak !in o.db.data && hk !in o.db.deadlines && ak !in o.db.deadlines
  {
    RemoveBatchStages(cfg, db, key, now);
    var hk, ak, ids := HashKey(cfg.dbname, key), AttachmentKey(cfg.dbname, key), IdsKey(cfg.dbname);
    DelOne(db, hk, now);
    var d1 := Step(db, Del([hk]), now).0;
    DelEffect(db, [hk], now);
    assert hk !in d1.data && hk !in d1.deadlines;
    var d2 := Step(d1, Del([ak]), now).0;
    DelEffect(d1, [ak], now);
    assert hk !in d2.data && hk !in d2.deadlines && ak !in d2.data && ak !in d2.deadlines;
    if !cfg.ephemeral {
      SRemGone(d2, ids, key, hk, now);
      SRemGone(d2, ids, key, ak, now);
    }
  }

  /** SREM never brings back a key that is gone. */
  lemma SRemGone(db: Db, ids: string, key: string, k: string, now: int)
    requires k !in db.data && k !in db.deadlines
    ensures var d := Step(db, SRem(ids, key), now).0; k !in d.data && k !in d.deadlines
  {
  }

  /** remove's chain drops the key from the id set of a persistent collection. */
  lemma RemoveBatchIds(cfg: Config, db: Db, key: string, now: int)
    requires !cfg.ephemeral
    ensures var ids := IdsKey(cfg.dbname);
      MembersOf(Run(db, RemoveBatch(cfg, key), now).db, ids) == if key == "ids" then {} else MembersOf(db, ids) - {key}
  {
    RemoveBatchStages(cfg, db, key, now);
    var hk, ak, ids := HashKey(cfg.dbname, key), AttachmentKey(cfg.dbname, key), IdsKey(cfg.dbname);
    HashKeyIsIdsKey(cfg.dbname, key);
    AttachmentKeyDistinct(cfg.dbname, key);
    DelEffect(db, [hk], now);
    var d1 := Step(db, Del([hk]), now).0;
    DelEffect(d1, [ak], now);
    var d2 := Step(d1, Del([ak]), now).0;
    if key == "ids" {
      assert ids in [hk];
      assert ids !in d1.data;
      assert ids !in d2.data;
    } else {
      assert ids !in [hk] && ids !in [ak];
      assert Slot(d2, ids) == Slot(db, ids);
    }
    SRemEffect(d2, ids, key, now);
  }

  /** remove's chain leaves the keys it does not name alone. */
  lemma RemoveBatchFrame(cfg: Config, db: Db, key: string, now: int, k: string)
    requires k != HashKey(cfg.dbname, key) && k != AttachmentKey(cfg.dbname, key)
    requires !cfg.ephemeral ==> k != IdsKey(cfg.dbname)
    ensures Slot(Run(db, RemoveBatch(cfg, key), now).db, k) == Slot(db, k)
  {
    RunFrame(db, RemoveBatch(cfg, key), now, k);
  }

  /**
   * remove deletes the document's hash and its attachment hash, drops the
   * key from the id set of a persistent collection, and answers how many
   * documents it deleted (1 or 0).
   */
  lemma RemoveDeletes(cfg: Config, db: Db, key: string, now: int)
    ensures var hk, ak := HashKey(cfg.dbname, key), AttachmentKey(cfg.dbname, key);
      var db0 := Purge(db, now);
      var (r, d) := RemoveDoc(cfg, db, key, now);
      && r == Completed(Integer(if hk in db0.data then 1 else 0))
      && hk !in d.data && ak !in d.data && hk !in d.deadlines && ak !in d.deadlines
      && (!cfg.ephemeral ==> key !in MembersOf(d, IdsKey(cfg.dbname)))
  {
    RemoveRuns(cfg, db, key, now);
    RemoveBatchDeletes(cfg, Purge(db, now), key, now);
    if !cfg.ephemeral {
      RemoveBatchIds(cfg, Purge(db, now), key, now);
    }
  }

  /**
   * remove of a persistent document drops exactly its key from the id set
   * (the document keyed "ids" instead deletes the whole set).
   */
  lemma RemoveUnregisters(cfg: Config, db: Db, key: string, now: int)
    requires !cfg.ephemeral && key != "ids"
    ensures var ids := IdsKey(cfg.dbname);
      MembersOf(RemoveDoc(cfg, db, key, now).1, ids) == MembersOf(Purge(db, now), ids) - {key}
  {
    RemoveRuns(cfg, db, key, now);
    RemoveBatchIds(cfg, Purge(db, now), key, now);
  }

  /** remove leaves every other key as expiry left it. */
  lemma RemoveFrame(cfg: Config, db: Db, key: string, now: int, k: string)
    requires k != HashKey(cfg.dbname, key) && k != AttachmentKey(cfg.dbname, key)
    requires !cfg.ephemeral ==> k != IdsKey(cfg.dbname)
    ensures Slot(RemoveDoc(cfg, db, key, now).1, k) == Slot(Purge(db, now), k)
  {
    RemoveRuns(cfg, db, key, now);
    RemoveBatchFrame(cfg, Purge(db, now), key, now, k);
  }

  /**
   * The attachment hash of document `key` is the primary hash of document
   * `key:attaches`, so removing the first deletes the second.
   */
  lemma RemoveDeletesNeighbour(cfg: Config, db: Db, key: string, now: int)
    ensures HashKey(cfg.dbname, key + ":attaches") !in RemoveDoc(cfg, db, key, now).1.data
  {
    HashKeyIsAttachmentKey(cfg.dbname, key, key + ":attaches");
    RemoveDeletes(cfg, db, key, now);
  }

  // ---------------------------------------------------------------- destroyMany

  /** destroyMany of an empty list queues DEL without keys: EXEC is refused and nothing changes. */
  lemma DestroyNothing(cfg: Config, db: Db, now: int)
    ensures DestroyMany(cfg, db, [], now) == (Failed(ExecAbort), db)
  {
    var chain := DestroyBatch(cfg, TargetKeys([]));
    var i := |chain| - 2;
    assert 0 <= i < |chain| && !WellFormed(chain[i]);
    TransactionRuns(db, chain, now);
  }

  /** SREM of each key in turn removes exactly those keys from the id set. */
  lemma {:induction false} IdRemovalsEffect(dbname: string, db: Db, ids: seq<string>, now: int)
    ensures MembersOf(Run(db, IdRemovals(dbname, ids), now).db, IdsKey(dbname)) == MembersOf(db, IdsKey(dbname)) - set k | k in ids
    ensures forall k :: k != IdsKey(dbname) ==> Slot(Run(db, IdRemovals(dbname, ids), now).db, k) == Slot(db, k)
    decreases |ids|
  {
    var chain := IdRemovals(dbname, ids);
    if ids != [] {
      var d1 := Step(db, chain[0], now).0;
      assert chain[1..] == IdRemovals(dbname, ids[1..]);
      IdRemovalsEffect(dbname, d1, ids[1..], now);
      assert (set k | k in ids) == {ids[0]} + set k | k in ids[1..];
      forall k | k != IdsKey(dbname) ensures Slot(Run(db, chain, now).db, k) == Slot(db, k) {
        StepFrame(db, chain[0], now, k);
      }
    }
  }

  /** destroyMany of a non-empty list is EXEC of its chain on the store expiry leaves. */
  lemma DestroyRuns(cfg: Config, db: Db, targets: seq<Target>, now: int)
    requires targets != []
    ensures DestroyMany(cfg, db, targets, now)
         == (Completed(()), Run(Purge(db, now), DestroyBatch(cfg, TargetKeys(targets)), now).db)
  {
    var ids := TargetKeys(targets);
    var s := if cfg.ephemeral then [] else IdRemovals(cfg.dbname, ids);
    var chain := DestroyBatch(cfg, ids);
    forall i | 0 <= i < |chain| ensures WellFormed(chain[i]) {
      if i >= |s| {
        assert chain[i] == Del(HashKeys(cfg.dbname, ids)) || chain[i] == Del(AttachmentKeys(cfg.dbname, ids));
      }
    }
    TransactionRuns(db, chain, now);
  }

  /** destroyMany's chain runs as the SREMs, then the two DELs. */
  lemma DestroyBatchStages(cfg: Config, db: Db, ids: seq<string>, now: int)
    ensures var s := if cfg.ephemeral then [] else IdRemovals(cfg.dbname, ids);
      var d2 := Step(Run(db, s, now).db, Del(HashKeys(cfg.dbname, ids)), now).0;
      Run(db, DestroyBatch(cfg, ids), now).db == Step(d2, Del(AttachmentKeys(cfg.dbname, ids)), now).0
  {
    var s := if cfg.ephemeral then [] else IdRemovals(cfg.dbname, ids);
    var a, b := Del(HashKeys(cfg.dbname, ids)), Del(AttachmentKeys(cfg.dbname, ids));
    assert DestroyBatch(cfg, ids) == s + [a] + [b];
    RunAppend(db, s + [a], [b], now);
    RunAppend(db, s, [a], now);
    var d1 := Run(db, s, now).db;
    RunSingleton(d1, a, now);
    RunSingleton(Step(d1, a, now).0, b, now);
  }

  /** destroyMany's chain deletes every listed document and its attachment hash. */
  lemma DestroyBatchDeletes(cfg: Config, db: Db, ids: seq<string>, now: int)
    requires ids != []
    ensures var d := Run(db, DestroyBatch(cfg, ids), now).db;
      forall i :: 0 <= i < |ids| ==> HashKey(cfg.dbname, ids[i]) !in d.data && AttachmentKey(cfg.dbname, ids[i]) !in d.data
  {
    DestroyBatchStages(cfg, db, ids, now);
    var hks, aks := HashKeys(cfg.dbname, ids), AttachmentKeys(cfg.dbname, ids);
    var d1 := Run(db, if cfg.ephemeral then [] else IdRemovals(cfg.dbname, ids), now).db;
    DelEffect(d1, hks, now);
    var d2 := Step(d1, Del(hks), now).0;
    DelEffect(d2, aks, now);
    var d := Step(d2, Del(aks), now).0;
    forall i | 0 <= i < |ids|
      ensures HashKey(cfg.dbname, ids[i]) !in d.data && AttachmentKey(cfg.dbname, ids[i]) !in d.data
    {
      assert hks[i] in hks && aks[i] in aks;
    }
  }

  /** No attachment hash is the id set. */
  lemma IdsNotAttachmentKey(dbname: string, ids: seq<string>)
    ensures IdsKey(dbname) !in AttachmentKeys(dbname, ids)
  {
    forall i | 0 <= i < |ids| ensures AttachmentKey(dbname, ids[i]) != IdsKey(dbname) {
      AttachmentKeyDistinct(dbname, ids[i]);
    }
  }

  /** destroyMany's chain leaves no listed key in the id set of a persistent collection. */
  lemma DestroyBatchIds(cfg: Config, db: Db, ids: seq<string>, now: int)
    requires !cfg.ephemeral && ids != []
    ensures var d := Run(db, DestroyBatch(cfg, ids), now).db;
      MembersOf(d, IdsKey(cfg.dbname)) <= MembersOf(db, IdsKey(cfg.dbname)) - set k | k in ids
  {
    DestroyBatchStages(cfg, db, ids, now);
    var ik := IdsKey(cfg.dbname);
    var hks, aks := HashKeys(cfg.dbname, ids), AttachmentKeys(cfg.dbname, ids);
    IdRemovalsEffect(cfg.dbname, db, ids, now);
    var d1 := Run(db, IdRemovals(cfg.dbname, ids), now).db;
    DelEffect(d1, hks, now);
    var d2 := Step(d1, Del(hks), now).0;
    DelEffect(d2, aks, now);
    IdsNotAttachmentKey(cfg.dbname, ids);
    if ik in hks {
      assert ik !in d2.data;
    } else {
      assert Slot(d2, ik) == Slot(d1, ik);
    }
  }

  /**
   * With no id "ids" among them, the chain takes exactly the listed ids out
   * of the id set: every other member stays.
   */
  lemma DestroyBatchUnregisters(cfg: Config, db: Db, ids: seq<string>, now: int)
    requires !cfg.ephemeral && ids != [] && "ids" !in ids
    ensures var d := Run(db, DestroyBatch(cfg, ids), now).db;
      MembersOf(d, IdsKey(cfg.dbname)) == MembersOf(db, IdsKey(cfg.dbname)) - set k | k in ids
  {
    DestroyBatchStages(cfg, db, ids, now);
    var ik := IdsKey(cfg.dbname);
    var hks, aks := HashKeys(cfg.dbname, ids), AttachmentKeys(cfg.dbname, ids);
    forall i | 0 <= i < |ids| ensures hks[i] != ik {
      HashKeyIsIdsKey(cfg.dbname, ids[i]);
    }
    IdRemovalsEffect(cfg.dbname, db, ids, now);
    var d1 := Run(db, IdRemovals(cfg.dbname, ids), now).db;
    DelEffect(d1, hks, now);
    var d2 := Step(d1, Del(hks), now).0;
    DelEffect(d2, aks, now);
    IdsNotAttachmentKey(cfg.dbname, ids);
    assert Slot(Step(d2, Del(aks), now).0, ik) == Slot(d1, ik);
  }

  /** destroyMany's chain leaves every key it does not name alone. */
  lemma DestroyBatchFrame(cfg: Config, db: Db, ids: seq<string>, now: int, k: string)
    requires k !in HashKeys(cfg.dbname, ids) && k !in AttachmentKeys(cfg.dbname, ids)
    requires !cfg.ephemeral ==> k != IdsKey(cfg.dbname)
    ensures Slot(Run(db, DestroyBatch(cfg, ids), now).db, k) == Slot(db, k)
  {
    DestroyBatchStages(cfg, db, ids, now);
    var hks, aks := HashKeys(cfg.dbname, ids), AttachmentKeys(cfg.dbname, ids);
    var d1 := Run(db, if cfg.ephemeral then [] else IdRemovals(cfg.dbname, ids), now).db;
    if !cfg.ephemeral {
      IdRemovalsEffect(cfg.dbname, db, ids, now);
    }
    assert Slot(d1, k) == Slot(db, k);
    if ids == [] {
      assert Slot(Step(d1, Del(hks), now).0, k) == Slot(d1, k);
    } else {
      DelEffect(d1, hks, now);
      DelEffect(Step(d1, Del(hks), now).0, aks, now);
    }
  }

  /**
   * destroyMany of a non-empty list deletes every listed document and its
   * attachment hash and leaves no listed key in the id set.
   */
  lemma DestroyManyDeletes(cfg: Config, db: Db, targets: seq<Target>, now: int)
    requires targets != []
    ensures var ids := TargetKeys(targets);
      var (r, d) := DestroyMany(cfg, db, targets, now);
      && r == Completed(())
      && (forall i :: 0 <= i < |ids| ==> HashKey(cfg.dbname, ids[i]) !in d.data && AttachmentKey(cfg.dbname, ids[i]) !in d.data)
      && (!cfg.ephemeral ==> forall i :: 0 <= i < |ids| ==> ids[i] !in MembersOf(d, IdsKey(cfg.dbname)))
  {
    DestroyRuns(cfg, db, targets, now);
    var ids := TargetKeys(targets);
    DestroyBatchDeletes(cfg, Purge(db, now), ids, now);
    if !cfg.ephemeral {
      DestroyBatchIds(cfg, Purge(db, now), ids, now);
      forall i | 0 <= i < |ids| ensures ids[i] in (set k | k in ids) {
      }
    }
  }
  /**
   * destroyMany of a persistent collection, with no id "ids" in the list,
   * leaves the id set holding exactly the ids it held before minus the
   * listed ones.
   */
  lemma DestroyManyUnregisters(cfg: Config, db: Db, targets: seq<Target>, now: int)
    requires !cfg.ephemeral && targets != [] && "ids" !in TargetKeys(targets)
    ensures MembersOf(DestroyMany(cfg, db, targets, now).1, IdsKey(cfg.dbname))
         == MembersOf(Purge(db, now), IdsKey(cfg.dbname)) - set k | k in TargetKeys(targets)
  {
    DestroyRuns(cfg, db, targets, now);
    DestroyBatchUnregisters(cfg, Purge(db, now), TargetKeys(targets), now);
  }


  /** destroyMany leaves every key it does not name as expiry left it. */
  lemma DestroyManyFrame(cfg: Config, db: Db, targets: seq<Target>, now: int, k: string)
    requires targets != []
    requires forall i :: 0 <= i < |targets| ==>
      k != HashKey(cfg.dbname, TargetKey(targets[i])) && k != AttachmentKey(cfg.dbname, TargetKey(targets[i]))
    requires !cfg.ephemeral ==> k != IdsKey(cfg.dbname)
    ensures Slot(DestroyMany(cfg, db, targets, now).1, k) == Slot(Purge(db, now), k)
  {
    DestroyRuns(cfg, db, targets, now);
    var ids := TargetKeys(targets);
    DestroyBatchFrame(cfg, Purge(db, now), ids, now, k);
  }

  // ---------------------------------------------------------------- all

  /** all lists the id set of a persistent collection; an ephemeral one lists nothing. */
  lemma AllLists(cfg: Config, db: Db, now: int)
    requires !HoldsNonSet(Purge(db, now), IdsKey(cfg.dbname))
    ensures All(cfg, db, now).0 == Completed(if cfg.ephemeral then {} else MembersOf(Purge(db, now), IdsKey(cfg.dbname)))
  {
  }
}
