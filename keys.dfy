/**
 * The three key namespaces of a collection named `dbname`: a document's
 * primary hash `dbname:key`, its attachment hash `dbname:key:attaches`, and
 * the collection's id set `dbname:ids`.
 */
module KeyScheme {

  function HashKey(dbname: string, key: string): string
  {
    dbname + ":" + key
  }

  function AttachmentKey(dbname: string, key: string): string
  {
    dbname + ":" + key + ":attaches"
  }

  function IdsKey(dbname: string): string
  {
    dbname + ":ids"
  }

  /** Distinct document keys have distinct primary hashes. */
  lemma HashKeyInjective(dbname: string, k1: string, k2: string)
    ensures HashKey(dbname, k1) == HashKey(dbname, k2) <==> k1 == k2
  {
    if HashKey(dbname, k1) == HashKey(dbname, k2) {
      var n := |dbname| + 1;
      assert k1 == HashKey(dbname, k1)[n..];
      assert k2 == HashKey(dbname, k2)[n..];
    }
  }

  /** Distinct document keys have distinct attachment hashes. */
  lemma AttachmentKeyInjective(dbname: string, k1: string, k2: string)
    ensures AttachmentKey(dbname, k1) == AttachmentKey(dbname, k2) <==> k1 == k2
  {
    if AttachmentKey(dbname, k1) == AttachmentKey(dbname, k2) {
      var a1, a2 := AttachmentKey(dbname, k1), AttachmentKey(dbname, k2);
      var n := |dbname| + 1;
      assert |k1| == |k2|;
      assert k1 == a1[n..n + |k1|];
      assert k2 == a2[n..n + |k2|];
    }
  }

  /** The only document whose primary hash is the id set is the one keyed "ids". */
  lemma HashKeyIsIdsKey(dbname: string, key: string)
    ensures HashKey(dbname, key) == IdsKey(dbname) <==> key == "ids"
  {
    if HashKey(dbname, key) == IdsKey(dbname) {
      var n := |dbname| + 1;
      assert key == HashKey(dbname, key)[n..];
      assert "ids" == IdsKey(dbname)[n..];
    }
  }

  /**
   * The primary hash of the document keyed `k2` is the attachment hash of
   * the document keyed `k` exactly when `k2` is `k` followed by ":attaches".
   */
  lemma HashKeyIsAttachmentKey(dbname: string, k: string, k2: string)
    ensures HashKey(dbname, k2) == AttachmentKey(dbname, k) <==> k2 == k + ":attaches"
  {
    var n := |dbname| + 1;
    if HashKey(dbname, k2) == AttachmentKey(dbname, k) {
      assert k2 == HashKey(dbname, k2)[n..];
      assert k + ":attaches" == AttachmentKey(dbname, k)[n..];
    }
    if k2 == k + ":attaches" {
      assert HashKey(dbname, k2) == dbname + ":" + (k + ":attaches");
    }
  }

  /** A document's attachment hash is neither its own primary hash nor the id set. */
  lemma AttachmentKeyDistinct(dbname: string, key: string)
    ensures AttachmentKey(dbname, key) != HashKey(dbname, key)
    ensures AttachmentKey(dbname, key) != IdsKey(dbname)
  {
  }
}
