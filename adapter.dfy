/**
 * The adapter object: its configuration, its connection state (attempt
 * counter, pending reconnect timer, listeners on the current client, log)
 * and the persistence operations, each running its command chain against
 * the server and proved equal to the Engine function that specifies it.
 * Date.now() is the `now` parameter (milliseconds); Math.random() is the
 * `jitter` parameter of the error handler.
 */
module Adapter {
  import opened Options
  import opened Json
  import opened KeyScheme
  import opened Redis
  import opened Codec
  import opened Engine
  import opened Connection

  /** The 'log' events the adapter emits. */
  datatype LogEntry = ReadyLogged | ErrorLogged

  /** Appending a key to the list appends its HGETALL and TTL to getBatch's chain. */
  lemma {:induction false} BatchChainAppend(cfg: Config, keys: seq<string>, key: string)
    ensures BatchChain(cfg, keys + [key]) == BatchChain(cfg, keys) + GetChain(cfg, key)
    decreases |keys|
  {
    if keys == [] {
      assert [key][1..] == [];
    } else {
      assert (keys + [key])[1..] == keys[1..] + [key];
      BatchChainAppend(cfg, keys[1..], key);
    }
  }

  /** Appending an id appends its SREM to destroyMany's removals. */
  lemma {:induction false} IdRemovalsAppend(dbname: string, ids: seq<string>, id: string)
    ensures IdRemovals(dbname, ids + [id]) == IdRemovals(dbname, ids) + [SRem(IdsKey(dbname), id)]
  {
    var r := IdRemovals(dbname, ids + [id]);
    assert |r| == |ids| + 1;
    assert r[|ids|] == SRem(IdsKey(dbname), id);
  }

  /** The loop test `i < len--` at its k-th evaluation: 2k < 2n - k. */
  lemma LoopTest(n: nat, k: nat)
    ensures 2 * k < 2 * n - k <==> k < Examined(n)
  {
  }

  class RedisAdapter {
    var dbname: string
    var ephemeral: bool
    /** Consecutive connection errors since the last ready. */
    var attempts: nat
    /** The delay of the armed reconnect timer (`connectTimeout`), if any. */
    var retry: Option<nat>
    /** How many clients connect() has created. */
    var clients: nat
    /** The 'error' listener is attached to the current client. */
    var errorListener: bool
    /** The one-time 'ready' listener of the current client has not fired yet. */
    var readyListener: bool
    var log: seq<LogEntry>
    /** The server every client of this adapter talks to. */
    const server: Server
    /** JSON.stringify and JSON.parse. */
    const codec: Serializer

    /** A pending reconnect always has a delay in range and no error listener behind it. */
    ghost predicate Valid()
      reads this
    {
      retry.Some? ==> !errorListener && 10 <= retry.value <= 10000
    }

    function Collection(): Config
      reads this
    {
      Config(dbname, ephemeral)
    }

    /** `new RedisAdapter()`: the prototype's defaults, no client yet. */
    constructor (server: Server, codec: Serializer)
      ensures this.server == server && this.codec == codec
      ensures dbname == "" && !ephemeral && attempts == 0 && retry == None
      ensures clients == 0 && !errorListener && !readyListener && log == []
      ensures Valid()
    {
      this.server := server;
      this.codec := codec;
      dbname := "";
      ephemeral := false;
      attempts := 0;
      retry := None;
      clients := 0;
      errorListener := false;
      readyListener := false;
      log := [];
    }

    /** configure(opts, modelfunc): the collection name falls back to the model's plural, then connect. */
    method Configure(name: Option<string>, plural: string, isEphemeral: bool)
      modifies this
      ensures dbname == (if name.Some? && name.value != "" then name.value else plural)
      ensures ephemeral == isEphemeral
      ensures clients == old(clients) + 1 && errorListener && readyListener && retry == None
      ensures attempts == old(attempts) && log == old(log)
      ensures Valid()
    {
      dbname := if name.Some? && name.value != "" then name.value else plural;
      ephemeral := isEphemeral;
      Connect();
    }

    /** connect(): clear the timer, create a client, listen for its errors and its first ready. */
    method Connect()
      modifies this
      ensures clients == old(clients) + 1 && errorListener && readyListener && retry == None
      ensures dbname == old(dbname) && ephemeral == old(ephemeral)
      ensures attempts == old(attempts) && log == old(log)
      ensures Valid()
    {
      retry := None;
      clients := clients + 1;
      errorListener := true;
      readyListener := true;
    }

    /** handleReady(): log, and forget past errors. */
    method HandleReady()
      modifies this
      ensures attempts == 0 && log == old(log) + [ReadyLogged]
      ensures retry == old(retry) && clients == old(clients)
      ensures errorListener == old(errorListener) && readyListener == old(readyListener)
      ensures dbname == old(dbname) && ephemeral == old(ephemeral)
    {
      log := log + [ReadyLogged];
      attempts := 0;
    }

    /**
     * handleError(err): unless a reconnect is already pending, log, count
     * the attempt, stop listening to the failed client and arm a reconnect
     * after the backoff delay.
     */
    method HandleError(jitter: nat)
      requires Valid()
      requires jitter < Pow2(attempts + 1)
      modifies this
      ensures old(retry).Some? ==>
        retry == old(retry) && attempts == old(attempts) && log == old(log) && errorListener == old(errorListener)
      ensures old(retry).None? ==>
        && attempts == old(attempts) + 1
        && retry == Some(Backoff(attempts, jitter))
        && !errorListener
        && log == old(log) + [ErrorLogged]
      ensures clients == old(clients) && readyListener == old(readyListener)
      ensures dbname == old(dbname) && ephemeral == old(ephemeral)
      ensures Valid()
    {
      if retry.Some? {
        return;
      }
      log := log + [ErrorLogged];
      attempts := attempts + 1;
      errorListener := false;
      retry := Some(Backoff(attempts, jitter));
    }

    /** The current client emits 'ready': the one-time listener runs at most once. */
    method ClientReady()
      modifies this
      ensures old(readyListener) ==> !readyListener && attempts == 0 && log == old(log) + [ReadyLogged]
      ensures !old(readyListener) ==> attempts == old(attempts) && log == old(log) && !readyListener
      ensures retry == old(retry) && clients == old(clients) && errorListener == old(errorListener)
      ensures dbname == old(dbname) && ephemeral == old(ephemeral)
      ensures old(Valid()) ==> Valid()
    {
      if readyListener {
        readyListener := false;
        HandleReady();
      }
    }

    /**
     * The current client emits 'error'. With the listener removed after the
     * first error, a second error from the same client finds no listener:
     * EventEmitter then throws it (`unhandled`).
     */
    method ClientError(jitter: nat) returns (unhandled: bool)
      requires Valid()
      requires jitter < Pow2(attempts + 1)
      modifies this
      ensures unhandled <==> !old(errorListener)
      ensures unhandled ==> attempts == old(attempts) && retry == old(retry) && log == old(log)
      ensures !unhandled && old(retry).None? ==>
        attempts == old(attempts) + 1 && retry == Some(Backoff(attempts, jitter)) && !errorListener
      ensures clients == old(clients) && dbname == old(dbname) && ephemeral == old(ephemeral)
      ensures Valid()
    {
      if errorListener {
        HandleError(jitter);
        unhandled := false;
      } else {
        unhandled := true;
      }
    }

    /** The reconnect timer fires: connect() again with a fresh client. */
    method RetryFires()
      requires retry.Some?
      modifies this
      ensures clients == old(clients) + 1 && errorListener && readyListener && retry == None
      ensures attempts == old(attempts) && log == old(log)
      ensures dbname == old(dbname) && ephemeral == old(ephemeral)
      ensures Valid()
    {
      Connect();
    }

    // ------------------------------------------------------------ documents

    /** save(object, json) / update(object, json). */
    method Save(obj: Instance, json: JsObject, now: int) returns (r: Completion<Reply>)
      modifies server, json
      ensures (r, server.db) == Engine.Save(Collection(), codec, old(server.db), obj, old(json.fields), now)
      ensures json.fields == if HasKey(obj) then FlattenedInput(codec, old(json.fields)) else old(json.fields)
    {
      if !HasKey(obj) {
        return Threw(KeyRequired);
      }
      var key := obj.key.value;
      var flat := Flatten(codec, json);
      if flat.NullAttachmentError? {
        return Threw(NullAttachment);
      }
      var payload := flat.payload;
      var okey := HashKey(dbname, key);
      var chain := [HMSet(okey, payload.body)];
      if !ephemeral {
        chain := chain + [SAdd(IdsKey(dbname), key)];
      }
      if payload.attachments.None? {
        return Threw(AttachmentsUndefined);
      }
      if payload.attachments.value != map[] {
        chain := chain + [HMSet(AttachmentKey(dbname, key), payload.attachments.value)];
      }
      if ephemeral {
        if obj.ttl.Some? && obj.ttl.value > 0 {
          chain := chain + [Expire(okey, obj.ttl.value)];
        } else if obj.expireAt.Some? && obj.expireAt.value > 0.0 {
          chain := chain + [ExpireAt(okey, obj.expireAt.value.Floor)];
        }
      }
      assert chain == SaveBatch(Collection(), key, payload.body, payload.attachments.value, obj.ttl, obj.expireAt);
      var replies := server.Exec(chain, now);
      if replies.Aborted? {
        return Threw(RepliesUndefined);
      }
      r := Completed(replies.replies[0]);
    }

    /** The object get builds from one HGETALL hash and its TTL reply. */
    method BuildDocument(item: map<string, string>, ttlReply: Reply, now: int) returns (doc: Document)
      ensures doc == Materialize(Collection(), codec, item, IntegerOf(ttlReply), now)
    {
      var inflated := Inflate(codec, Some(item));
      doc := inflated.value;
      if ephemeral {
        var ttl := IntegerOf(ttlReply);
        doc := doc["ttl" := Num(ttl)];
        doc := doc["expire_at" := Num(now / 1000 + ttl)];
      }
    }

    /** get(key): a list of keys goes to getBatch. */
    method Get(key: KeyArg, now: int) returns (r: Completion<Fetched>)
      modifies server
      ensures (r, server.db) == Engine.Get(Collection(), codec, old(server.db), key, now)
    {
      if key.KeyList? {
        r := GetBatch(key.keys, now);
        return;
      }
      var hkey := HashKey(dbname, key.key);
      var replies := server.Exec([HGetAll(hkey), Ttl(hkey)], now);
      if replies.Aborted? {
        return Failed(ExecAbort);
      }
      var item := ClientHash(replies.replies[0]);
      if item.None? {
        return Completed(One(None));
      }
      var doc := BuildDocument(item.value, replies.replies[1], now);
      r := Completed(One(Some(doc)));
    }

    /** getBatch(keylist). */
    method GetBatch(keys: seq<string>, now: int) returns (r: Completion<Fetched>)
      modifies server
      ensures (r, server.db) == Engine.GetBatch(Collection(), codec, old(server.db), keys, now)
    {
      var chain: seq<Command> := [];
      var j := 0;
      while j < |keys|
        invariant 0 <= j <= |keys|
        invariant chain == BatchChain(Collection(), keys[..j])
        invariant server.db == old(server.db)
      {
        assert keys[..j + 1] == keys[..j] + [keys[j]];
        BatchChainAppend(Collection(), keys[..j], keys[j]);
        var hkey := HashKey(dbname, keys[j]);
        chain := chain + [HGetAll(hkey), Ttl(hkey)];
        j := j + 1;
      }
      assert keys[..j] == keys;
      var replies := server.Exec(chain, now);
      if replies.Aborted? {
        return Failed(ExecAbort);
      }
      var results := CollectBatch(replies.replies, now);
      r := Completed(Many(results));
    }

    /**
     * The reply loop of getBatch,
     * `for (var i = 0, len = jsondocs.length; i < len--; i += 2)` over the
     * `2n` replies: it stops after ceil(2n/3) key slots.
     */
    method CollectBatch(replies: seq<Reply>, now: int) returns (results: seq<Document>)
      requires |replies| % 2 == 0
      ensures results == Collected(Collection(), codec, replies, Examined(|replies| / 2), now)
    {
      ghost var n := |replies| / 2;
      ghost var k := 0;
      results := [];
      var i := 0;
      var len := |replies|;
      while true
        invariant 0 <= k <= Examined(n)
        invariant i == 2 * k && len == |replies| - k
        invariant results == Collected(Collection(), codec, replies, k, now)
        decreases Examined(n) - k
      {
        LoopTest(n, k);
        var more := i < len;
        len := len - 1;
        if !more {
          break;
        }
        var item := ClientHash(replies[i]);
        if item.Some? {
          var doc := BuildDocument(item.value, replies[i + 1], now);
          results := results + [doc];
        }
        i := i + 2;
        k := k + 1;
      }
    }

    /** merge(key, attributes): HMSET of the flattened attributes. */
    method Merge(key: string, attributes: JsObject, now: int) returns (r: Completion<Reply>)
      modifies server, attributes
      ensures (r, server.db) == Engine.Merge(Collection(), codec, old(server.db), key, old(attributes.fields), now)
      ensures attributes.fields == FlattenedInput(codec, old(attributes.fields))
    {
      var flat := Flatten(codec, attributes);
      if flat.NullAttachmentError? {
        return Threw(NullAttachment);
      }
      var reply := server.Call(HMSet(HashKey(dbname, key), flat.payload.body), now);
      r := Answer(reply);
    }

    /** remove(object), for the object's key. */
    method Remove(key: string, now: int) returns (r: Completion<Reply>)
      modifies server
      ensures (r, server.db) == RemoveDoc(Collection(), old(server.db), key, now)
    {
      var chain := [Del([HashKey(dbname, key)]), Del([AttachmentKey(dbname, key)])];
      if !ephemeral {
        chain := chain + [SRem(IdsKey(dbname), key)];
      }
      assert chain == RemoveBatch(Collection(), key);
      var replies := server.Exec(chain, now);
      if replies.Aborted? {
        return Threw(RepliesUndefined);
      }
      r := Completed(replies.replies[0]);
    }

    /** destroyMany(objects). */
    method DestroyMany(targets: seq<Target>, now: int) returns (r: Completion<()>)
      modifies server
      ensures (r, server.db) == Engine.DestroyMany(Collection(), old(server.db), targets, now)
    {
      var ids := TargetKeys(targets);
      var chain: seq<Command> := [];
      if !ephemeral {
        var j := 0;
        while j < |ids|
          invariant 0 <= j <= |ids|
          invariant chain == IdRemovals(dbname, ids[..j])
          invariant server.db == old(server.db)
        {
          assert ids[..j + 1] == ids[..j] + [ids[j]];
          IdRemovalsAppend(dbname, ids[..j], ids[j]);
          chain := chain + [SRem(IdsKey(dbname), ids[j])];
          j := j + 1;
        }
        assert ids[..j] == ids;
      }
      chain := chain + [Del(HashKeys(dbname, ids)), Del(AttachmentKeys(dbname, ids))];
      var replies := server.Exec(chain, now);
      r := if replies.Aborted? then Failed(ExecAbort) else Completed(());
    }

    /** all(): the id set, or nothing for an ephemeral collection. */
    method All(now: int) returns (r: Completion<set<string>>)
      modifies server
      ensures (r, server.db) == Engine.All(Collection(), old(server.db), now)
    {
      if ephemeral {
        return Completed({});
      }
      var reply := server.Call(SMembers(IdsKey(dbname)), now);
      r := if reply.Error? then Failed(Rejected(reply.failure)) else Completed(reply.members);
    }

    /** attachment(key, name). */
    method Attachment(key: string, name: string, now: int) returns (r: Completion<AttachmentBody>)
      modifies server
      ensures (r, server.db) == FetchAttachment(Collection(), codec, old(server.db), key, name, now)
    {
      var reply := server.Call(HGet(AttachmentKey(dbname, key), name), now);
      r := AttachmentOf(codec, reply);
    }

    /** saveAttachment(object, attachment), for the object's key. */
    method SaveAttachment(key: string, attachment: map<string, Value>, now: int) returns (r: Completion<Reply>)
      requires "name" in attachment && attachment["name"].Str?
      modifies server
      ensures (r, server.db) == Engine.SaveAttachment(Collection(), codec, old(server.db), key, attachment, now)
    {
      var reply := server.Call(HSet(AttachmentKey(dbname, key), attachment["name"].s, codec.encode(Obj(attachment))), now);
      r := Answer(reply);
    }

    /** removeAttachment(object, name), for the object's key. */
    method RemoveAttachment(key: string, name: string, now: int) returns (r: Completion<Reply>)
      modifies server
      ensures (r, server.db) == Engine.RemoveAttachment(Collection(), old(server.db), key, name, now)
    {
      var reply := server.Call(HDel(AttachmentKey(dbname, key), name), now);
      r := Answer(reply);
    }
  }
}
