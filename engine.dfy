/**
 * The document store engine as functions of the store: the command chain
 * each operation queues, and what its callback receives. The adapter's
 * methods (module Adapter) run these chains against the server; the lemmas
 * here state what the operations do to the store.
 */
module Engine {
  import opened Options
  import opened Json
  import opened KeyScheme
  import opened Redis
  import opened Codec

  /** The collection name (`opts.dbname || plural`) and whether it is ephemeral. */
  datatype Config = Config(dbname: string, ephemeral: bool)

  /**
   * The properties of a document object that save reads besides its
   * serialized fields: `key` (None when missing), `ttl` (None when not a
   * number) and `expire_at` (None when not a number).
   */
  datatype Instance = Instance(key: Option<string>, ttl: Option<int>, expireAt: Option<real>)

  /** Exceptions that escape an operation. */
  datatype Thrown =
    | KeyRequired           // "cannot save a document without a key"
    | NullAttachment        // flatten reads `.body` of a null attachment entry
    | AttachmentsUndefined  // Object.keys(payload.attachments) of undefined
    | RepliesUndefined      // the EXEC callback reads `replies[0]` after EXEC was refused
    | InvalidJson           // JSON.parse of a stored attachment throws
    | NullRecord            // `.body` of an attachment record that parsed to null

  /** Errors handed to an operation's callback. */
  datatype StoreError = ExecAbort | Rejected(failure: Failure)

  /** How a call ends: an exception, an error for the callback, or a result for it. */
  datatype Completion<T> = Threw(thrown: Thrown) | Failed(error: StoreError) | Completed(value: T)

  type Document = map<string, Value>

  /** What get hands back: one document or null, or a list for a list of keys. */
  datatype Fetched = One(doc: Option<Document>) | Many(docs: seq<Document>)

  /** The argument of get: one key or a list of keys. */
  datatype KeyArg = Key(key: string) | KeyList(keys: seq<string>)

  /** What attachment() hands back. */
  datatype AttachmentBody =
    | NoAttachment     // null: no such attachment
    | Undefined        // the record has no `body`
    | Plain(v: Value)  // a primitive body, as parsed
    | Buffer(v: Value) // an object-shaped body, turned into a byte buffer

  // ---------------------------------------------------------------- save

  /** The expiry an ephemeral save requests: EXPIRE for a positive ttl, else EXPIREAT for a positive expire_at. */
  function ExpiryCommands(hk: string, ttl: Option<int>, expireAt: Option<real>): seq<Command>
  {
    if ttl.Some? && ttl.value > 0 then [Expire(hk, ttl.value)]
    else if expireAt.Some? && expireAt.value > 0.0 then [ExpireAt(hk, expireAt.value.Floor)]
    else []
  }

  /** The MULTI chain save queues for document `key`. */
  function SaveBatch(cfg: Config, key: string, body: map<string, string>, attachments: map<string, string>,
                     ttl: Option<int>, expireAt: Option<real>): seq<Command>
  {
    [HMSet(HashKey(cfg.dbname, key), body)]
    + (if !cfg.ephemeral then [SAdd(IdsKey(cfg.dbname), key)] else [])
    + (if attachments != map[] then [HMSet(AttachmentKey(cfg.dbname, key), attachments)] else [])
    + (if cfg.ephemeral then ExpiryCommands(HashKey(cfg.dbname, key), ttl, expireAt) else [])
  }

  predicate HasKey(obj: Instance)
  {
    obj.key.Some? && obj.key.value != ""
  }

  /** save(object, json): the completion and the store afterwards. */
  function Save(cfg: Config, c: Serializer, db: Db, obj: Instance, json: map<string, Value>, now: int): (Completion<Reply>, Db)
  {
    if !HasKey(obj) then (Threw(KeyRequired), db)
    else match Flattened(c, json)
      case NullAttachmentError => (Threw(NullAttachment), db)
      case Flat(p) =>
        if p.attachments.None? then (Threw(AttachmentsUndefined), db)
        else
          var (d, r) := Transaction(db, SaveBatch(cfg, obj.key.value, p.body, p.attachments.value, obj.ttl, obj.expireAt), now);
          (if r.Aborted? then Threw(RepliesUndefined) else Completed(r.replies[0]), d)
  }

  // ---------------------------------------------------------------- get

  /**
   * An HGETALL reply as the client hands it over: an empty hash becomes
   * null; an error reply is an object with no enumerable fields.
   */
  function ClientHash(r: Reply): Option<map<string, string>>
  {
    match r
    case Fields(m) => if m == map[] then None else Some(m)
    case Error(_) => Some(map[])
    case _ => None
  }

  function IntegerOf(r: Reply): int
  {
    if r.Integer? then r.n else 0
  }

  /**
   * The object get builds from a stored hash: the inflated fields and, in
   * an ephemeral collection, `ttl` and `expire_at = floor(now/1000 + ttl)`.
   */
  function Materialize(cfg: Config, c: Serializer, item: map<string, string>, ttl: int, now: int): Document
  {
    var doc := Inflated(c, Some(item)).value;
    if cfg.ephemeral then doc["ttl" := Num(ttl)]["expire_at" := Num(now / 1000 + ttl)] else doc
  }

  function GetChain(cfg: Config, key: string): seq<Command>
  {
    [HGetAll(HashKey(cfg.dbname, key)), Ttl(HashKey(cfg.dbname, key))]
  }

  /** get(key) for a single key. */
  function GetOne(cfg: Config, c: Serializer, db: Db, key: string, now: int): (Completion<Fetched>, Db)
  {
    var (d, r) := Transaction(db, GetChain(cfg, key), now);
    if r.Aborted? then (Failed(ExecAbort), d)
    else
      var item := ClientHash(r.replies[0]);
      if item.None? then (Completed(One(None)), d)
      else (Completed(One(Some(Materialize(cfg, c, item.value, IntegerOf(r.replies[1]), now)))), d)
  }

  /** HGETALL and TTL of every key, in order. */
  function BatchChain(cfg: Config, keys: seq<string>): (chain: seq<Command>)
    ensures |chain| == 2 * |keys|
    ensures forall j :: 0 <= j < |keys| ==> chain[2 * j] == HGetAll(HashKey(cfg.dbname, keys[j]))
    ensures forall j :: 0 <= j < |keys| ==> chain[2 * j + 1] == Ttl(HashKey(cfg.dbname, keys[j]))
  {
    if keys == [] then []
    else GetChain(cfg, keys[0]) + BatchChain(cfg, keys[1..])
  }

  /**
   * How many keys the loop `for (var i = 0, len = jsondocs.length; i < len--; i += 2)`
   * looks at for `n` keys (`jsondocs.length = 2n` replies): the test at iteration `k` compares
   * `2k` with `2n - k`, so it runs while `3k < 2n`, that is ceil(2n/3) times.
   */
  function Examined(n: nat): nat
  {
    (2 * n + 2) / 3
  }

  /** The HGETALL reply of key slot `j` holds a hash. */
  predicate Present(replies: seq<Reply>, j: nat)
    requires 2 * j < |replies|
  {
    ClientHash(replies[2 * j]).Some?
  }

  /** The document of key slot `j`. */
  function SlotDocument(cfg: Config, c: Serializer, replies: seq<Reply>, j: nat, now: int): Document
    requires 2 * j + 1 < |replies|
    requires Present(replies, j)
  {
    Materialize(cfg, c, ClientHash(replies[2 * j]).value, IntegerOf(replies[2 * j + 1]), now)
  }

  /** The documents of the present slots among the first `k`, in slot order. */
  function Collected(cfg: Config, c: Serializer, replies: seq<Reply>, k: nat, now: int): seq<Document>
    requires 2 * k <= |replies|
  {
    if k == 0 then []
    else
      Collected(cfg, c, replies, k - 1, now)
      + (if Present(replies, k - 1) then [SlotDocument(cfg, c, replies, k - 1, now)] else [])
  }

  /** How many of the first `k` slots are present. */
  function CountPresent(replies: seq<Reply>, k: nat): nat
    requires 2 * k <= |replies|
  {
    if k == 0 then 0 else CountPresent(replies, k - 1) + (if Present(replies, k - 1) then 1 else 0)
  }

  /** getBatch(keylist). */
  function GetBatch(cfg: Config, c: Serializer, db: Db, keys: seq<string>, now: int): (Completion<Fetched>, Db)
  {
    var (d, r) := Transaction(db, BatchChain(cfg, keys), now);
    if r.Aborted? then (Failed(ExecAbort), d)
    else (Completed(Many(Collected(cfg, c, r.replies, Examined(|keys|), now))), d)
  }

  /**
   * getBatch as its loop evidently means it: every key slot is examined,
   * so every stored document comes back.
   */
  function GetBatchIntended(cfg: Config, c: Serializer, db: Db, keys: seq<string>, now: int): (Completion<Fetched>, Db)
  {
    var (d, r) := Transaction(db, BatchChain(cfg, keys), now);
    if r.Aborted? then (Failed(ExecAbort), d)
    else (Completed(Many(Collected(cfg, c, r.replies, |keys|, now))), d)
  }

  /** get(key): a list of keys goes to getBatch. */
  function Get(cfg: Config, c: Serializer, db: Db, key: KeyArg, now: int): (Completion<Fetched>, Db)
  {
    match key
    case Key(k) => GetOne(cfg, c, db, k, now)
    case KeyList(ks) => GetBatch(cfg, c, db, ks, now)
  }

  // ---------------------------------------------------------------- merge, remove, destroyMany, all

  /** A reply passed to a callback as (err, reply): error replies become the error. */
  function Answer(r: Reply): Completion<Reply>
  {
    if r.Error? then Failed(Rejected(r.failure)) else Completed(r)
  }

  /** merge(key, attributes): one HMSET of the flattened attributes, outside a transaction. */
  function Merge(cfg: Config, c: Serializer, db: Db, key: string, attributes: map<string, Value>, now: int): (Completion<Reply>, Db)
  {
    match Flattened(c, attributes)
    case NullAttachmentError => (Threw(NullAttachment), db)
    case Flat(p) =>
      var (d, r) := Single(db, HMSet(HashKey(cfg.dbname, key), p.body), now);
      (Answer(r), d)
  }

  /** The MULTI chain remove queues. */
  function RemoveBatch(cfg: Config, key: string): seq<Command>
  {
    [Del([HashKey(cfg.dbname, key)]), Del([AttachmentKey(cfg.dbname, key)])]
    + (if !cfg.ephemeral then [SRem(IdsKey(cfg.dbname), key)] else [])
  }

  /** remove(object): the completion carries the reply of the first DEL. */
  function RemoveDoc(cfg: Config, db: Db, key: string, now: int): (Completion<Reply>, Db)
  {
    var (d, r) := Transaction(db, RemoveBatch(cfg, key), now);
    (if r.Aborted? then Threw(RepliesUndefined) else Completed(r.replies[0]), d)
  }

  /** An entry of destroyMany's list: a key, or an object whose `.key` is used. */
  datatype Target = KeyTarget(key: string) | ObjectTarget(objectKey: string)

  function TargetKey(t: Target): string
  {
    match t
    case KeyTarget(k) => k
    case ObjectTarget(k) => k
  }

  function TargetKeys(targets: seq<Target>): (ids: seq<string>)
    ensures |ids| == |targets|
    ensures forall i :: 0 <= i < |targets| ==> ids[i] == TargetKey(targets[i])
  {
    if targets == [] then [] else [TargetKey(targets[0])] + TargetKeys(targets[1..])
  }

  function HashKeys(dbname: string, ids: seq<string>): (r: seq<string>)
    ensures |r| == |ids|
    ensures forall i :: 0 <= i < |ids| ==> r[i] == HashKey(dbname, ids[i])
  {
    if ids == [] then [] else [HashKey(dbname, ids[0])] + HashKeys(dbname, ids[1..])
  }

  function AttachmentKeys(dbname: string, ids: seq<string>): (r: seq<string>)
    ensures |r| == |ids|
    ensures forall i :: 0 <= i < |ids| ==> r[i] == AttachmentKey(dbname, ids[i])
  {
    if ids == [] then [] else [AttachmentKey(dbname, ids[0])] + AttachmentKeys(dbname, ids[1..])
  }

  function IdRemovals(dbname: string, ids: seq<string>): (r: seq<Command>)
    ensures |r| == |ids|
    ensures forall i :: 0 <= i < |ids| ==> r[i] == SRem(IdsKey(dbname), ids[i])
  {
    if ids == [] then [] else [SRem(IdsKey(dbname), ids[0])] + IdRemovals(dbname, ids[1..])
  }

  /** The MULTI chain destroyMany queues (a null list maps to no ids). */
  function DestroyBatch(cfg: Config, ids: seq<string>): seq<Command>
  {
    (if !cfg.ephemeral then IdRemovals(cfg.dbname, ids) else [])
    + [Del(HashKeys(cfg.dbname, ids)), Del(AttachmentKeys(cfg.dbname, ids))]
  }

  /** destroyMany(objects): the callback gets only the error. */
  function DestroyMany(cfg: Config, db: Db, targets: seq<Target>, now: int): (Completion<()>, Db)
  {
    var (d, r) := Transaction(db, DestroyBatch(cfg, TargetKeys(targets)), now);
    (if r.Aborted? then Failed(ExecAbort) else Completed(()), d)
  }

  /** all(): no listing in an ephemeral collection, else SMEMBERS of the id set. */
  function All(cfg: Config, db: Db, now: int): (Completion<set<string>>, Db)
  {
    if cfg.ephemeral then (Completed({}), db)
    else
      var (d, r) := Single(db, SMembers(IdsKey(cfg.dbname)), now);
      (if r.Error? then Failed(Rejected(r.failure)) else Completed(r.members), d)
  }

  // ---------------------------------------------------------------- attachments

  /**
   * What attachment() hands back for a parsed record: `.body` throws on
   * null; a truthy object-shaped body becomes a byte buffer.
   */
  function RecordBody(record: Value): Completion<AttachmentBody>
  {
    if record == Null then Threw(NullRecord)
    else
      var body := Property(record, "body");
      if Truthy(record) && body.Some? && Truthy(body.value) && IsObjectLike(body.value) then Completed(Buffer(body.value))
      else if body.None? then Completed(Undefined)
      else Completed(Plain(body.value))
  }

  /** What attachment() makes of an HGET reply: null and "" mean no attachment. */
  function AttachmentOf(c: Serializer, r: Reply): Completion<AttachmentBody>
  {
    if r.Error? then Failed(Rejected(r.failure))
    else if !r.Bulk? || r.s == "" then Completed(NoAttachment)
    else
      match c.decode(r.s)
      case None => Threw(InvalidJson)
      case Some(record) => RecordBody(record)
  }

  /** attachment(key, name): one HGET on the attachment hash. */
  function FetchAttachment(cfg: Config, c: Serializer, db: Db, key: string, name: string, now: int): (Completion<AttachmentBody>, Db)
  {
    var (d, r) := Single(db, HGet(AttachmentKey(cfg.dbname, key), name), now);
    (AttachmentOf(c, r), d)
  }

  /** saveAttachment(object, attachment): HSET of the whole encoded attachment under its name. */
  function SaveAttachment(cfg: Config, c: Serializer, db: Db, key: string, attachment: map<string, Value>, now: int): (Completion<Reply>, Db)
    requires "name" in attachment && attachment["name"].Str?
  {
    var (d, r) := Single(db, HSet(AttachmentKey(cfg.dbname, key), attachment["name"].s, c.encode(Obj(attachment))), now);
    (Answer(r), d)
  }

  /** removeAttachment(object, name): HDEL of the named field. */
  function RemoveAttachment(cfg: Config, db: Db, key: string, name: string, now: int): (Completion<Reply>, Db)
  {
    var (d, r) := Single(db, HDel(AttachmentKey(cfg.dbname, key), name), now);
    (Answer(r), d)
  }
}
