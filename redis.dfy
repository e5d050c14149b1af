/**
 * The Redis server the adapter talks to, as a sequential in-memory store:
 * one keyspace of hashes and sets, and an expiry deadline (in milliseconds
 * since the epoch) per key. Commands follow Redis's documented semantics;
 * a MULTI/EXEC transaction is a list of commands applied in order.
 */
module Redis {
  import opened Options

  datatype Entry = HashEntry(fields: map<string, string>) | SetEntry(members: set<string>)

  /** The keyspace and the expiry deadlines, in milliseconds. */
  datatype Db = Db(data: map<string, Entry>, deadlines: map<string, int>)

  datatype Command =
    | HMSet(key: string, fields: map<string, string>)
    | HSet(key: string, field: string, value: string)
    | HGet(key: string, field: string)
    | HGetAll(key: string)
    | HDel(key: string, field: string)
    | SAdd(key: string, member: string)
    | SRem(key: string, member: string)
    | SMembers(key: string)
    | Del(keys: seq<string>)
    | Expire(key: string, seconds: int)
    | ExpireAt(key: string, timestamp: int)
    | Ttl(key: string)

  /** WRONGTYPE, and the "wrong number of arguments" refusal. */
  datatype Failure = WrongType | WrongArity

  datatype Reply =
    | Status(text: string)
    | Integer(n: int)
    | Bulk(s: string)
    | Nil
    | Fields(m: map<string, string>)
    | Members(members: set<string>)
    | Error(failure: Failure)

  /** The reply of EXEC: refused as a whole (EXECABORT), or one reply per command. */
  datatype ExecReply = Aborted | Replies(replies: seq<Reply>)

  datatype Outcome = Outcome(db: Db, replies: seq<Reply>)

  /** Redis never keeps an empty hash or set, and only live keys carry a deadline. */
  ghost predicate Valid(db: Db)
  {
    && db.deadlines.Keys <= db.data.Keys
    && forall k :: k in db.data ==> NonEmpty(db.data[k])
  }

  predicate NonEmpty(e: Entry)
  {
    match e
    case HashEntry(f) => f != map[]
    case SetEntry(m) => m != {}
  }

  /** HMSET needs at least one field and DEL at least one key. */
  predicate WellFormed(c: Command)
  {
    match c
    case HMSet(_, f) => f != map[]
    case Del(ks) => ks != []
    case _ => true
  }

  /** The fields of the hash at `k`; none when `k` is absent. */
  function FieldsOf(db: Db, k: string): map<string, string>
  {
    if k in db.data && db.data[k].HashEntry? then db.data[k].fields else map[]
  }

  /** The members of the set at `k`; none when `k` is absent. */
  function MembersOf(db: Db, k: string): set<string>
  {
    if k in db.data && db.data[k].SetEntry? then db.data[k].members else {}
  }

  predicate HoldsNonHash(db: Db, k: string)
  {
    k in db.data && !db.data[k].HashEntry?
  }

  predicate HoldsNonSet(db: Db, k: string)
  {
    k in db.data && !db.data[k].SetEntry?
  }

  function Put(db: Db, k: string, e: Entry): Db
  {
    Db(db.data[k := e], db.deadlines)
  }

  function Remove(db: Db, k: string): Db
  {
    Db(db.data - {k}, db.deadlines - {k})
  }

  /**
   * Lazy expiry: every key whose deadline is before `now` is gone; a key
   * whose deadline is exactly `now` is still readable (TTL answers 0).
   */
  function Purge(db: Db, now: int): (r: Db)
    ensures forall k :: k in r.data <==> k in db.data && (k !in db.deadlines || db.deadlines[k] >= now)
    ensures forall k :: k in r.data ==> r.data[k] == db.data[k]
    ensures forall k :: k in r.deadlines <==> k in db.deadlines && db.deadlines[k] >= now
    ensures forall k :: k in r.deadlines ==> r.deadlines[k] == db.deadlines[k]
    ensures Valid(db) ==> Valid(r)
  {
    var dead := set k | k in db.deadlines && db.deadlines[k] < now;
    Db(db.data - dead, db.deadlines - dead)
  }

  /**
   * EXPIRE and EXPIREAT: a missing key replies 0; a deadline that is not in
   * the future deletes the key at once; otherwise the deadline is recorded.
   */
  function SetDeadline(db: Db, k: string, when: int, now: int): (Db, Reply)
  {
    if k !in db.data then (db, Integer(0))
    else if when <= now then (Remove(db, k), Integer(1))
    else (Db(db.data, db.deadlines[k := when]), Integer(1))
  }

  /** One command at time `now` (milliseconds). */
  function Step(db: Db, c: Command, now: int): (Db, Reply)
  {
    if !WellFormed(c) then (db, Error(WrongArity))
    else match c
      case HMSet(k, f) =>
        if HoldsNonHash(db, k) then (db, Error(WrongType))
        else (Put(db, k, HashEntry(FieldsOf(db, k) + f)), Status("OK"))
      case HSet(k, f, v) =>
        if HoldsNonHash(db, k) then (db, Error(WrongType))
        else (Put(db, k, HashEntry(FieldsOf(db, k)[f := v])), Integer(if f in FieldsOf(db, k) then 0 else 1))
      case HGet(k, f) =>
        if HoldsNonHash(db, k) then (db, Error(WrongType))
        else if f in FieldsOf(db, k) then (db, Bulk(FieldsOf(db, k)[f]))
        else (db, Nil)
      case HGetAll(k) =>
        if HoldsNonHash(db, k) then (db, Error(WrongType))
        else (db, Fields(FieldsOf(db, k)))
      case HDel(k, f) =>
        if HoldsNonHash(db, k) then (db, Error(WrongType))
        else if f !in FieldsOf(db, k) then (db, Integer(0))
        else
          var rest := FieldsOf(db, k) - {f};
          (if rest == map[] then Remove(db, k) else Put(db, k, HashEntry(rest)), Integer(1))
      case SAdd(k, m) =>
        if HoldsNonSet(db, k) then (db, Error(WrongType))
        else (Put(db, k, SetEntry(MembersOf(db, k) + {m})), Integer(if m in MembersOf(db, k) then 0 else 1))
      case SRem(k, m) =>
        if HoldsNonSet(db, k) then (db, Error(WrongType))
        else if m !in MembersOf(db, k) then (db, Integer(0))
        else
          var rest := MembersOf(db, k) - {m};
          (if rest == {} then Remove(db, k) else Put(db, k, SetEntry(rest)), Integer(1))
      case SMembers(k) =>
        if HoldsNonSet(db, k) then (db, Error(WrongType))
        else (db, Members(MembersOf(db, k)))
      case Del(ks) =>
        var gone := set k | k in ks;
        (Db(db.data - gone, db.deadlines - gone), Integer(|gone * db.data.Keys|))
      case Expire(k, s) => SetDeadline(db, k, now + s * 1000, now)
      case ExpireAt(k, t) => SetDeadline(db, k, t * 1000, now)
      case Ttl(k) =>
        var left :=
          if k !in db.data then -2
          else if k !in db.deadlines then -1
          else (Max(db.deadlines[k] - now, 0) + 500) / 1000;
        (db, Integer(left))
  }

  function Max(a: int, b: int): int
  {
    if a < b then b else a
  }

  /** Applies a chain of commands in order, collecting one reply per command. */
  function Run(db: Db, chain: seq<Command>, now: int): (o: Outcome)
    ensures |o.replies| == |chain|
    decreases |chain|
  {
    if chain == [] then Outcome(db, [])
    else
      var (d, r) := Step(db, chain[0], now);
      var rest := Run(d, chain[1..], now);
      Outcome(rest.db, [r] + rest.replies)
  }

  /**
   * MULTI ... EXEC: a malformed command refuses the whole transaction before
   * anything runs; otherwise the commands run in order, without interleaving,
   * at one instant.
   */
  function Transaction(db: Db, chain: seq<Command>, now: int): (Db, ExecReply)
  {
    if exists i :: 0 <= i < |chain| && !WellFormed(chain[i]) then (db, Aborted)
    else
      var o := Run(Purge(db, now), chain, now);
      (o.db, Replies(o.replies))
  }

  /** A command sent on its own, outside a transaction. */
  function Single(db: Db, c: Command, now: int): (Db, Reply)
  {
    if !WellFormed(c) then (db, Error(WrongArity)) else Step(Purge(db, now), c, now)
  }

  /** The store object the adapter's connection reaches. */
  class Server {
    var db: Db

    constructor ()
      ensures db == Db(map[], map[])
    {
      db := Db(map[], map[]);
    }

    /** EXEC of a queued chain. */
    method Exec(chain: seq<Command>, now: int) returns (r: ExecReply)
      modifies this
      ensures (db, r) == Transaction(old(db), chain, now)
    {
      var i := 0;
      while i < |chain|
        invariant 0 <= i <= |chain|
        invariant forall j :: 0 <= j < i ==> WellFormed(chain[j])
      {
        if !WellFormed(chain[i]) {
          assert 0 <= i < |chain| && !WellFormed(chain[i]);
          assert Transaction(old(db), chain, now) == (db, Aborted);
          return Aborted;
        }
        i := i + 1;
      }
      var start := Purge(db, now);
      db := start;
      var replies: seq<Reply> := [];
      i := 0;
      while i < |chain|
        invariant 0 <= i <= |chain|
        invariant Run(start, chain, now).db == Run(db, chain[i..], now).db
        invariant Run(start, chain, now).replies == replies + Run(db, chain[i..], now).replies
      {
        assert chain[i..][1..] == chain[i + 1..];
        var (d, reply) := Step(db, chain[i], now);
        db := d;
        replies := replies + [reply];
        i := i + 1;
      }
      assert chain[i..] == [];
      r := Replies(replies);
      assert !exists j :: 0 <= j < |chain| && !WellFormed(chain[j]);
      assert Run(start, chain, now).db == db;
      assert Run(start, chain, now).replies == replies;
    }

    /** One command outside a transaction. */
    method Call(c: Command, now: int) returns (r: Reply)
      modifies this
      ensures (db, r) == Single(old(db), c, now)
    {
      if !WellFormed(c) {
        return Error(WrongArity);
      }
      var (d, reply) := Step(Purge(db, now), c, now);
      db, r := d, reply;
    }
  }

  /** The keys a command may write; reads touch nothing. */
  function Touched(c: Command): set<string>
  {
    match c
    case HMSet(k, _) => {k}
    case HSet(k, _, _) => {k}
    case HDel(k, _) => {k}
    case SAdd(k, _) => {k}
    case SRem(k, _) => {k}
    case Del(ks) => set k | k in ks
    case Expire(k, _) => {k}
    case ExpireAt(k, _) => {k}
    case _ => {}
  }

  /** What the store holds at `k`: its entry and its deadline. */
  function Slot(db: Db, k: string): (Option<Entry>, Option<int>)
  {
    (if k in db.data then Some(db.data[k]) else None,
     if k in db.deadlines then Some(db.deadlines[k]) else None)
  }

  predicate Untouched(chain: seq<Command>, k: string)
  {
    forall i :: 0 <= i < |chain| ==> k !in Touched(chain[i])
  }

  /** A command leaves every key it does not write as it was. */
  lemma StepFrame(db: Db, c: Command, now: int, k: string)
    requires k !in Touched(c)
    ensures Slot(Step(db, c, now).0, k) == Slot(db, k)
  {
  }

  /** A chain leaves every key none of its commands writes as it was. */
  lemma {:induction false} RunFrame(db: Db, chain: seq<Command>, now: int, k: string)
    requires Untouched(chain, k)
    ensures Slot(Run(db, chain, now).db, k) == Slot(db, k)
    decreases |chain|
  {
    if chain != [] {
      StepFrame(db, chain[0], now, k);
      assert Untouched(chain[1..], k) by {
        forall i | 0 <= i < |chain[1..]| ensures k !in Touched(chain[1..][i]) {
          assert chain[1..][i] == chain[i + 1];
        }
      }
      RunFrame(Step(db, chain[0], now).0, chain[1..], now, k);
    }
  }

  /** Running `a + b` is running `a`, then `b` on what `a` left. */
  lemma {:induction false} RunAppend(db: Db, a: seq<Command>, b: seq<Command>, now: int)
    ensures Run(db, a + b, now).db == Run(Run(db, a, now).db, b, now).db
    ensures Run(db, a + b, now).replies == Run(db, a, now).replies + Run(Run(db, a, now).db, b, now).replies
    decreases |a|
  {
    if a == [] {
      assert a + b == b;
    } else {
      assert (a + b)[0] == a[0];
      assert (a + b)[1..] == a[1..] + b;
      RunAppend(Step(db, a[0], now).0, a[1..], b, now);
    }
  }

  /** Commands that only read. */
  predicate ReadOnly(c: Command)
  {
    c.HGet? || c.HGetAll? || c.SMembers? || c.Ttl?
  }

  /** A chain of reads changes nothing and each reply is that of its command on the same store. */
  lemma {:induction false} RunReadOnly(db: Db, chain: seq<Command>, now: int)
    requires forall i :: 0 <= i < |chain| ==> ReadOnly(chain[i])
    ensures Run(db, chain, now).db == db
    ensures forall i :: 0 <= i < |chain| ==> Run(db, chain, now).replies[i] == Step(db, chain[i], now).1
    decreases |chain|
  {
    if chain != [] {
      assert Step(db, chain[0], now).0 == db;
      RunReadOnly(db, chain[1..], now);
      forall i | 1 <= i < |chain|
        ensures Run(db, chain, now).replies[i] == Step(db, chain[i], now).1
      {
        assert chain[1..][i - 1] == chain[i];
      }
    }
  }

  /** Every command keeps the store free of empty hashes and sets and of deadlines on absent keys. */
  lemma StepValid(db: Db, c: Command, now: int)
    requires Valid(db)
    ensures Valid(Step(db, c, now).0)
  {
    var d := Step(db, c, now).0;
    forall k | k in d.data
      ensures NonEmpty(d.data[k])
    {
      if k !in Touched(c) {
        StepFrame(db, c, now, k);
      }
    }
  }

  /** Transactions and single commands keep the store valid. */
  lemma {:induction false} RunValid(db: Db, chain: seq<Command>, now: int)
    requires Valid(db)
    ensures Valid(Run(db, chain, now).db)
    decreases |chain|
  {
    if chain != [] {
      StepValid(db, chain[0], now);
      RunValid(Step(db, chain[0], now).0, chain[1..], now);
    }
  }

  lemma TransactionValid(db: Db, chain: seq<Command>, now: int)
    requires Valid(db)
    ensures Valid(Transaction(db, chain, now).0)
  {
    RunValid(Purge(db, now), chain, now);
  }

  /** A command sent on its own keeps the store well formed. */
  lemma SingleValid(db: Db, c: Command, now: int)
    requires Valid(db)
    ensures Valid(Single(db, c, now).0)
  {
    if WellFormed(c) {
      StepValid(Purge(db, now), c, now);
    }
  }

  /**
   * A transaction whose commands are all well formed runs on the store with
   * expired keys removed; one with a malformed command changes nothing.
   */
  lemma TransactionRuns(db: Db, chain: seq<Command>, now: int)
    ensures (forall i :: 0 <= i < |chain| ==> WellFormed(chain[i])) ==>
      Transaction(db, chain, now) == (Run(Purge(db, now), chain, now).db, Replies(Run(Purge(db, now), chain, now).replies))
    ensures (exists i :: 0 <= i < |chain| && !WellFormed(chain[i])) ==> Transaction(db, chain, now) == (db, Aborted)
  {
  }

  /** Running a single command is that command's step. */
  lemma RunSingleton(db: Db, c: Command, now: int)
    ensures Run(db, [c], now) == Outcome(Step(db, c, now).0, [Step(db, c, now).1])
  {
    assert [c][1..] == [];
  }

  /** Commands that never set, clear or drop a deadline. */
  predicate KeepsDeadlines(c: Command)
  {
    c.HMSet? || c.HSet? || c.SAdd? || ReadOnly(c)
  }

  /** Hash writes, set additions and reads leave every deadline as it was. */
  lemma {:induction false} RunKeepsDeadlines(db: Db, chain: seq<Command>, now: int)
    requires forall i :: 0 <= i < |chain| ==> KeepsDeadlines(chain[i])
    ensures Run(db, chain, now).db.deadlines == db.deadlines
    decreases |chain|
  {
    if chain != [] {
      assert Step(db, chain[0], now).0.deadlines == db.deadlines;
      RunKeepsDeadlines(Step(db, chain[0], now).0, chain[1..], now);
    }
  }

  /** DEL removes each named key with its deadline, answers how many existed, and leaves the rest. */
  lemma DelEffect(db: Db, ks: seq<string>, now: int)
    requires ks != []
    ensures forall k :: k in ks ==> k !in Step(db, Del(ks), now).0.data && k !in Step(db, Del(ks), now).0.deadlines
    ensures forall k :: k !in ks ==> Slot(Step(db, Del(ks), now).0, k) == Slot(db, k)
    ensures Step(db, Del(ks), now).1 == Integer(|(set k | k in ks) * db.data.Keys|)
  {
  }

  /** DEL of one key answers 1 when it existed and 0 otherwise. */
  lemma DelOne(db: Db, k: string, now: int)
    ensures Step(db, Del([k]), now).1 == Integer(if k in db.data then 1 else 0)
  {
    DelEffect(db, [k], now);
    assert (set x | x in [k]) * db.data.Keys == if k in db.data then {k} else {};
  }

  /** SREM takes the member out of the set at `k` (or finds no set there). */
  lemma SRemEffect(db: Db, k: string, m: string, now: int)
    ensures MembersOf(Step(db, SRem(k, m), now).0, k) == MembersOf(db, k) - {m}
  {
  }
}
