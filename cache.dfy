/** The `Cache` class: a key-value facade over a Redis connection whose
    `store` is instrumented by `call_history`. */
module CacheModel {
  import opened Redis
  import opened Python
  import opened Instrument

  /** `Cache.store.__qualname__`, the identity both decorators derive their keys from. */
  const StoreName: string := "Cache.store"

  /** The body shared by all three definitions of `store`: SET data under
      the key `str(uuid.uuid4())` produced, here passed in as uuid, and
      return that key. It always returns; GET of the key then yields data,
      every other key reads as before, and no counter or list changes. */
  function StoreBody(uuid: string, db: Db, data: string): (c: Call<string>)
    ensures c.Returned? && c.result == uuid
    ensures Get(c.db, uuid) == Some(data)
    ensures forall k :: k != uuid ==> Get(c.db, k) == Get(db, k)
    ensures c.db.counters == db.counters && c.db.lists == db.lists
  {
    Returned(Set(db, uuid, data), uuid)
  }

  /** One call of the effective `store`, command by command: RPUSH the
      arguments onto the inputs log, SET the key, RPUSH the key onto the
      outputs log. The inputs log grows by `str((data,))`, the outputs log
      by the key, no other list and no counter changes, the key reads back
      as data and every other key reads as before. */
  function StoreStep(db: Db, data: string, uuid: string): (after: Db)
    ensures LRange(after, InputsKey(StoreName)) == LRange(db, InputsKey(StoreName)) + [ArgsRepr(data)]
    ensures LRange(after, OutputsKey(StoreName)) == LRange(db, OutputsKey(StoreName)) + [uuid]
    ensures forall k :: k != InputsKey(StoreName) && k != OutputsKey(StoreName) ==>
              LRange(after, k) == LRange(db, k)
    ensures after.counters == db.counters
    ensures Get(after, uuid) == Some(data)
    ensures forall k :: k != uuid ==> Get(after, k) == Get(db, k)
  {
    LogKeysDistinct(StoreName, StoreName);
    var logged := RPush(db, InputsKey(StoreName), ArgsRepr(data));
    RPush(Set(logged, uuid, data), OutputsKey(StoreName), uuid)
  }

  /** The effective `Cache.store`: the last of its three definitions wins,
      so it is the body wrapped by `call_history` alone. Its arguments are
      logged as `str((data,))` and its result, a str, as itself. It issues
      exactly the commands of StoreStep and returns the key. */
  function StoreCall(db: Db, data: string, uuid: string): (c: Call<string>)
    ensures c == Returned(StoreStep(db, data, uuid), uuid)
  {
    CallHistory(StoreName, (d, a) => StoreBody(uuid, d, a), ArgsRepr, (s: string) => s, db, data)
  }

  /** The second definition of `store`, wrapped by `count_calls`; the third
      definition rebinds the name, so the class never calls this one. The
      counter `Cache.store` goes up by exactly one, the key is returned and
      holds data, and no list changes. */
  function CountedStoreCall(db: Db, data: string, uuid: string): (c: Call<string>)
    ensures c.Returned? && c.result == uuid
    ensures Get(c.db, uuid) == Some(data)
    ensures forall k :: k != uuid ==> Get(c.db, k) == Get(db, k)
    ensures Count(c.db, StoreName) == Count(db, StoreName) + 1
    ensures forall k :: k != StoreName ==> Count(c.db, k) == Count(db, k)
    ensures c.db.lists == db.lists
  {
    CountCalls(StoreName, (d, a) => StoreBody(uuid, d, a), db, data)
  }

  /** `str((data,))` for each call's argument, in call order. */
  function ArgsReprs(datas: seq<string>): seq<string>
  {
    if datas == [] then [] else [ArgsRepr(datas[0])] + ArgsReprs(datas[1..])
  }

  /** The i-th entry logged for a sequence of calls is the i-th call's `str(args)`. */
  lemma {:induction false} ArgsReprsAt(datas: seq<string>)
    ensures |ArgsReprs(datas)| == |datas|
    ensures forall i :: 0 <= i < |datas| ==> ArgsReprs(datas)[i] == ArgsRepr(datas[i])
  {
    if datas != [] {
      ArgsReprsAt(datas[1..]);
      forall i | 0 < i < |datas|
        ensures ArgsReprs(datas)[i] == ArgsRepr(datas[i])
      {
        assert ArgsReprs(datas)[i] == ArgsReprs(datas[1..])[i - 1];
        assert datas[1..][i - 1] == datas[i];
      }
    }
  }

  /** The store state after calling the effective `store` once per element
      of datas, in order, the i-th call drawing the key uuids[i]. */
  function StoreEach(db: Db, datas: seq<string>, uuids: seq<string>): Db
    requires |datas| == |uuids|
    decreases |datas|
  {
    if datas == [] then db
    else StoreEach(StoreStep(db, datas[0], uuids[0]), datas[1..], uuids[1..])
  }

  /** After N calls of `store` the inputs log has grown by N entries, the
      i-th new one being the i-th call's `str(args)`, in call order. */
  lemma {:induction false} StoreEachInputs(db: Db, datas: seq<string>, uuids: seq<string>)
    requires |datas| == |uuids|
    ensures LRange(StoreEach(db, datas, uuids), InputsKey(StoreName))
            == LRange(db, InputsKey(StoreName)) + ArgsReprs(datas)
    decreases |datas|
  {
    if datas != [] {
      var ins := InputsKey(StoreName);
      var next := StoreStep(db, datas[0], uuids[0]);
      assert StoreEach(db, datas, uuids) == StoreEach(next, datas[1..], uuids[1..]);
      StoreEachInputs(next, datas[1..], uuids[1..]);
      assert LRange(next, ins) == LRange(db, ins) + [ArgsRepr(datas[0])];
      assert (LRange(db, ins) + [ArgsRepr(datas[0])]) + ArgsReprs(datas[1..])
          == LRange(db, ins) + ([ArgsRepr(datas[0])] + ArgsReprs(datas[1..]));
    }
  }

  /** After N calls of `store` the outputs log has grown by N entries, the
      i-th new one being the key the i-th call returned, in call order. */
  lemma {:induction false} StoreEachOutputs(db: Db, datas: seq<string>, uuids: seq<string>)
    requires |datas| == |uuids|
    ensures LRange(StoreEach(db, datas, uuids), OutputsKey(StoreName))
            == LRange(db, OutputsKey(StoreName)) + uuids
    decreases |datas|
  {
    if datas != [] {
      var outs := OutputsKey(StoreName);
      var next := StoreStep(db, datas[0], uuids[0]);
      assert StoreEach(db, datas, uuids) == StoreEach(next, datas[1..], uuids[1..]);
      StoreEachOutputs(next, datas[1..], uuids[1..]);
      assert LRange(next, outs) == LRange(db, outs) + [uuids[0]];
      assert (LRange(db, outs) + [uuids[0]]) + uuids[1..] == LRange(db, outs) + ([uuids[0]] + uuids[1..]);
      assert [uuids[0]] + uuids[1..] == uuids;
    }
  }

  /** N calls of `store` touch no list but the two logs of `Cache.store`,
      and no counter. */
  lemma {:induction false} StoreEachKeepsRest(db: Db, datas: seq<string>, uuids: seq<string>)
    requires |datas| == |uuids|
    ensures var after := StoreEach(db, datas, uuids);
            && (forall k :: k != InputsKey(StoreName) && k != OutputsKey(StoreName) ==>
                  LRange(after, k) == LRange(db, k))
            && after.counters == db.counters
    decreases |datas|
  {
    if datas != [] {
      var next := StoreStep(db, datas[0], uuids[0]);
      assert StoreEach(db, datas, uuids) == StoreEach(next, datas[1..], uuids[1..]);
      StoreEachKeepsRest(next, datas[1..], uuids[1..]);
    }
  }

  /** Pairwise distinct keys keep what was stored under
      them through all later calls: afterwards key uuids[i] reads datas[i]. */
  lemma {:induction false} StoreEachValues(db: Db, datas: seq<string>, uuids: seq<string>)
    requires |datas| == |uuids|
    requires forall i, j :: 0 <= i < j < |uuids| ==> uuids[i] != uuids[j]
    ensures forall i :: 0 <= i < |uuids| ==> Get(StoreEach(db, datas, uuids), uuids[i]) == Some(datas[i])
    decreases |datas|
  {
    if datas != [] {
      var next := StoreStep(db, datas[0], uuids[0]);
      var rest := uuids[1..];
      var after := StoreEach(next, datas[1..], rest);
      assert StoreEach(db, datas, uuids) == after;
      assert forall i :: 0 <= i < |rest| ==> rest[i] == uuids[i + 1];
      StoreEachValues(next, datas[1..], rest);
      StoreEachKeepsOtherValues(next, datas[1..], rest);
      assert uuids[0] !in rest;
    }
  }

  /** A key no call draws reads after N calls of `store` as it did before. */
  lemma {:induction false} StoreEachKeepsOtherValues(db: Db, datas: seq<string>, uuids: seq<string>)
    requires |datas| == |uuids|
    ensures forall k :: k !in uuids ==> Get(StoreEach(db, datas, uuids), k) == Get(db, k)
    decreases |datas|
  {
    if datas != [] {
      var next := StoreStep(db, datas[0], uuids[0]);
      assert StoreEach(db, datas, uuids) == StoreEach(next, datas[1..], uuids[1..]);
      StoreEachKeepsOtherValues(next, datas[1..], uuids[1..]);
      assert forall k :: k in uuids[1..] ==> k in uuids;
    }
  }

  /** `get_int` after storing the text of an integer gives that integer back. */
  lemma GetIntOfStoredInt(c: Cache, key: string, n: int)
    requires Get(c.redis, key) == Some(IntStr(n))
    ensures c.GetInt(key) == Ok(PyInt(n))
  {
    ParseIntStr(n);
  }

  class Cache {
    /** The Redis server behind `self._redis`. */
    var redis: Db

    /** `__init__`: open the connection and FLUSHDB, leaving no value, counter or list. */
    constructor()
      ensures redis.values == map[] && redis.counters == map[] && redis.lists == map[]
    {
      redis := Empty;
    }

    /** The undecorated `store`: SET data under the fresh key uuid and return it. */
    method PlainStore(data: string, uuid: string) returns (key: string)
      requires Redis.Get(redis, uuid) == None
      modifies this
      ensures Returned(redis, key) == StoreBody(uuid, old(redis), data)
      ensures key == uuid && Redis.Get(old(redis), key) == None
      ensures Redis.Get(redis, key) == Some(data)
      ensures forall k :: k != key ==> Redis.Get(redis, k) == Redis.Get(old(redis), k)
      ensures redis.counters == old(redis.counters) && redis.lists == old(redis.lists)
    {
      key := uuid;
      redis := Set(redis, key, data);
    }

    /** `store` under `count_calls`: INCR `Cache.store`, then the plain store. */
    method CountedStore(data: string, uuid: string) returns (key: string)
      requires Redis.Get(redis, uuid) == None
      modifies this
      ensures Returned(redis, key) == CountedStoreCall(old(redis), data, uuid)
      ensures key == uuid && Redis.Get(old(redis), key) == None
      ensures Count(redis, StoreName) == Count(old(redis), StoreName) + 1
    {
      redis := Incr(redis, StoreName);
      key := PlainStore(data, uuid);
    }

    /** The effective `store`, under `call_history`: RPUSH `str((data,))`
        onto `Cache.store:inputs`, run the plain store, RPUSH the key onto
        `Cache.store:outputs` and return it. The key was absent before and
        now reads back as data. */
    method Store(data: string, uuid: string) returns (key: string)
      requires Redis.Get(redis, uuid) == None
      modifies this
      ensures Returned(redis, key) == StoreCall(old(redis), data, uuid)
      ensures key == uuid && Redis.Get(old(redis), key) == None
      ensures Get(key, None) == Ok(PyBytes(data)) && GetStr(key) == Ok(PyStr(data))
      ensures LRange(redis, InputsKey(StoreName)) == LRange(old(redis), InputsKey(StoreName)) + [ArgsRepr(data)]
      ensures LRange(redis, OutputsKey(StoreName)) == LRange(old(redis), OutputsKey(StoreName)) + [key]
      ensures redis.counters == old(redis.counters)
    {
      redis := RPush(redis, InputsKey(StoreName), ArgsRepr(data));
      key := PlainStore(data, uuid);
      redis := RPush(redis, OutputsKey(StoreName), key);
      LogKeysDistinct(StoreName, StoreName);
    }

    /** What the client's GET hands back: bytes, or None for an absent key. */
    function Fetch(key: string): (v: PyValue)
      reads this
      ensures key in redis.values ==> v == PyBytes(redis.values[key])
      ensures key !in redis.values ==> v == PyNone
    {
      match Redis.Get(redis, key)
      case Some(s) => PyBytes(s)
      case None => PyNone
    }

    /** `get(key, fn)`: the raw reply when no converter is given, and the
        converter applied to the raw reply (None included) otherwise. A
        converter's exception propagates. Nothing is written. */
    function Get(key: string, fn: Option<PyValue -> Result<PyValue>>): (r: Result<PyValue>)
      reads this
      ensures fn.None? && key in redis.values ==> r == Ok(PyBytes(redis.values[key]))
      ensures fn.None? && key !in redis.values ==> r == Ok(PyNone)
      ensures fn.Some? ==> r == fn.value(if key in redis.values then PyBytes(redis.values[key]) else PyNone)
    {
      match fn
      case Some(convert) => convert(Fetch(key))
      case None => Ok(Fetch(key))
    }

    /** `get_str(key)`: the stored text, or AttributeError for an absent
        key, since None has no `decode`. */
    function GetStr(key: string): (r: Result<PyValue>)
      reads this
      ensures key in redis.values ==> r == Ok(PyStr(redis.values[key]))
      ensures key !in redis.values ==> r == Raise(AttributeError)
    {
      Get(key, Some(Decode))
    }

    /** `get_int(key)`: the stored integer; TypeError for an absent key and
        ValueError for stored text that is not an integer literal. */
    function GetInt(key: string): (r: Result<PyValue>)
      reads this
      ensures key !in redis.values ==> r == Raise(TypeError)
      ensures key in redis.values ==>
                (r.Ok? <==> IsIntLiteral(redis.values[key])) &&
                (r.Ok? ==> r == Ok(PyInt(ParseInt(redis.values[key]).value))) &&
                (r.Raise? ==> r.error == ValueError)
    {
      Get(key, Some(Int))
    }
  }
}
