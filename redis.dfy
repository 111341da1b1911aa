/** The Redis server the cache talks to, as an in-memory value.
    Only the commands the cache issues are modelled: SET and GET on string
    values, INCR on counters, RPUSH and LRANGE on lists, and FLUSHDB. */
module Redis {

  datatype Option<+T> = None | Some(value: T)

  /** The server's keyspace, split by the kind of value a key holds:
      plain strings, integer counters and lists of strings. */
  datatype Db = Db(values: map<string, string>,
                   counters: map<string, int>,
                   lists: map<string, seq<string>>)

  /** The state after FLUSHDB: no key of any kind. */
  const Empty: Db := Db(map[], map[], map[])

  /** GET key: the stored string, or nil when the key is absent. */
  function Get(db: Db, key: string): (r: Option<string>)
    ensures r.Some? <==> key in db.values
    ensures r.Some? ==> r.value == db.values[key]
  {
    if key in db.values then Some(db.values[key]) else None
  }

  /** SET key value: afterwards GET key yields value, and every other key reads as before. */
  function Set(db: Db, key: string, value: string): (r: Db)
    ensures Get(r, key) == Some(value)
    ensures forall k :: k != key ==> Get(r, k) == Get(db, k)
    ensures r.counters == db.counters && r.lists == db.lists
  {
    db.(values := db.values[key := value])
  }

  /** The integer at a counter key, reading an absent key as 0. */
  function Count(db: Db, key: string): int
  {
    if key in db.counters then db.counters[key] else 0
  }

  /** INCR key: the counter goes up by exactly one (from 0 when absent); nothing else changes. */
  function Incr(db: Db, key: string): (r: Db)
    ensures Count(r, key) == Count(db, key) + 1
    ensures forall k :: k != key ==> Count(r, k) == Count(db, k)
    ensures r.values == db.values && r.lists == db.lists
  {
    db.(counters := db.counters[key := Count(db, key) + 1])
  }

  /** LRANGE key 0 -1: the whole list, or the empty list when the key is absent. */
  function LRange(db: Db, key: string): (r: seq<string>)
    ensures key in db.lists ==> r == db.lists[key]
    ensures key !in db.lists ==> r == []
  {
    if key in db.lists then db.lists[key] else []
  }

  /** RPUSH key item: the list gains item at its end; no other list, value or counter changes. */
  function RPush(db: Db, key: string, item: string): (r: Db)
    ensures LRange(r, key) == LRange(db, key) + [item]
    ensures forall k :: k != key ==> LRange(r, k) == LRange(db, k)
    ensures r.values == db.values && r.counters == db.counters
  {
    db.(lists := db.lists[key := LRange(db, key) + [item]])
  }

  /** A counter increment and a list append touch different parts of the
      keyspace, so the order in which they are issued does not matter. */
  lemma IncrRPushCommute(db: Db, counter: string, list: string, item: string)
    ensures Incr(RPush(db, list, item), counter) == RPush(Incr(db, counter), list, item)
  {
  }
}
