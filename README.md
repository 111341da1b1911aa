# Cache facade over Redis with call instrumentation

This project models `Cache` from `0x02-redis_basic/exercise.py`. `Cache` is a
key-value facade over a Redis connection:

- `store` writes data under a fresh UUID key and returns the key.
- `get` reads a value back, optionally through a converter. `get_str` and `get_int` fix the converter.
- `count_calls` is a decorator that counts a method's calls under its qualified name.
- `call_history` is a decorator that logs each call's arguments and result to two Redis lists.
- `replay` prints a method's call trace from those lists.

The Redis server is an in-memory value, `Redis.Db`. It has three maps: string
values (SET/GET), integer counters (INCR) and lists (RPUSH/LRANGE). The
`Cache` object holds it in a field that its methods reassign.

Modules:

- `Redis` (`redis.dfy`): the server state and the six commands `Cache` and `replay` issue (FLUSHDB, SET, GET, INCR, RPUSH and LRANGE), each specified by what it changes and what it leaves alone.
- `Python` (`python.dfy`): the Python values that pass through `get` (None, bytes, str, int) and the exceptions conversions raise. It also holds `str()` of an integer, `str()` of the one-element argument tuple, `int()`, and `bytes.decode`.
- `Instrument` (`instrument.dfy`): `count_calls` and `call_history` as higher-order functions. A wrapped method is a function from the store state and the arguments to a `Call`: the new state, plus either the returned value or the raised exception. The method's identity (`__qualname__`) is an explicit string.
- `CacheModel` (`cache.dfy`): the `Cache` class, with the effective `store` (under `call_history`), the overridden `count_calls` version and the plain body as methods. `get`, `get_str` and `get_int` are read-only functions. The same calls are also given as functions of the state (`StoreCall`, `StoreEach`), and lemmas about them cover any number of calls.
- `ReplayReport` (`replay.dfy`): `replay` as a function that returns the printed lines.

Python keeps the last of the three `store` definitions in the class body
(lines 18, 46 and 70). So the effective `Cache.store` is the plain body wrapped
by `call_history` only. The `count_calls` version is modelled as
`Cache.CountedStore`, but the effective store never touches a counter.

Two consequences of the code matter for the contracts below:

- `count_calls` increments the counter before it delegates (lines 41-43), so a call that raises is still counted.
- The effective `store` is wrapped by `call_history` alone, so no counter is kept for it.

## Model

| member | source | states |
|---|---|---|
| Redis.Get | 0x02-redis_basic/exercise.py:26 | GET yields a value exactly when the key holds one, and then the value stored under it |
| Redis.Set | 0x02-redis_basic/exercise.py:21 | after SET, GET of the key yields the value, every other key reads as before, and no counter or list changes |
| Redis.Incr | 0x02-redis_basic/exercise.py:42 | INCR raises the counter by exactly one (an absent counter reads as 0) and leaves every other counter, every value and every list alone |
| Redis.RPush | 0x02-redis_basic/exercise.py:61-65 | RPUSH appends exactly one item at the end of that list and changes no other list, value or counter |
| Redis.LRange | 0x02-redis_basic/exercise.py:83-84 | LRANGE 0 -1 yields the whole list at the key, and the empty list for an absent key |
| Python.ParseInt | 0x02-redis_basic/exercise.py:35 | `int()` on text succeeds exactly on an optional sign followed by digits, and otherwise raises ValueError |
| Python.ParseIntStr | 0x02-redis_basic/exercise.py:35 | `int(str(n)) == n` for every integer n |
| Python.NatStr | 0x02-redis_basic/exercise.py:86 | `str()` of a count is a non-empty string of decimal digits |
| Python.IntStr | 0x02-redis_basic/exercise.py:35 | `str(n)` is a literal `int()` accepts: digits only for n >= 0, a leading minus sign for n < 0 |
| Python.StrRepr | 0x02-redis_basic/exercise.py:61 | `repr` of a str is the text with a single quote added on each side |
| Python.ArgsRepr | 0x02-redis_basic/exercise.py:61 | `str((data,))` is five characters longer than data and holds data at a fixed position |
| Python.ArgsReprInjective | 0x02-redis_basic/exercise.py:61 | for positional one-argument calls, the logged `str((data,))` determines data: different arguments give different log entries |
| Python.Decode | 0x02-redis_basic/exercise.py:31 | the `get_str` converter turns bytes into the same text, and raises AttributeError on None |
| Python.Int | 0x02-redis_basic/exercise.py:35 | the `int` converter raises TypeError on None, gives the number an integer literal denotes for bytes or str holding one and ValueError for any other text, and keeps an int as it is |
| Instrument.LogKeysDistinct | 0x02-redis_basic/exercise.py:57-58 | an `:inputs` key never equals an `:outputs` key, whatever the method names |
| Instrument.CountCalls | 0x02-redis_basic/exercise.py:38-44 | the wrapper runs the method once, on the state where INCR of the method's name is already made, and hands on its return or exception unchanged |
| Instrument.CallHistory | 0x02-redis_basic/exercise.py:53-68 | the wrapper runs the method on the state with `str(args)` pushed onto the inputs log; an exception propagates with nothing more written, and a returned output is pushed as `str(output)` onto the outputs log and returned unchanged |
| Instrument.CallHistoryRecords | 0x02-redis_basic/exercise.py:56-67 | one wrapped call appends exactly `str(args)` to the inputs log before the method runs, and passes the method's result or exception through unchanged; on return it appends exactly `str(output)` to the outputs log, and every value, counter and other list is what the method left; on an exception that log is unchanged and the state is what the method left |
| Instrument.CallHistoryInStep | 0x02-redis_basic/exercise.py:61-65 | across a call that returns, the gap between the inputs and outputs log lengths is unchanged; across a call that raises, it grows by one |
| Instrument.CountCallsCounts | 0x02-redis_basic/exercise.py:40-43 | one wrapped call raises the method's counter by exactly one, whether the method returns or raises, and the method runs on the state with the increment made |
| Instrument.WrapOrderIrrelevant | 0x02-redis_basic/exercise.py:38-67 | `count_calls` outside or inside `call_history` under the same identity gives the same outcome, counter and logs |
| CacheModel.StoreBody | 0x02-redis_basic/exercise.py:18-22 | the body of `store` always returns its key; GET of the key then yields data, every other key reads as before, and no counter or list changes |
| CacheModel.StoreCall | 0x02-redis_basic/exercise.py:56-75 | the effective `store` issues exactly RPUSH of `str((data,))` to the inputs log, SET of the key, and RPUSH of the key to the outputs log, in that order, and returns the key |
| CacheModel.StoreStep | 0x02-redis_basic/exercise.py:61-75 | one call of the effective `store` appends exactly `str((data,))` to the inputs log and the key to the outputs log, changes no other list and no counter (the counted definition is overridden), and leaves the key reading data and every other key reading as before |
| CacheModel.CountedStoreCall | 0x02-redis_basic/exercise.py:37-51 | the overridden counted `store` raises the `Cache.store` counter by one, stores data under the key and changes no list |
| CacheModel.ArgsReprsAt | 0x02-redis_basic/exercise.py:61 | the inputs-log entries for a sequence of calls are the calls' `str(args)`, one per call, in order |
| CacheModel.StoreEachInputs | 0x02-redis_basic/exercise.py:61 | after N stores the inputs log has grown by exactly the N calls' `str(args)`, in call order |
| CacheModel.StoreEachOutputs | 0x02-redis_basic/exercise.py:64-65 | after N stores the outputs log has grown by exactly the N returned keys, in call order |
| CacheModel.StoreEachKeepsRest | 0x02-redis_basic/exercise.py:70-75 | N stores change no list other than the two `Cache.store` logs, and no counter |
| CacheModel.StoreEachValues | 0x02-redis_basic/exercise.py:20-22 | with pairwise distinct keys, every key drawn still reads the data stored under it after all later stores |
| CacheModel.StoreEachKeepsOtherValues | 0x02-redis_basic/exercise.py:21 | a key that no store draws reads the same after N stores as before |
| CacheModel.GetIntOfStoredInt | 0x02-redis_basic/exercise.py:33-35 | `get_int` on a key holding `str(n)` returns n |
| CacheModel.Cache.constructor | 0x02-redis_basic/exercise.py:13-16 | after `__init__`'s FLUSHDB, there are no values, counters or lists |
| CacheModel.Cache.PlainStore | 0x02-redis_basic/exercise.py:18-22 | the undecorated store returns a key that was absent before, the key now holds data, every other key is unchanged, and no counter or list changes |
| CacheModel.Cache.CountedStore | 0x02-redis_basic/exercise.py:46-51 | the `count_calls` store raises the `Cache.store` counter by one, then stores as the plain store does |
| CacheModel.Cache.Store | 0x02-redis_basic/exercise.py:70-75 | the effective store returns a previously absent key, `get` of it yields data (and `get_str` its text), each log gains one entry, and counters are unchanged |
| CacheModel.Cache.Fetch | 0x02-redis_basic/exercise.py:26 | the client's GET reply is the stored text as bytes, or None for an absent key |
| CacheModel.Cache.Get | 0x02-redis_basic/exercise.py:24-27 | `get` gives the raw reply (bytes, or None for an absent key) when there is no converter, gives the converter applied to the raw reply otherwise, and writes nothing |
| CacheModel.Cache.GetStr | 0x02-redis_basic/exercise.py:29-31 | `get_str` returns the stored text, and raises AttributeError for an absent key |
| CacheModel.Cache.GetInt | 0x02-redis_basic/exercise.py:33-35 | `get_int` returns the parsed integer exactly when the stored text is an integer literal, raises ValueError otherwise, and raises TypeError for an absent key |
| ReplayReport.Header | 0x02-redis_basic/exercise.py:86 | the header is the method's name, " was called ", the call count's decimal digits (no leading zeros) and " times:"; the digits read back as the count |
| ReplayReport.CallLine | 0x02-redis_basic/exercise.py:90 | a call line is the name and "(*", then the logged arguments, then ") -> ", then the logged result, each recoverable at a fixed position |
| ReplayReport.PairLines | 0x02-redis_basic/exercise.py:87-90 | the zip loop yields `min(len(inputs), len(outputs))` lines, the i-th pairing the i-th input with the i-th output |
| ReplayReport.Replay | 0x02-redis_basic/exercise.py:78-90 | replay gives a header counting the inputs log (not the counter), then one line per input/output pair up to the shorter log, and writes nothing |
| ReplayReport.ReplayAfterStores | 0x02-redis_basic/exercise.py:83-90 | replaying `Cache.store` after N stores on a fresh cache reports N calls, with the i-th line pairing the i-th `str(args)` with the i-th key |
| ReplayReport.ReplayAfterFailure | 0x02-redis_basic/exercise.py:83-90 | after a call that raised, starting from logs in step, the header counts one more call but the call lines are exactly those of before |
| ReplayReport.ReplayIgnoresCountedStore | 0x02-redis_basic/exercise.py:83-86 | counted calls change only the counter, so the replay is unchanged |
| ReplayReport.ReplayOfWrappedStore | 0x02-redis_basic/exercise.py:80-81 | `replay(cache.store)` as written reads the wrapper's qualified name, so after any number of stores it reports 0 calls and no lines |
| ReplayReport.ReplayOfWrappedStoreMissesCall | 0x02-redis_basic/exercise.py:80-84 | after one `store("a")`, the `Cache.store` inputs log holds the call, but `replay(cache.store)` reports 0 calls |

## Findings

| source | as written | input that shows it | evidently intended | confidence | as-written member | corrected member |
|---|---|---|---|---|---|---|
| 0x02-redis_basic/exercise.py:80-81 | `replay(method)` takes the log keys from `method.__qualname__`. The wrapper that `call_history` returns has no `functools.wraps`, so for `cache.store` the name is `Cache.call_history.<locals>.wrapper`, while the logs are written under `Cache.store` | `cache.store("a")` followed by `replay(cache.store)` | the replay reads the logs of `Cache.store` and reports the call | not executed | ReplayReport.ReplayOfWrappedStoreMissesCall | ReplayReport.ReplayAfterStores |

The as-written half, for any number of stores, is `ReplayReport.ReplayOfWrappedStore`.
In the rest of the model, `replay` takes the method's own identity as an
explicit string. That is what `functools.wraps(method)` on the wrapper would
provide.

## Left out

- The Redis connection, the network and durability are not modelled. The server is an in-memory value, and every command succeeds.
- Redis keeps one keyspace for all value kinds. The model keeps three separate maps, so one name can hold a value, a counter and a list at once. SET on a key of another type replaces it in Redis but leaves the list or counter in the model. GET on a list key and RPUSH on a string key raise WRONGTYPE in Redis; the model has no such error.
- Redis.Incr: Redis keeps a counter as a string value that GET reads, so after the counted `store` `get("Cache.store")` returns b"1". In the model the counter is not a value, and GET of a counter key yields None unless a value was SET there.
- Redis.Incr: INCR fails once the counter would pass the largest signed 64-bit integer. The model's counter is unbounded and never fails.
- `uuid.uuid4()` is not modelled as a random generator. Its string is a `uuid` parameter of the store methods. Their precondition that the key is absent stands for the negligible chance that a UUID collides.
- UTF-8 encoding and `decode("utf-8")` map text to the same characters. Bytes and str differ only by their tag in `PyValue`, so decode errors on invalid bytes are not modelled.
- Python.StrRepr: `repr` of a str is the text between single quotes. Python's choice of double quotes and its escaping of quotes, backslashes and control characters are not modelled.
- Python.ParseInt, Python.Int, CacheModel.Cache.GetInt: `int()` also accepts surrounding whitespace and underscores between digits, and on a str any Unicode decimal digit (`int("٣") == 3`). The model rejects all of these with ValueError. On bytes, the only input `get_int` passes, `int()` accepts ASCII digits only, as the model does.
- Python.ArgsReprInjective: only positional calls are modelled. `call_history` logs `str(args)` without the keyword arguments, so `cache.store(data="a")` logs "()" whatever data is, and CacheModel.Cache.Store and CacheModel.StoreCall always log `str((data,))`.
- `store` is annotated `data: str` and only str data is modelled. The int, float and bytes values that redis-py would also accept are not.
- The `print` calls in `replay` are not modelled. `Replay` returns the lines instead.
- `replay` reads a global `cache` that `exercise.py` never defines. The model passes the store state in explicitly.
- `@functools.wraps(redis.Redis.incr)` on `count_calls` itself changes only the decorator's metadata, so it is not modelled.
- A method's identity is a string given to both decorators. It is not derived from `__qualname__` of a stacked wrapper, except in the finding above.
- Concurrent clients and the interleaving of their commands are not modelled.
- `0x01-NoSQL/8-all.py` and `0x01-NoSQL/9-insert_school.py` are not part of this model. Each is a one-line delegation to the MongoDB driver's `find` or `insert_one`.
