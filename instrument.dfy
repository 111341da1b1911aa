/** The two call-instrumentation decorators of `Cache`, `count_calls` and
    `call_history`, as functions that take the wrapped method and give the
    effect of one call of the wrapper. A method is modelled as a function
    from the store state and the call's arguments to what the call leaves
    behind. The method's identity (`method.__qualname__`) is passed as a
    string. */
module Instrument {
  import opened Redis
  import opened Python

  /** What one call leaves behind: the store state, and either the value
      returned or the exception raised. Writes made before an exception are
      kept, as the Redis commands already issued are not undone. */
  datatype Call<+R> = Returned(db: Db, result: R) | Raised(db: Db, error: Exception)

  /** The list key `call_history` logs a method's arguments under. */
  function InputsKey(qualname: string): string
  {
    qualname + ":inputs"
  }

  /** The list key `call_history` logs a method's results under. */
  function OutputsKey(qualname: string): string
  {
    qualname + ":outputs"
  }

  /** No method's inputs log shares its key with any method's outputs log:
      the two keys end in different suffixes. */
  lemma LogKeysDistinct(q: string, q': string)
    ensures InputsKey(q) != OutputsKey(q')
  {
    var i, o := InputsKey(q), OutputsKey(q');
    if |i| == |o| {
      assert i[|i| - 7] == ':';
      assert o[|o| - 7] == 'o';
    }
  }

  /** `count_calls(method)` called with args: INCR the counter named after
      the method, then delegate to it. */
  function CountCalls<A, R>(qualname: string, wrapped: (Db, A) -> Call<R>, db: Db, args: A): (c: Call<R>)
    ensures c == wrapped(Incr(db, qualname), args)
  {
    wrapped(Incr(db, qualname), args)
  }

  /** `call_history(method)` called with args: RPUSH `str(args)` onto the
      inputs log, run the method, and when it returns RPUSH `str(output)`
      onto the outputs log and return the output. An exception from the
      method propagates and skips the second RPUSH. */
  function CallHistory<A, R>(qualname: string, wrapped: (Db, A) -> Call<R>,
                             showArgs: A -> string, showOutput: R -> string,
                             db: Db, args: A): (c: Call<R>)
    ensures var inner := wrapped(RPush(db, InputsKey(qualname), showArgs(args)), args);
            && (c.Returned? <==> inner.Returned?)
            && (inner.Raised? ==> c == inner)
            && (inner.Returned? ==>
                  c == Returned(RPush(inner.db, OutputsKey(qualname), showOutput(inner.result)), inner.result))
  {
    var logged := RPush(db, InputsKey(qualname), showArgs(args));
    match wrapped(logged, args)
    case Raised(after, e) => Raised(after, e)
    case Returned(after, output) => Returned(RPush(after, OutputsKey(qualname), showOutput(output)), output)
  }

  /** A method that never touches the list at key. */
  ghost predicate KeepsList<A(!new), R>(wrapped: (Db, A) -> Call<R>, key: string)
  {
    forall d, a :: LRange(wrapped(d, a).db, key) == LRange(d, key)
  }

  /** A method that never touches the counter at key. */
  ghost predicate KeepsCounter<A(!new), R>(wrapped: (Db, A) -> Call<R>, key: string)
  {
    forall d, a :: Count(wrapped(d, a).db, key) == Count(d, key)
  }

  /** One call through `call_history`: the inputs log grows by exactly
      `str(args)`, recorded before the method runs; the method's outcome is
      passed through unchanged; on return the outputs log grows by exactly
      `str(output)`, and on an exception it is unchanged, leaving the inputs
      log one entry further ahead. */
  lemma CallHistoryRecords<A(!new), R>(q: string, wrapped: (Db, A) -> Call<R>,
                                 showArgs: A -> string, showOutput: R -> string,
                                 db: Db, args: A)
    requires KeepsList(wrapped, InputsKey(q)) && KeepsList(wrapped, OutputsKey(q))
    ensures var c := CallHistory(q, wrapped, showArgs, showOutput, db, args);
            var inner := wrapped(RPush(db, InputsKey(q), showArgs(args)), args);
            && LRange(c.db, InputsKey(q)) == LRange(db, InputsKey(q)) + [showArgs(args)]
            && (c.Returned? <==> inner.Returned?)
            && (c.Returned? ==>
                  c.result == inner.result &&
                  LRange(c.db, OutputsKey(q)) == LRange(db, OutputsKey(q)) + [showOutput(c.result)] &&
                  c.db.values == inner.db.values && c.db.counters == inner.db.counters &&
                  (forall k :: k != OutputsKey(q) ==> LRange(c.db, k) == LRange(inner.db, k)))
            && (c.Raised? ==>
                  c.error == inner.error && c.db == inner.db &&
                  LRange(c.db, OutputsKey(q)) == LRange(db, OutputsKey(q)))
  {
    LogKeysDistinct(q, q);
  }

  /** The two logs of a method stay the same length across a call that
      returns, and the inputs log gets one entry ahead across a call that
      raises. */
  lemma CallHistoryInStep<A(!new), R>(q: string, wrapped: (Db, A) -> Call<R>,
                                showArgs: A -> string, showOutput: R -> string,
                                db: Db, args: A)
    requires KeepsList(wrapped, InputsKey(q)) && KeepsList(wrapped, OutputsKey(q))
    ensures var c := CallHistory(q, wrapped, showArgs, showOutput, db, args);
            var gap := |LRange(db, InputsKey(q))| - |LRange(db, OutputsKey(q))|;
            |LRange(c.db, InputsKey(q))| - |LRange(c.db, OutputsKey(q))|
              == if c.Returned? then gap else gap + 1
  {
    CallHistoryRecords(q, wrapped, showArgs, showOutput, db, args);
  }

  /** One call through `count_calls`: the method's counter goes up by
      exactly one, whether the method then returns or raises, and the
      method runs on the state with the increment already made. */
  lemma CountCallsCounts<A(!new), R>(q: string, wrapped: (Db, A) -> Call<R>, db: Db, args: A)
    requires KeepsCounter(wrapped, q)
    ensures var c := CountCalls(q, wrapped, db, args);
            && Count(c.db, q) == Count(db, q) + 1
            && c == wrapped(Incr(db, q), args)
  {
  }

  /** Wrapping a method with `count_calls` outside `call_history` or inside
      it gives the same outcome and the same final counter and logs, when
      both decorators are given the same identity. */
  lemma WrapOrderIrrelevant<A, R>(q: string, wrapped: (Db, A) -> Call<R>,
                                  showArgs: A -> string, showOutput: R -> string,
                                  db: Db, args: A)
    ensures CountCalls(q, (d, a) => CallHistory(q, wrapped, showArgs, showOutput, d, a), db, args)
         == CallHistory(q, (d, a) => CountCalls(q, wrapped, d, a), showArgs, showOutput, db, args)
  {
    IncrRPushCommute(db, q, InputsKey(q), showArgs(args));
  }
}
