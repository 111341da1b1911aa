/** `replay(method)`: the call trace of a method read back from its
    `call_history` logs. The lines it prints are returned instead, and the
    store it reads is passed in together with the method's identity. */
module ReplayReport {
  import opened Redis
  import opened Python
  import opened Instrument
  import opened CacheModel

  function Min(a: nat, b: nat): nat
  {
    if a <= b then a else b
  }

  /** The first line: how many calls the inputs log records. It starts
      with the method's name and ends in " times:", and the decimal digits
      between " was called " and " times:" read back as calls. */
  function Header(qualname: string, calls: nat): (line: string)
    ensures |line| >= |qualname| + 19 && line[..|qualname|] == qualname
    ensures line[|qualname|..|qualname| + 12] == " was called "
    ensures line[|qualname| + 12..|line| - 7] == NatStr(calls)
    ensures line[|line| - 7..] == " times:"
    ensures var digits := line[|qualname| + 12..|line| - 7];
            AllDigits(digits) && DigitsValue(digits) == calls
  {
    DigitsValueNatStr(calls);
    var line := qualname + " was called " + NatStr(calls) + " times:";
    assert line[|qualname| + 12..|line| - 7] == NatStr(calls);
    line
  }

  /** One call's line: the method's name and "(*", then its logged
      arguments, then ") -> " and its logged result, so both log entries
      can be read back from fixed positions of the line. */
  function CallLine(qualname: string, input: string, output: string): (line: string)
    ensures |line| == |qualname| + |input| + |output| + 7
    ensures line[..|qualname| + 2] == qualname + "(*"
    ensures line[|qualname| + 2..|qualname| + 2 + |input|] == input
    ensures line[|qualname| + 2 + |input|..|line| - |output|] == ") -> "
    ensures line[|line| - |output|..] == output
  {
    qualname + "(*" + input + ") -> " + output
  }

  /** The lines of the loop over `zip(inputs, outputs)`: one per pair, in
      log order, stopping at the end of the shorter log. */
  function PairLines(qualname: string, inputs: seq<string>, outputs: seq<string>): (lines: seq<string>)
    ensures |lines| == Min(|inputs|, |outputs|)
    ensures forall i :: 0 <= i < |lines| ==> lines[i] == CallLine(qualname, inputs[i], outputs[i])
    decreases |inputs|
  {
    if inputs == [] || outputs == [] then []
    else [CallLine(qualname, inputs[0], outputs[0])] + PairLines(qualname, inputs[1..], outputs[1..])
  }

  /** Everything `replay` prints for the method named qualname: a header
      whose count is the length of the inputs log (not the call counter),
      then one line per input/output pair, as many as the shorter log
      holds. Being a function of the state, it writes nothing. */
  function Replay(db: Db, qualname: string): (lines: seq<string>)
    ensures var inputs, outputs := LRange(db, InputsKey(qualname)), LRange(db, OutputsKey(qualname));
            && |lines| == 1 + Min(|inputs|, |outputs|)
            && lines[0] == Header(qualname, |inputs|)
            && forall i :: 0 <= i < |lines| - 1 ==> lines[i + 1] == CallLine(qualname, inputs[i], outputs[i])
  {
    var inputs := LRange(db, InputsKey(qualname));
    var outputs := LRange(db, OutputsKey(qualname));
    [Header(qualname, |inputs|)] + PairLines(qualname, inputs, outputs)
  }

  /** Replaying `Cache.store` after N stores on a fresh cache reports N
      calls and pairs the i-th call's `str(args)` with its key, in order. */
  lemma ReplayAfterStores(datas: seq<string>, uuids: seq<string>)
    requires |datas| == |uuids|
    ensures var lines := Replay(StoreEach(Empty, datas, uuids), StoreName);
            && |lines| == |datas| + 1
            && lines[0] == Header(StoreName, |datas|)
            && forall i :: 0 <= i < |datas| ==> lines[i + 1] == CallLine(StoreName, ArgsRepr(datas[i]), uuids[i])
  {
    StoreEachInputs(Empty, datas, uuids);
    StoreEachOutputs(Empty, datas, uuids);
    ArgsReprsAt(datas);
  }

  /** After a call that raised under `call_history`, starting from logs in
      step, the header counts the failed call but no line is added for it:
      the call lines are exactly those of before. */
  lemma {:induction false} ReplayAfterFailure<A(!new), R>(q: string, wrapped: (Db, A) -> Call<R>,
                                          showArgs: A -> string, showOutput: R -> string,
                                          db: Db, args: A)
    requires KeepsList(wrapped, InputsKey(q)) && KeepsList(wrapped, OutputsKey(q))
    requires |LRange(db, InputsKey(q))| == |LRange(db, OutputsKey(q))|
    requires CallHistory(q, wrapped, showArgs, showOutput, db, args).Raised?
    ensures var before, after := Replay(db, q), Replay(CallHistory(q, wrapped, showArgs, showOutput, db, args).db, q);
            && after[0] == Header(q, |LRange(db, InputsKey(q))| + 1)
            && after[1..] == before[1..]
  {
    CallHistoryRecords(q, wrapped, showArgs, showOutput, db, args);
    var before, after := Replay(db, q), Replay(CallHistory(q, wrapped, showArgs, showOutput, db, args).db, q);
    assert |after| == |before|;
    forall i | 1 <= i < |after|
      ensures after[i] == before[i]
    {
      assert after[(i - 1) + 1] == before[(i - 1) + 1];
    }
  }

  /** Calls through `count_calls` change only a counter, so they leave
      the replay of `Cache.store` exactly as it was. */
  lemma ReplayIgnoresCountedStore(db: Db, data: string, uuid: string)
    ensures Replay(CountedStoreCall(db, data, uuid).db, StoreName) == Replay(db, StoreName)
  {
  }

  /** The `__qualname__` that `replay(cache.store)` reads: the wrapper
      `call_history` returns is not given `functools.wraps`, so the bound
      method reports the wrapper's own qualified name. */
  const WrapperName: string := "Cache.call_history.<locals>.wrapper"

  /** `replay(cache.store)` as written: it looks up the logs under the
      wrapper's name, where nothing is ever pushed, so after any number of
      stores on a fresh cache it reports 0 calls and no call line. */
  lemma ReplayOfWrappedStore(datas: seq<string>, uuids: seq<string>)
    requires |datas| == |uuids|
    ensures Replay(StoreEach(Empty, datas, uuids), WrapperName) == [Header(WrapperName, 0)]
  {
    StoreEachKeepsRest(Empty, datas, uuids);
    LogKeysDistinct(WrapperName, StoreName);
    LogKeysDistinct(StoreName, WrapperName);
    assert |InputsKey(WrapperName)| != |InputsKey(StoreName)|;
    assert |OutputsKey(WrapperName)| != |OutputsKey(StoreName)|;
  }

  /** The smallest input that shows it: one `store("a")`, after which the
      logs under `Cache.store` hold the call but the replay reports none. */
  lemma ReplayOfWrappedStoreMissesCall(uuid: string)
    ensures LRange(StoreEach(Empty, ["a"], [uuid]), InputsKey(StoreName)) == [ArgsRepr("a")]
    ensures Replay(StoreEach(Empty, ["a"], [uuid]), WrapperName)[0] == Header(WrapperName, 0)
  {
    StoreEachInputs(Empty, ["a"], [uuid]);
    ReplayOfWrappedStore(["a"], [uuid]);
  }
}
