/** `await asyncio.gather(*[run(item) for item in items])`: one coroutine per item. Gather returns the
    results in argument order, whatever order the coroutines finish in, so the fan-out is a
    sequential map. If some coroutine raises, gather raises and no result list is produced; this
    model reports the first failing item in input order. */
module Gather {
  import opened Python

  function GatherAll<T>(items: seq<T>, run: (nat, T) -> Result<Json>): (r: Result<seq<Json>>)
    ensures r.Ok? <==> forall i :: 0 <= i < |items| ==> run(i, items[i]).Ok?
    ensures r.Ok? ==> (|r.value| == |items| &&
      forall i :: 0 <= i < |items| ==> r.value[i] == run(i, items[i]).value)
    ensures r.Err? ==> (exists i :: (0 <= i < |items| && run(i, items[i]) == Err(r.error) &&
                                     forall j :: 0 <= j < i ==> run(j, items[j]).Ok?))
  {
    if items == [] then Ok([])
    else
      var n := |items| - 1;
      var init := items[..n];
      assert forall i :: 0 <= i < n ==> init[i] == items[i];
      match GatherAll(init, run)
      case Err(e) => Err(e)
      case Ok(done) =>
        match run(n, items[n])
        case Err(e) => Err(e)
        case Ok(x) => Ok(done + [x])
  }

  /** Gathering one more item extends the results of the items before it. */
  lemma {:induction false} GatherStep<T>(items: seq<T>, run: (nat, T) -> Result<Json>, i: nat)
    requires i < |items|
    ensures GatherAll(items[..i + 1], run) ==
      match GatherAll(items[..i], run)
      case Err(e) => Err(e)
      case Ok(done) => (match run(i, items[i]) case Err(e) => Err(e) case Ok(x) => Ok(done + [x]))
  {
    assert items[..i + 1][..i] == items[..i];
    assert items[..i + 1][i] == items[i];
  }

  /** Failure is decided by the first failing item: its exception is the one gather raises. */
  lemma {:induction false} FirstFailure<T>(items: seq<T>, run: (nat, T) -> Result<Json>, i: nat)
    requires i < |items| && run(i, items[i]).Err?
    requires forall j :: 0 <= j < i ==> run(j, items[j]).Ok?
    ensures GatherAll(items, run) == Err(run(i, items[i]).error)
  {
    var r := GatherAll(items, run);
    assert r.Err?;
    var k :| 0 <= k < |items| && run(k, items[k]) == Err(r.error) &&
      (forall j :: 0 <= j < k ==> run(j, items[j]).Ok?);
    assert k == i;
  }

  /** When every item yields the same failure or a value, a failing batch raises that failure. */
  lemma {:induction false} UniformFailure<T>(items: seq<T>, run: (nat, T) -> Result<Json>, e: PyError)
    requires forall i :: 0 <= i < |items| ==> run(i, items[i]).Ok? || run(i, items[i]) == Err(e)
    ensures GatherAll(items, run).Err? ==> GatherAll(items, run) == Err(e)
  {
    var r := GatherAll(items, run);
    if r.Err? {
      var k :| 0 <= k < |items| && run(k, items[k]) == Err(r.error);
    }
  }
}
