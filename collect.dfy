/**
 * Python's "build a new list (or dictionary) in a `for` loop, stopping at
 * the first exception" pattern, for any element conversion `f`. Stating it
 * once for any `f` keeps the facts about the loop apart from what the
 * conversion itself does.
 */
module Collect {
  import opened Wrappers
  import opened Dicts

  /** `[f(x) for x in xs]`, or the exception of the first `x` where `f` raises. */
  function MapAll<A, B, E>(f: A -> Result<B, E>, xs: seq<A>): (r: Result<seq<B>, E>)
    ensures r.Ok? ==> |r.value| == |xs|
  {
    if xs == [] then Ok([])
    else
      match MapAll(f, xs[..|xs| - 1])
      case Err(e) => Err(e)
      case Ok(ys) =>
        match f(xs[|xs| - 1])
        case Err(e) => Err(e)
        case Ok(y) => Ok(ys + [y])
  }

  /** The list is built exactly when every element converts, and then element by element. */
  lemma {:induction false} MapAllOk<A, B, E>(f: A -> Result<B, E>, xs: seq<A>)
    ensures MapAll(f, xs).Ok? <==> forall n :: 0 <= n < |xs| ==> f(xs[n]).Ok?
    ensures MapAll(f, xs).Ok? ==> forall n :: 0 <= n < |xs| ==> MapAll(f, xs).value[n] == f(xs[n]).value
  {
    if xs != [] {
      var front := xs[..|xs| - 1];
      MapAllOk(f, front);
      assert forall n :: 0 <= n < |front| ==> front[n] == xs[n];
    }
  }

  /** The exception is the one of the first element that raises. */
  lemma {:induction false} MapAllError<A, B, E>(f: A -> Result<B, E>, xs: seq<A>)
    requires MapAll(f, xs).Err?
    ensures exists n :: 0 <= n < |xs| && f(xs[n]) == Err(MapAll(f, xs).error)
                        && forall m :: 0 <= m < n ==> f(xs[m]).Ok?
  {
    var front := xs[..|xs| - 1];
    if MapAll(f, front).Err? {
      MapAllError(f, front);
      var n :| 0 <= n < |front| && f(front[n]) == Err(MapAll(f, front).error)
               && forall m :: 0 <= m < n ==> f(front[m]).Ok?;
      assert forall m :: 0 <= m <= n ==> front[m] == xs[m];
    } else {
      MapAllOk(f, front);
      assert forall m :: 0 <= m < |front| ==> front[m] == xs[m];
    }
  }

  /** Once a prefix raises, the whole list raises the same exception. */
  lemma {:induction false} MapAllErrorStays<A, B, E>(f: A -> Result<B, E>, xs: seq<A>, j: nat)
    requires j <= |xs| && MapAll(f, xs[..j]).Err?
    ensures MapAll(f, xs) == MapAll(f, xs[..j])
    decreases |xs| - j
  {
    if j < |xs| {
      assert xs[..j + 1][..j] == xs[..j];
      MapAllErrorStays(f, xs, j + 1);
    } else {
      assert xs[..j] == xs;
    }
  }

  /** One more element: the prefix's list and the element's conversion, or the first exception. */
  lemma MapAllSnoc<A, B, E>(f: A -> Result<B, E>, xs: seq<A>, j: nat)
    requires j < |xs|
    ensures MapAll(f, xs[..j + 1])
         == match MapAll(f, xs[..j])
            case Err(e) => Err(e)
            case Ok(ys) => (match f(xs[j]) case Err(e) => Err(e) case Ok(y) => Ok(ys + [y]))
  {
    assert xs[..j + 1][..j] == xs[..j];
  }

  /**
   * Converting two lists one after the other is converting their
   * concatenation: the first exception wins, otherwise the results are
   * joined.
   */
  lemma {:induction false} MapAllAppend<A, B, E>(f: A -> Result<B, E>, xs: seq<A>, ys: seq<A>)
    ensures MapAll(f, xs + ys)
         == match MapAll(f, xs)
            case Err(e) => Err(e)
            case Ok(a) => (match MapAll(f, ys) case Err(e) => Err(e) case Ok(b) => Ok(a + b))
  {
    if ys == [] {
      assert xs + ys == xs;
      if MapAll(f, xs).Ok? {
        assert MapAll(f, xs).value + [] == MapAll(f, xs).value;
      }
    } else {
      var front := ys[..|ys| - 1];
      assert (xs + ys)[..|xs + ys| - 1] == xs + front;
      assert (xs + ys)[|xs + ys| - 1] == ys[|ys| - 1];
      MapAllAppend(f, xs, front);
      if MapAll(f, xs).Ok? && MapAll(f, front).Ok? && f(ys[|ys| - 1]).Ok? {
        assert MapAll(f, xs).value + (MapAll(f, front).value + [f(ys[|ys| - 1]).value])
            == (MapAll(f, xs).value + MapAll(f, front).value) + [f(ys[|ys| - 1]).value];
      }
    }
  }

  /** The keys of `ks` are keys of the dictionary. */
  predicate KeysOf<V>(d: Dict<V>, ks: seq<string>) {
    forall i :: 0 <= i < |ks| ==> ks[i] in d.items
  }

  /**
   * `ret = {}; for key in ks: ret[key] = f(d[key])`: each value converted,
   * or the exception of the first key whose value raises.
   */
  function MapValues<V, W, E>(f: V -> Result<W, E>, d: Dict<V>, ks: seq<string>): (r: Result<Dict<W>, E>)
    requires KeysOf(d, ks)
    ensures r.Ok? ==> KeysOf(r.value, r.value.keys)
  {
    if ks == [] then Ok(Empty())
    else
      match MapValues(f, d, ks[..|ks| - 1])
      case Err(e) => Err(e)
      case Ok(ret) =>
        var key := ks[|ks| - 1];
        match f(d.items[key])
        case Err(e) => Err(e)
        case Ok(w) => Ok(Put(ret, key, w))
  }

  /** One more key: the prefix's dictionary with the key's converted value, or the first exception. */
  lemma MapValuesSnoc<V, W, E>(f: V -> Result<W, E>, d: Dict<V>, ks: seq<string>, j: nat)
    requires KeysOf(d, ks) && j < |ks|
    ensures KeysOf(d, ks[..j])
    ensures MapValues(f, d, ks[..j + 1])
         == match MapValues(f, d, ks[..j])
            case Err(e) => Err(e)
            case Ok(ret) => (match f(d.items[ks[j]]) case Err(e) => Err(e) case Ok(w) => Ok(Put(ret, ks[j], w)))
  {
    assert ks[..j + 1][..j] == ks[..j];
  }

  /** Dropping the last key keeps the keys distinct, and the last key is not among the rest. */
  lemma DistinctFront(ks: seq<string>)
    requires Distinct(ks) && ks != []
    ensures Distinct(ks[..|ks| - 1]) && ks[|ks| - 1] !in ks[..|ks| - 1]
  {
    var front := ks[..|ks| - 1];
    forall i | 0 <= i < |front|
      ensures front[i] != ks[|ks| - 1]
    {
      assert front[i] == ks[i];
    }
  }

  /** Over distinct keys the new dictionary lists exactly those keys, in the same order. */
  lemma {:induction false} MapValuesKeys<V, W, E>(f: V -> Result<W, E>, d: Dict<V>, ks: seq<string>)
    requires KeysOf(d, ks) && Distinct(ks)
    ensures MapValues(f, d, ks).Ok? ==> Valid(MapValues(f, d, ks).value) && MapValues(f, d, ks).value.keys == ks
  {
    if ks != [] {
      DistinctFront(ks);
      MapValuesKeys(f, d, ks[..|ks| - 1]);
    }
  }

  /** The dictionary is built exactly when every value converts, and then holds each converted value. */
  lemma {:induction false} MapValuesOk<V, W, E>(f: V -> Result<W, E>, d: Dict<V>, ks: seq<string>)
    requires KeysOf(d, ks)
    ensures MapValues(f, d, ks).Ok? <==> forall i :: 0 <= i < |ks| ==> f(d.items[ks[i]]).Ok?
    ensures MapValues(f, d, ks).Ok? ==>
      forall k :: k in MapValues(f, d, ks).value.items ==> k in d.items && Ok(MapValues(f, d, ks).value.items[k]) == f(d.items[k])
  {
    if ks != [] {
      var front := ks[..|ks| - 1];
      MapValuesOk(f, d, front);
      assert forall i :: 0 <= i < |front| ==> front[i] == ks[i];
    }
  }

  /** The exception is the one of the first key whose value raises. */
  lemma {:induction false} MapValuesError<V, W, E>(f: V -> Result<W, E>, d: Dict<V>, ks: seq<string>)
    requires KeysOf(d, ks) && MapValues(f, d, ks).Err?
    ensures exists i :: 0 <= i < |ks| && f(d.items[ks[i]]) == Err(MapValues(f, d, ks).error)
                        && forall m :: 0 <= m < i ==> f(d.items[ks[m]]).Ok?
  {
    var front := ks[..|ks| - 1];
    if MapValues(f, d, front).Err? {
      MapValuesError(f, d, front);
      var i :| 0 <= i < |front| && f(d.items[front[i]]) == Err(MapValues(f, d, front).error)
               && forall m :: 0 <= m < i ==> f(d.items[front[m]]).Ok?;
      assert forall m :: 0 <= m <= i ==> front[m] == ks[m];
    } else {
      MapValuesOk(f, d, front);
      assert forall m :: 0 <= m < |front| ==> front[m] == ks[m];
    }
  }

  /** Once the keys up to `j` raise, the whole loop raises the same exception. */
  lemma {:induction false} MapValuesErrorStays<V, W, E>(f: V -> Result<W, E>, d: Dict<V>, ks: seq<string>, j: nat)
    requires KeysOf(d, ks)
    requires j <= |ks| && MapValues(f, d, ks[..j]).Err?
    ensures MapValues(f, d, ks) == MapValues(f, d, ks[..j])
    decreases |ks| - j
  {
    if j < |ks| {
      assert ks[..j + 1][..j] == ks[..j];
      MapValuesErrorStays(f, d, ks, j + 1);
    } else {
      assert ks[..j] == ks;
    }
  }

  /** What a run over a list of inputs leaves behind: the batches handed on, and the count or the exception. */
  datatype Run<T, E> = Run(batches: seq<seq<T>>, outcome: Result<nat, E>)

  /** The number of items in all batches. */
  function Total<T>(batches: seq<seq<T>>): nat {
    if batches == [] then 0 else Total(batches[..|batches| - 1]) + |batches[|batches| - 1]|
  }

  /**
   * The run so far followed by the load of one more input. Batches already
   * handed on are never taken back, at most one is added, the run goes on
   * only while every load succeeds, and the exception is the load's.
   */
  function Next<T, E>(prev: Run<T, E>, load: Result<seq<T>, E>): (r: Run<T, E>)
    ensures prev.batches <= r.batches && |r.batches| <= |prev.batches| + 1
    ensures r.outcome.Ok? <==> prev.outcome.Ok? && load.Ok?
    ensures r.outcome.Err? && prev.outcome.Ok? ==> r.outcome.error == load.error && r.batches == prev.batches
  {
    if prev.outcome.Err? then prev
    else
      match load
      case Err(e) => Run(prev.batches, Err(e))
      case Ok(batch) => Run(prev.batches + [batch], Ok(prev.outcome.value + |batch|))
  }

  /** A count that matches the batches handed on still matches them after one more input. */
  lemma NextKeepsCount<T, E>(prev: Run<T, E>, load: Result<seq<T>, E>)
    requires prev.outcome.Ok? && prev.outcome.value == Total(prev.batches)
    ensures Next(prev, load).outcome.Ok? ==> Next(prev, load).outcome.value == Total(Next(prev, load).batches)
  {
    if load.Ok? {
      TotalSnoc(prev.batches, load.value);
    }
  }

  /** Adding one batch adds its size to the total. */
  lemma TotalSnoc<T>(batches: seq<seq<T>>, batch: seq<T>)
    ensures Total(batches + [batch]) == Total(batches) + |batch|
  {
    assert (batches + [batch])[..|batches|] == batches;
  }

  /**
   * `count = 0; for x in xs: batch = load(x); hand on batch; count += len(batch)`:
   * one batch per input in order, the first exception ends the run and the
   * batches before it have been handed on.
   */
  function Batches<A, T, E>(load: A --> Result<seq<T>, E>, xs: seq<A>): (r: Run<T, E>)
    requires forall i :: 0 <= i < |xs| ==> load.requires(xs[i])
  {
    if xs == [] then Run([], Ok(0))
    else Next(Batches(load, xs[..|xs| - 1]), load(xs[|xs| - 1]))
  }

  /** A run either hands on a batch for every input and counts all their items, or stops at an exception. */
  lemma {:induction false} BatchesCount<A, T, E>(load: A --> Result<seq<T>, E>, xs: seq<A>)
    requires forall i :: 0 <= i < |xs| ==> load.requires(xs[i])
    ensures |Batches(load, xs).batches| <= |xs|
    ensures Batches(load, xs).outcome.Ok? ==>
      |Batches(load, xs).batches| == |xs| && Batches(load, xs).outcome.value == Total(Batches(load, xs).batches)
  {
    if xs != [] {
      var prev := Batches(load, xs[..|xs| - 1]);
      BatchesCount(load, xs[..|xs| - 1]);
      if prev.outcome.Ok? && load(xs[|xs| - 1]).Ok? {
        TotalSnoc(prev.batches, load(xs[|xs| - 1]).value);
      }
    }
  }

  /** A run succeeds exactly when every input loads, and then hands on each input's batch in order. */
  lemma {:induction false} BatchesOk<A, T, E>(load: A --> Result<seq<T>, E>, xs: seq<A>)
    requires forall i :: 0 <= i < |xs| ==> load.requires(xs[i])
    ensures Batches(load, xs).outcome.Ok? <==> forall i :: 0 <= i < |xs| ==> load(xs[i]).Ok?
    ensures Batches(load, xs).outcome.Ok? ==>
      |Batches(load, xs).batches| == |xs| && forall i :: 0 <= i < |xs| ==> Batches(load, xs).batches[i] == load(xs[i]).value
  {
    if xs != [] {
      var front := xs[..|xs| - 1];
      BatchesOk(load, front);
      assert forall i :: 0 <= i < |front| ==> front[i] == xs[i];
    }
  }

  /** Once an input raises, later inputs are not loaded and nothing more is handed on. */
  lemma {:induction false} BatchesErrorStays<A, T, E>(load: A --> Result<seq<T>, E>, xs: seq<A>, j: nat)
    requires forall i :: 0 <= i < |xs| ==> load.requires(xs[i])
    requires j <= |xs| && Batches(load, xs[..j]).outcome.Err?
    ensures Batches(load, xs) == Batches(load, xs[..j])
    decreases |xs| - j
  {
    if j < |xs| {
      assert xs[..j + 1][..j] == xs[..j];
      BatchesErrorStays(load, xs, j + 1);
    } else {
      assert xs[..j] == xs;
    }
  }

  /** One more input of a run that has handed on `batches` and counted `count` so far. */
  lemma BatchesStep<A, T, E>(load: A --> Result<seq<T>, E>, xs: seq<A>, i: nat, batches: seq<seq<T>>, count: nat,
                             batch: Result<seq<T>, E>, count': nat)
    requires forall i :: 0 <= i < |xs| ==> load.requires(xs[i])
    requires i < |xs| && batch == load(xs[i])
    requires Batches(load, xs[..i]) == Run(batches, Ok(count))
    requires batch.Ok? ==> count' == count + |batch.value|
    ensures batch.Err? ==> Batches(load, xs) == Run(batches, Err(batch.error))
    ensures batch.Ok? ==> Batches(load, xs[..i + 1]) == Run(batches + [batch.value], Ok(count'))
  {
    BatchesSnoc(load, xs, i);
    if batch.Err? {
      BatchesErrorStays(load, xs, i + 1);
    }
  }

  /** The run over the first `i + 1` inputs is the run over the first `i` followed by input `i`. */
  lemma BatchesSnoc<A, T, E>(load: A --> Result<seq<T>, E>, xs: seq<A>, i: nat)
    requires forall i :: 0 <= i < |xs| ==> load.requires(xs[i])
    requires i < |xs|
    ensures Batches(load, xs[..i + 1]) == Next(Batches(load, xs[..i]), load(xs[i]))
  {
    assert xs[..i + 1][..i] == xs[..i];
  }
}
