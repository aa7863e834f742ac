/** Batched creation that doubles while calls succeed and stops after the first batch with a failure. */
module SlowStart {
  import opened Arith

  /** How many of the calls succeeded. */
  function Successes(results: seq<bool>): (n: nat)
    ensures n <= |results|
  {
    if results == [] then 0
    else Successes(results[..|results| - 1]) + if results[|results| - 1] then 1 else 0
  }

  /** What one run of batches did: calls made, the successes among them, whether it stopped on an error,
      the size of the last batch and how many batches there were. */
  datatype Outcome = Outcome(attempts: nat, successes: nat, failed: bool, lastBatch: nat, batches: nat)

  /** How many of the `batch` calls that follow the first `done` succeed. */
  function Sent(outcomes: seq<bool>, done: nat, batch: nat): (n: nat)
    requires done + batch <= |outcomes|
    ensures n <= batch
  {
    if batch == 0 then 0
    else Sent(outcomes, done, batch - 1) + if outcomes[done + batch - 1] then 1 else 0
  }

  lemma {:induction false} SentAreSuccesses(outcomes: seq<bool>, done: nat, batch: nat)
    requires done + batch <= |outcomes|
    ensures Sent(outcomes, done, batch) == Successes(outcomes[done..done + batch])
  {
    if batch > 0 {
      SentAreSuccesses(outcomes, done, batch - 1);
      assert outcomes[done..done + batch][..batch - 1] == outcomes[done..done + batch - 1];
    }
  }

  /** A batch in which no call failed, before the rest. */
  function Before(batch: nat, rest: Outcome): Outcome {
    rest.(lastBatch := if rest.batches == 0 then batch else rest.lastBatch, batches := rest.batches + 1)
  }

  /** Batches from a point where `done` calls have all succeeded. outcomes gives what each call returns. */
  function Batches(outcomes: seq<bool>, done: nat, batch: int): (o: Outcome)
    requires done <= |outcomes| && batch <= |outcomes| - done
    ensures done <= o.attempts - o.lastBatch && o.attempts <= |outcomes|
    decreases |outcomes| - done
  {
    if batch <= 0 then Outcome(done, done, false, 0, 0)
    else
      var sent := Sent(outcomes, done, batch);
      if sent < batch then Outcome(done + batch, done + sent, true, batch, 1)
      else Before(batch, Batches(outcomes, done + batch, Min(2 * batch, |outcomes| - done - batch)))
  }

  /** The order in which concurrent calls deliver their results does not change how many succeeded. */
  lemma {:induction false} OrderIsIrrelevant(arrived: seq<bool>, results: seq<bool>)
    requires multiset(arrived) == multiset(results)
    ensures Successes(arrived) == Successes(results)
  {
    CountIsMultiplicity(arrived);
    CountIsMultiplicity(results);
  }

  lemma {:induction false} CountIsMultiplicity(results: seq<bool>)
    ensures Successes(results) == multiset(results)[true]
  {
    if results != [] {
      var n := |results| - 1;
      CountIsMultiplicity(results[..n]);
      assert results == results[..n] + [results[n]];
    }
  }

  /** Receives one batch: the results of its concurrent calls arrive in any order. */
  method ReceiveBatch(results: seq<bool>) returns (successes: nat, failed: bool)
    ensures successes == Successes(results)
    ensures failed <==> successes < |results|
  {
    var arrived: seq<bool> :| multiset(arrived) == multiset(results);
    OrderIsIrrelevant(arrived, results);
    assert |arrived| == |multiset(arrived)| == |multiset(results)| == |results|;
    successes, failed := 0, false;
    for k := 0 to |arrived|
      invariant successes == Successes(arrived[..k])
      invariant failed <==> successes < k
    {
      assert arrived[..k + 1][..k] == arrived[..k];
      if arrived[k] {
        successes := successes + 1;
      } else {
        failed := true;
      }
    }
    assert arrived[..|arrived|] == arrived;
  }

  ghost predicate SameResult(a: Outcome, b: Outcome) {
    a.attempts == b.attempts && a.successes == b.successes && a.failed == b.failed
  }

  /** A batch ends the run when a call failed, and otherwise leaves the result to the rest. */
  lemma {:induction false} BatchStep(outcomes: seq<bool>, done: nat, batch: nat)
    requires 0 < batch <= |outcomes| - done
    ensures var o, sent := Batches(outcomes, done, batch), Sent(outcomes, done, batch);
      && (sent < batch ==> o.attempts == done + batch && o.successes == done + sent && o.failed)
      && (sent == batch ==> SameResult(o, Batches(outcomes, done + batch, Min(2 * batch, |outcomes| - done - batch))))
  {
  }

  /** Makes and receives the batch that follows the first `done` calls. */
  method MakeBatch(outcomes: seq<bool>, done: nat, batch: nat) returns (successes: nat, failed: bool)
    requires done + batch <= |outcomes|
    ensures successes == Sent(outcomes, done, batch)
    ensures failed <==> successes < batch
  {
    SentAreSuccesses(outcomes, done, batch);
    successes, failed := ReceiveBatch(outcomes[done..done + batch]);
  }

  /** A turn of the loop keeps the result of the whole run. */
  lemma {:induction false} BatchTurn(outcomes: seq<bool>, whole: Outcome, done: nat, batch: nat, sent: nat)
    requires 0 < batch <= |outcomes| - done && sent == Sent(outcomes, done, batch)
    requires SameResult(whole, Batches(outcomes, done, batch))
    ensures sent < batch ==> whole.attempts == done + batch && whole.successes == done + sent && whole.failed
    ensures sent == batch ==>
      SameResult(whole, Batches(outcomes, done + batch, Min(2 * batch, |outcomes| - done - batch)))
  {
    BatchStep(outcomes, done, batch);
  }

  lemma {:induction false} NoBatch(outcomes: seq<bool>, done: nat, batch: int)
    requires done <= |outcomes| && batch <= 0
    ensures Batches(outcomes, done, batch) == Outcome(done, done, false, 0, 0)
  {
  }

  /** The loop: each batch doubles, and the first batch with a failure is the last. */
  method RunBatches(outcomes: seq<bool>, count: int, first: int, ghost whole: Outcome)
    returns (successes: nat, failed: bool, ghost attempts: nat)
    requires first <= |outcomes| && (first > 0 ==> count == |outcomes|)
    requires whole == Batches(outcomes, 0, first)
    ensures successes == whole.successes && failed == whole.failed
    ensures attempts == whole.attempts
  {
    var remaining, batchSize := count, first;
    successes := 0;
    while batchSize > 0
      invariant successes <= |outcomes| && batchSize <= |outcomes| - successes
      invariant batchSize > 0 ==> remaining == |outcomes| - successes
      invariant SameResult(whole, Batches(outcomes, successes, batchSize))
      decreases remaining
    {
      var sent, failing := MakeBatch(outcomes, successes, batchSize);
      BatchTurn(outcomes, whole, successes, batchSize, sent);
      if failing {
        return successes + sent, true, successes + batchSize;
      }
      successes := successes + sent;
      remaining := remaining - batchSize;
      batchSize := Min(2 * batchSize, remaining);
    }
    NoBatch(outcomes, successes, batchSize);
    return successes, false, successes;
  }

  /** Batched calls, starting with the initial batch size or with count when that is smaller. */
  method SlowStartBatch(count: int, initialBatchSize: int, outcomes: seq<bool>)
    returns (successes: nat, failed: bool, ghost attempts: nat)
    requires |outcomes| == Max(count, 0)
    ensures successes == Batches(outcomes, 0, Min(count, initialBatchSize)).successes
    ensures failed == Batches(outcomes, 0, Min(count, initialBatchSize)).failed
    ensures attempts == Batches(outcomes, 0, Min(count, initialBatchSize)).attempts
  {
    var first := Min(count, initialBatchSize);
    successes, failed, attempts := RunBatches(outcomes, count, first, Batches(outcomes, 0, first));
  }

  /* ----- What the batches promise ----- */

  /** b doubled n times; n full batches starting from b make Doubled(b, n) - b calls. */
  function Doubled(b: nat, n: nat): (r: nat)
    ensures r >= b
  {
    if n == 0 then b else 2 * Doubled(b, n - 1)
  }

  /** The run stops on an error exactly when a call it made failed, and otherwise makes all the calls. */
  lemma {:induction false} BatchesEnd(outcomes: seq<bool>, done: nat, batch: int)
    requires done <= |outcomes| && batch <= |outcomes| - done
    requires done < |outcomes| ==> batch > 0
    ensures var o := Batches(outcomes, done, batch);
            && (o.failed <==> o.successes < o.attempts)
            && (!o.failed ==> o.attempts == |outcomes|)
    decreases |outcomes| - done
  {
    if batch > 0 && Sent(outcomes, done, batch) == batch {
      BatchesEnd(outcomes, done + batch, Min(2 * batch, |outcomes| - done - batch));
    }
  }

  /** Every call made is accounted for. */
  lemma {:induction false} BatchesCount(outcomes: seq<bool>, done: nat, batch: int)
    requires done <= |outcomes| && batch <= |outcomes| - done
    requires Sent(outcomes, 0, done) == done
    ensures var o := Batches(outcomes, done, batch); o.successes == Sent(outcomes, 0, o.attempts)
    decreases |outcomes| - done
  {
    if batch > 0 {
      BatchStep(outcomes, done, batch);
      SentOfPrefix(outcomes, done, batch);
      if Sent(outcomes, done, batch) == batch {
        BatchesCount(outcomes, done + batch, Min(2 * batch, |outcomes| - done - batch));
      }
    }
  }

  lemma {:induction false} SentOfPrefix(outcomes: seq<bool>, done: nat, batch: nat)
    requires done + batch <= |outcomes|
    ensures Sent(outcomes, 0, done + batch) == Sent(outcomes, 0, done) + Sent(outcomes, done, batch)
  {
    if batch > 0 {
      SentOfPrefix(outcomes, done, batch - 1);
    }
  }

  /** The last batch, the only one that can hold a failure, is at most all calls before it plus one
      initial batch. */
  lemma {:induction false} LastBatchIsBounded(outcomes: seq<bool>, done: nat, batch: int, initial: nat)
    requires done <= |outcomes| && 0 < batch <= |outcomes| - done
    requires batch <= done + initial
    ensures var o := Batches(outcomes, done, batch);
            && o.lastBatch <= o.attempts - o.lastBatch + initial
            && o.attempts - o.successes <= o.lastBatch
    decreases |outcomes| - done
  {
    var left := |outcomes| - done - batch;
    if Sent(outcomes, done, batch) == batch && left > 0 {
      LastBatchIsBounded(outcomes, done + batch, Min(2 * batch, left), initial);
    }
  }

  /** Every call before the last batch succeeded. */
  lemma {:induction false} EarlierBatchesSucceed(outcomes: seq<bool>, done: nat, batch: int)
    requires done <= |outcomes| && batch <= |outcomes| - done
    ensures var o := Batches(outcomes, done, batch);
            forall i :: done <= i < o.attempts - o.lastBatch ==> outcomes[i]
    decreases |outcomes| - done
  {
    if batch > 0 && Sent(outcomes, done, batch) == batch {
      AllSent(outcomes, done, batch);
      EarlierBatchesSucceed(outcomes, done + batch, Min(2 * batch, |outcomes| - done - batch));
    }
  }

  lemma {:induction false} AllSent(outcomes: seq<bool>, done: nat, batch: nat)
    requires done + batch <= |outcomes| && Sent(outcomes, done, batch) == batch
    ensures forall i :: done <= i < done + batch ==> outcomes[i]
  {
    if batch > 0 {
      AllSent(outcomes, done, batch - 1);
    }
  }

  lemma {:induction false} DoubledTwice(b: nat, n: nat)
    ensures Doubled(2 * b, n) == Doubled(b, n + 1)
  {
    if n > 0 {
      DoubledTwice(b, n - 1);
    }
  }

  /** One full batch before some others that are few. */
  lemma {:induction false} FewMore(batch: nat, next: int, left: nat, rest: nat)
    requires batch > 0 && next == Min(2 * batch, left) && (0 < next == left ==> rest == 1)
    requires rest > 0 ==> next > 0 && Doubled(next, rest - 1) - next < left
    ensures Doubled(batch, rest) - batch < batch + left
  {
    if rest > 0 && next == 2 * batch {
      DoubledTwice(batch, rest - 1);
    }
  }

  /** The number of batches is logarithmic: all but the last one are full and double in size, so n of them make
      more than Doubled(batch, n - 1) - batch calls. */
  lemma {:induction false} BatchesAreFew(outcomes: seq<bool>, done: nat, batch: int)
    requires done <= |outcomes| && batch <= |outcomes| - done
    ensures var n := Batches(outcomes, done, batch).batches;
            n > 0 ==> batch > 0 && Doubled(batch, n - 1) - batch < |outcomes| - done
    decreases |outcomes| - done
  {
    if batch > 0 && Sent(outcomes, done, batch) == batch {
      var left := |outcomes| - done - batch;
      var next := Min(2 * batch, left);
      BatchesAreFew(outcomes, done + batch, next);
      if 0 < next == left {
        OneBatch(outcomes, done + batch);
      }
      FewMore(batch, next, left, Batches(outcomes, done + batch, next).batches);
    }
  }

  /** A batch of all the calls that are left is the last. */
  lemma {:induction false} OneBatch(outcomes: seq<bool>, done: nat)
    requires done < |outcomes|
    ensures Batches(outcomes, done, |outcomes| - done).batches == 1
  {
  }

  /** The promises of one whole call: at most count calls; all results counted; an error exactly when a call
      failed, and otherwise count successes; every call before the last batch succeeded and the calls that
      failed are at most as many plus one initial batch; and logarithmically many batches. */
  lemma {:induction false} SlowStartIsSafe(outcomes: seq<bool>, initial: nat)
    requires initial > 0
    ensures var o := Batches(outcomes, 0, Min(|outcomes|, initial));
            && o.attempts <= |outcomes|
            && o.successes == Successes(outcomes[..o.attempts])
            && (o.failed <==> o.successes < o.attempts)
            && (!o.failed ==> o.attempts == o.successes == |outcomes|)
            && (forall i :: 0 <= i < o.attempts - o.lastBatch ==> outcomes[i])
            && o.attempts - o.successes <= (o.attempts - o.lastBatch) + initial
            && (o.batches > 0 ==> Doubled(initial, o.batches - 1) - initial < |outcomes|)
  {
    var batch := Min(|outcomes|, initial);
    BatchesEnd(outcomes, 0, batch);
    BatchesCount(outcomes, 0, batch);
    SentAreSuccesses(outcomes, 0, Batches(outcomes, 0, batch).attempts);
    BatchesAreFew(outcomes, 0, batch);
    if 0 < batch < initial {
      OneBatch(outcomes, 0);
    }
    if batch > 0 {
      LastBatchIsBounded(outcomes, 0, batch, initial);
    }
    EarlierBatchesSucceed(outcomes, 0, batch);
  }
}
