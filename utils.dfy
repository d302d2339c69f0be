/**
 * Helpers (src/utils.py): the required-field check on a transaction dict,
 * splitting a list into batches, and the per-operation timing table.
 *
 * Logging setup, uuid generation, SHA-256 hashing, JSON (de)serialisation
 * and timestamp formatting and parsing are not part of this model.
 */
module Utils {
  import opened Wrappers
  import opened Numbers

  // ------------------------------------------------------ required fields

  const RequiredFields: seq<string> :=
    ["transaction_id", "customer_id", "amount",
     "merchant_id", "timestamp", "location",
     "device_id", "transaction_type", "card_present"]

  /** all(field in transaction for field in fields), checked in order. */
  function AllPresent<V>(fields: seq<string>, transaction: map<string, V>): (ok: bool)
    ensures ok <==> forall i :: 0 <= i < |fields| ==> fields[i] in transaction
  {
    if fields == [] then true
    else fields[0] in transaction && AllPresent(fields[1..], transaction)
  }

  /** True exactly when all 9 required keys are present; other keys do not matter. */
  function ValidateTransactionData<V>(transaction: map<string, V>): (ok: bool)
    ensures ok <==> (set f | f in RequiredFields) <= transaction.Keys
  {
    AllPresent(RequiredFields, transaction)
  }

  /** Adding keys never invalidates a transaction; removing a required one always does. */
  lemma ValidationIsMonotone<V>(transaction: map<string, V>, key: string, value: V)
    ensures ValidateTransactionData(transaction) ==> ValidateTransactionData(transaction[key := value])
    ensures key in RequiredFields ==> !ValidateTransactionData(transaction - {key})
  {
  }

  // -------------------------------------------------------------- batching

  /** The batches joined back together. */
  function Flatten<T>(batches: seq<seq<T>>): seq<T>
  {
    if batches == [] then [] else Flatten(batches[..|batches| - 1]) + batches[|batches| - 1]
  }

  lemma FlattenAppend<T>(batches: seq<seq<T>>, b: seq<T>)
    ensures Flatten(batches + [b]) == Flatten(batches) + b
  {
    assert (batches + [b])[..|batches|] == batches;
  }

  /** ceil(n / k) for k > 0 */
  function CeilDiv(n: nat, k: nat): nat
    requires k > 0
  {
    (n + k - 1) / k
  }

  lemma {:induction false} MulAtLeast(a: int, k: int)
    requires a >= 1 && k > 0
    ensures a * k >= k
  {
    if a > 1 {
      MulAtLeast(a - 1, k);
      assert a * k == (a - 1) * k + k;
    }
  }

  /** Integer division is determined by the bounds b * k <= m < (b + 1) * k. */
  lemma DivOfBounds(m: int, k: int, b: int)
    requires k > 0 && b * k <= m < b * k + k
    ensures m / k == b
  {
    var q, r := m / k, m % k;
    assert m == q * k + r && 0 <= r < k;
    var d := q - b;
    assert d * k == q * k - b * k;
    if d >= 1 {
      MulAtLeast(d, k);
      assert false;
    } else if d <= -1 {
      MulAtLeast(-d, k);
      assert false;
    }
  }

  lemma CeilDivOfBounds(n: nat, k: nat, b: nat)
    requires k > 0 && (b - 1) * k < n <= b * k
    ensures CeilDiv(n, k) == b
  {
    assert (b - 1) * k == b * k - k;
    DivOfBounds(n + k - 1, k, b);
  }

  /**
   * The loop state of batch_data after taking |batches| slices of size k:
   * i is the next start, the batches joined are the data read so far, every
   * batch but possibly the last is full, and none is empty.
   */
  ghost predicate BatchesSoFar<T>(data: seq<T>, k: nat, batches: seq<seq<T>>, i: nat)
  {
    && k > 0
    && i == |batches| * k
    && Flatten(batches) == data[..Min(i, |data|)]
    && (batches != [] ==> (|batches| - 1) * k < |data|)
    && (forall j :: 0 <= j < |batches| ==>
          0 < |batches[j]| <= k && (j < |batches| - 1 || i <= |data| ==> |batches[j]| == k))
  }

  lemma BatchStep<T>(data: seq<T>, k: nat, batches: seq<seq<T>>, i: nat)
    requires BatchesSoFar(data, k, batches, i) && i < |data|
    ensures BatchesSoFar(data, k, batches + [data[i..Min(i + k, |data|)]], i + k)
  {
    var batch := data[i..Min(i + k, |data|)];
    FlattenAppend(batches, batch);
    assert data[..Min(i + k, |data|)] == data[..i] + batch;
    assert (|batches| + 1) * k == |batches| * k + k;
  }

  lemma BatchesDone<T>(data: seq<T>, k: nat, batches: seq<seq<T>>, i: nat)
    requires BatchesSoFar(data, k, batches, i) && i >= |data|
    ensures Flatten(batches) == data
    ensures |batches| == CeilDiv(|data|, k)
  {
    assert data[..|data|] == data;
    BatchCount(|data|, k, |batches|);
  }

  /** nb slices of size k that reach past n, the last of them starting below n, are ceil(n / k) many. */
  lemma BatchCount(n: nat, k: nat, nb: nat)
    requires k > 0 && n <= nb * k && (nb > 0 ==> (nb - 1) * k < n)
    ensures nb == CeilDiv(n, k)
  {
    if nb == 0 {
      assert n == 0;
    } else {
      if nb > 1 {
        MulAtLeast(nb - 1, k);
      }
      CeilDivOfBounds(n, k, nb);
    }
  }

  /**
   * batch_data: data[i:i + batch_size] for i in range(0, len(data), batch_size).
   * A batch size of 0 makes range() raise; a negative one gives an empty range.
   */
  method BatchData<T>(data: seq<T>, batchSize: int) returns (r: Option<seq<seq<T>>>)
    ensures r.None? <==> batchSize == 0
    ensures batchSize < 0 ==> r == Some([])
    ensures batchSize > 0 ==> r.Some? && Flatten(r.value) == data
    ensures batchSize > 0 ==> r.Some? && |r.value| == CeilDiv(|data|, batchSize)
    ensures batchSize > 0 ==>
              r.Some? &&
              forall j :: 0 <= j < |r.value| ==>
                0 < |r.value[j]| <= batchSize && (j < |r.value| - 1 ==> |r.value[j]| == batchSize)
  {
    if batchSize == 0 {
      return None;
    } else if batchSize < 0 {
      return Some([]);
    }
    var batches: seq<seq<T>> := [];
    var i := 0;
    while i < |data|
      invariant BatchesSoFar(data, batchSize, batches, i)
      decreases |data| - i
    {
      BatchStep(data, batchSize, batches, i);
      batches := batches + [data[i..Min(i + batchSize, |data|)]];
      i := i + batchSize;
    }
    BatchesDone(data, batchSize, batches, i);
    return Some(batches);
  }

  // ----------------------------------------------------------- timing table

  class PerformanceMonitor {
    var timings: map<string, seq<real>>

    constructor ()
      ensures timings == map[]
    {
      timings := map[];
    }

    /** The durations recorded for an operation so far (none if it was never recorded). */
    ghost function Durations(operation: string): seq<real>
      reads this
    {
      if operation in timings then timings[operation] else []
    }

    /** Appends the duration to the operation's list, creating the list on first use; nothing else changes. */
    method RecordTime(operation: string, durationMs: real)
      modifies this
      ensures timings.Keys == old(timings.Keys) + {operation}
      ensures Durations(operation) == old(Durations(operation)) + [durationMs]
      ensures forall op :: op in timings && op != operation ==> timings[op] == old(timings[op])
    {
      if operation !in timings {
        timings := timings[operation := []];
      }
      timings := timings[operation := timings[operation] + [durationMs]];
    }

    function GetAvgTime(operation: string): (avg: real)
      reads this
      ensures operation !in timings || timings[operation] == [] ==> avg == 0.0
      ensures operation in timings && timings[operation] != [] ==> avg == Mean(timings[operation])
    {
      if operation !in timings || timings[operation] == [] then 0.0
      else Sum(timings[operation]) / (|timings[operation]| as real)
    }

    /** The average of an operation lies between its smallest and largest recorded duration. */
    lemma AvgTimeWithin(operation: string, lo: real, hi: real)
      requires operation in timings && timings[operation] != []
      requires Within(timings[operation], lo, hi)
      ensures lo <= GetAvgTime(operation) <= hi
    {
      MeanWithin(timings[operation], lo, hi);
    }

    function GetSummary(): (summary: map<string, real>)
      reads this
      ensures summary.Keys == timings.Keys
      ensures forall op :: op in summary ==> summary[op] == GetAvgTime(op)
    {
      map op | op in timings :: GetAvgTime(op)
    }
  }

  /** Two timings of one operation average to their midpoint; an unknown operation averages 0. */
  method TimingScenario() returns (average: real, unknown: real, operations: set<string>)
    ensures average == 15.0 && unknown == 0.0 && operations == {"predict"}
  {
    MeanOfTwo(10.0, 20.0);
    var monitor := new PerformanceMonitor();
    monitor.RecordTime("predict", 10.0);
    monitor.RecordTime("predict", 20.0);
    assert monitor.timings["predict"] == [10.0, 20.0];
    assert monitor.timings == map["predict" := [10.0, 20.0]];
    average := monitor.GetAvgTime("predict");
    unknown := monitor.GetAvgTime("store");
    operations := monitor.GetSummary().Keys;
  }
}
