/**
 * The decision engine (src/prediction.py): FraudPredictor scores a
 * transaction through feature derivation, the scaler and the classifier,
 * applies the inclusive threshold, and caches the result by transaction id
 * in a dict bounded at 10000 entries.
 *
 * The scaler and the classifier are foreign library calls: they are
 * function values fixed at construction, returning None where the library
 * would raise. Any exception inside predict is swallowed and the predictor
 * answers (0, 0.0) without touching the cache.
 */
module Prediction {
  import opened Wrappers
  import opened Numbers
  import opened FeatureEngineering

  datatype Prediction = Prediction(isFraud: int, probability: real)

  /** The answer predict gives when anything inside it raises. */
  const Fallback: Prediction := Prediction(0, 0.0)

  const DefaultThreshold: real := 0.5

  const CacheCapacity: nat := 10000

  /** StandardScaler.transform on one row (None: it raises, e.g. when the scaler was never fitted). */
  type Scaler = seq<real> -> Option<seq<real>>

  /** predict_proba(...)[0] on one row (None: it raises). */
  type Classifier = seq<real> -> Option<real>

  /** The collaborators a predictor is built from. */
  datatype ScoringModel = ScoringModel(numerics: Numerics, scaler: Scaler, classifier: Classifier)

  /** A classifier whose answers are probabilities. */
  ghost predicate ReturnsProbabilities(c: Classifier)
  {
    forall v :: c(v).Some? ==> 0.0 <= c(v).value <= 1.0
  }

  // ---------------------------------------------------------------- decision

  /** The decision rule: fraud exactly when the probability reaches the threshold. */
  function Decide(probability: real, threshold: real): (isFraud: int)
    ensures isFraud == 0 || isFraud == 1
    ensures isFraud == 1 <==> probability >= threshold
  {
    if probability >= threshold then 1 else 0
  }

  /** Raising the threshold never turns a legitimate verdict into fraud. */
  lemma DecisionMonotone(probability: real, lower: real, higher: real)
    requires lower <= higher
    ensures Decide(probability, higher) <= Decide(probability, lower)
  {
  }

  /**
   * The scoring pipeline up to the decision: derive the features, project
   * them onto the 8 model inputs, scale, classify, decide. None when any
   * step raises.
   */
  function Evaluate(m: ScoringModel, threshold: real, t: Transaction, h: History): (r: Option<Prediction>)
    ensures r.Some? ==> r.value.isFraud == Decide(r.value.probability, threshold)
    ensures r.Some? && ReturnsProbabilities(m.classifier) ==> 0.0 <= r.value.probability <= 1.0
    ensures CreateFeatureVector(t, h, m.numerics).Failure? ==> r.None?
    ensures var features := CreateFeatureVector(t, h, m.numerics);
      r.Some? <==>
        && features.Success?
        && m.scaler(ModelInputs(features.value)).Some?
        && m.classifier(m.scaler(ModelInputs(features.value)).value).Some?
    ensures r.Some? ==>
      r.value.probability == m.classifier(m.scaler(ModelInputs(CreateFeatureVector(t, h, m.numerics).value)).value).value
  {
    match CreateFeatureVector(t, h, m.numerics)
    case Failure(_) => None
    case Success(features) =>
      match m.scaler(ModelInputs(features))
      case None => None
      case Some(scaled) =>
        match m.classifier(scaled)
        case None => None
        case Some(p) => Some(Prediction(Decide(p, threshold), p))
  }

  /**
   * What predict returns: the evaluated prediction, unless evaluation raised
   * or the transaction has no 'transaction_id' (read after classification,
   * when the result is cached), in which case the fallback.
   */
  function PredictOutcome(m: ScoringModel, threshold: real, t: Transaction, h: History): (r: Prediction)
    ensures r.isFraud == 0 || r.isFraud == 1
    ensures r != Fallback ==> r.isFraud == Decide(r.probability, threshold)
    ensures ReturnsProbabilities(m.classifier) ==> 0.0 <= r.probability <= 1.0
    ensures Evaluate(m, threshold, t, h).Some? && t.transactionId.Some? ==> r == Evaluate(m, threshold, t, h).value
    ensures Evaluate(m, threshold, t, h).None? || t.transactionId.None? ==> r == Fallback
  {
    var e := Evaluate(m, threshold, t, h);
    if e.Some? && t.transactionId.Some? then e.value else Fallback
  }

  /** A scaler or classifier that raises makes predict answer the fallback (0, 0.0). */
  lemma ScoringFailureFallsBack(m: ScoringModel, threshold: real, t: Transaction, h: History)
    requires CreateFeatureVector(t, h, m.numerics).Success?
    requires var scaled := m.scaler(ModelInputs(CreateFeatureVector(t, h, m.numerics).value));
      scaled.None? || m.classifier(scaled.value).None?
    ensures Evaluate(m, threshold, t, h).None?
    ensures PredictOutcome(m, threshold, t, h) == Fallback
  {
  }

  /**
   * A transaction with an id whose features, scaling and classification all
   * succeed gets the classifier's probability p with the verdict of the
   * threshold rule; under the default threshold 0.8 is fraud and 0.2 is not.
   */
  lemma PredictReturnsClassifierAnswer(m: ScoringModel, threshold: real, t: Transaction, h: History, p: real)
    requires t.transactionId.Some? && CreateFeatureVector(t, h, m.numerics).Success?
    requires var scaled := m.scaler(ModelInputs(CreateFeatureVector(t, h, m.numerics).value));
      scaled.Some? && m.classifier(scaled.value) == Some(p)
    ensures PredictOutcome(m, threshold, t, h) == Prediction(Decide(p, threshold), p)
    ensures threshold == DefaultThreshold && p == 0.8 ==> PredictOutcome(m, threshold, t, h) == Prediction(1, 0.8)
    ensures threshold == DefaultThreshold && p == 0.2 ==> PredictOutcome(m, threshold, t, h) == Prediction(0, 0.2)
  {
  }

  /**
   * The transactions of the predictor's unit tests carry neither 'timestamp'
   * nor 'customer_id': with the real feature derivation they are answered
   * by the fallback, whatever the classifier says.
   */
  lemma TestTransactionsFallBack(m: ScoringModel, threshold: real, id: string, amount: real, h: History)
    ensures var t := Transaction(Some(id), None, Some(amount), None, None, None, None);
      Evaluate(m, threshold, t, h).None? && PredictOutcome(m, threshold, t, h) == Fallback
  {
  }

  // ------------------------------------------------------------------- cache

  /**
   * The prediction cache as a Python dict: its entries and the insertion
   * order of its keys (overwriting a key keeps its place).
   */
  datatype CacheState = CacheState(order: seq<string>, entries: map<string, Prediction>)

  ghost predicate Distinct(s: seq<string>)
  {
    forall i, j :: 0 <= i < j < |s| ==> s[i] != s[j]
  }

  ghost predicate ValidCache(c: CacheState)
  {
    && Distinct(c.order)
    && (forall k :: k in c.entries <==> k in c.order)
    && |c.entries| <= CacheCapacity
  }

  const EmptyCache: CacheState := CacheState([], map[])

  /** `cache[id] = p`: a new key goes to the end of the order, an existing one keeps its place. */
  function Put(c: CacheState, id: string, p: Prediction): (r: CacheState)
    ensures r.entries.Keys == c.entries.Keys + {id} && r.entries[id] == p
    ensures forall k :: k in c.entries && k != id ==> r.entries[k] == c.entries[k]
    ensures id in c.entries ==> r.order == c.order
    ensures id !in c.entries ==> r.order == c.order + [id]
  {
    CacheState(if id in c.entries then c.order else c.order + [id], c.entries[id := p])
  }

  /** `cache.popitem()`: removes the most recently inserted key. */
  function PopItem(c: CacheState): (r: CacheState)
    requires c.order != []
    ensures c.order == r.order + [c.order[|c.order| - 1]]
    ensures r.entries.Keys == c.entries.Keys - {c.order[|c.order| - 1]}
    ensures forall k :: k in r.entries ==> r.entries[k] == c.entries[k]
  {
    var last := c.order[|c.order| - 1];
    CacheState(c.order[..|c.order| - 1], c.entries - {last})
  }

  /**
   * _cache_prediction: store, then pop once if the dict grew past capacity.
   * Because popitem removes the newest key, an id that is new to a full
   * cache is dropped again at once and the cache stays as it was.
   */
  function Insert(c: CacheState, id: string, p: Prediction): (r: CacheState)
    requires ValidCache(c)
    ensures ValidCache(r)
    ensures r.entries == if id in c.entries || |c.entries| < CacheCapacity then c.entries[id := p] else c.entries
  {
    InsertFacts(c, id, p);
    var stored := Put(c, id, p);
    if |stored.entries| > CacheCapacity then PopItem(stored) else stored
  }

  function Elems(s: seq<string>): set<string>
  {
    set k | k in s
  }

  lemma {:induction false} DistinctElems(s: seq<string>)
    requires Distinct(s)
    ensures |Elems(s)| == |s|
  {
    if s != [] {
      var init := s[..|s| - 1];
      DistinctElems(init);
      assert Elems(s) == Elems(init) + {s[|s| - 1]};
      assert s[|s| - 1] !in Elems(init);
    }
  }

  /** The size of a dict equals the length of its distinct insertion order. */
  lemma SizeIsOrderLength(c: CacheState)
    requires Distinct(c.order) && (forall k :: k in c.entries <==> k in c.order)
    ensures |c.entries| == |c.order|
  {
    DistinctElems(c.order);
    assert c.entries.Keys == Elems(c.order);
  }

  /**
   * The dict grows past capacity exactly when the id is new to a full cache,
   * and then the pop undoes the store; otherwise the store is a valid cache.
   */
  lemma InsertFacts(c: CacheState, id: string, p: Prediction)
    requires ValidCache(c)
    ensures var stored := Put(c, id, p);
      && (|stored.entries| > CacheCapacity <==> id !in c.entries && |c.entries| == CacheCapacity)
      && (|stored.entries| > CacheCapacity ==> stored.order != [] && PopItem(stored) == c)
      && (|stored.entries| <= CacheCapacity ==> ValidCache(stored))
  {
    SizeIsOrderLength(c);
    var stored := Put(c, id, p);
    if id in c.entries {
      assert stored.order == c.order && stored.entries.Keys == c.entries.Keys;
    } else {
      PutNew(c, id, p);
      PutNewIsUndone(c, id, p);
    }
  }

  lemma PutNew(c: CacheState, id: string, p: Prediction)
    requires ValidCache(c) && id !in c.entries
    ensures var stored := Put(c, id, p);
      && Distinct(stored.order)
      && (forall k :: k in stored.entries <==> k in stored.order)
      && |stored.entries| == |c.entries| + 1
  {
    var stored := Put(c, id, p);
    assert stored.order == c.order + [id];
    assert stored.entries.Keys == c.entries.Keys + {id};
  }

  /** Storing a new id appends it to the order, and removing it again gives back the old entries. */
  lemma PutNewIsUndone(c: CacheState, id: string, p: Prediction)
    requires id !in c.entries
    ensures var stored := Put(c, id, p);
      && stored.order[..|stored.order| - 1] == c.order
      && stored.order[|stored.order| - 1] == id
      && stored.entries - {id} == c.entries
  {
    var stored := Put(c, id, p);
    assert stored.order == c.order + [id];
  }

  /** Overwriting a cached id keeps the size, the order and every other entry. */
  lemma InsertExisting(c: CacheState, id: string, p: Prediction)
    requires ValidCache(c) && id in c.entries
    ensures Insert(c, id, p) == CacheState(c.order, c.entries[id := p])
  {
    InsertFacts(c, id, p);
  }

  /** A new id in a cache with room is appended to the order and stored. */
  lemma InsertNewWithRoom(c: CacheState, id: string, p: Prediction)
    requires ValidCache(c) && id !in c.entries && |c.entries| < CacheCapacity
    ensures Insert(c, id, p) == CacheState(c.order + [id], c.entries[id := p])
    ensures |Insert(c, id, p).entries| == |c.entries| + 1
  {
    InsertFacts(c, id, p);
  }

  /** A new id in a full cache is inserted and popped again: the cache is unchanged and the id is not cached. */
  lemma {:induction false} InsertNewWhenFull(c: CacheState, id: string, p: Prediction)
    requires ValidCache(c) && id !in c.entries && |c.entries| == CacheCapacity
    ensures Insert(c, id, p) == c
    ensures id !in Insert(c, id, p).entries
  {
    InsertFacts(c, id, p);
    var stored := Put(c, id, p);
    assert stored.order[..|stored.order| - 1] == c.order;
    assert stored.entries - {id} == c.entries;
  }

  // --------------------------------------------------------- cache effects

  /** What one predict call does to the cache: a write only when the whole pipeline succeeded. */
  function CacheEffect(c: CacheState, m: ScoringModel, threshold: real, t: Transaction, h: History): (r: CacheState)
    requires ValidCache(c)
    ensures ValidCache(r)
  {
    var e := Evaluate(m, threshold, t, h);
    if e.Some? && t.transactionId.Some? then Insert(c, t.transactionId.value, e.value) else c
  }

  /** When predict succeeds and the cache had room or already held the id, the cached value is the returned one. */
  lemma CachedIsReturned(c: CacheState, m: ScoringModel, threshold: real, t: Transaction, h: History)
    requires ValidCache(c)
    requires Evaluate(m, threshold, t, h).Some? && t.transactionId.Some?
    requires t.transactionId.value in c.entries || |c.entries| < CacheCapacity
    ensures var id := t.transactionId.value;
      id in CacheEffect(c, m, threshold, t, h).entries
      && CacheEffect(c, m, threshold, t, h).entries[id] == PredictOutcome(m, threshold, t, h)
  {
  }

  /** A call that falls back leaves the cache as it was. */
  lemma FallbackWritesNothing(c: CacheState, m: ScoringModel, threshold: real, t: Transaction, h: History)
    requires ValidCache(c)
    requires Evaluate(m, threshold, t, h).None? || t.transactionId.None?
    ensures CacheEffect(c, m, threshold, t, h) == c
    ensures PredictOutcome(m, threshold, t, h) == Fallback
  {
  }

  /** The cache after scoring the first n pairs one after another. */
  function CacheEffects(c: CacheState, m: ScoringModel, threshold: real,
                        ts: seq<Transaction>, hs: seq<History>, n: nat): (r: CacheState)
    requires ValidCache(c) && n <= |ts| && n <= |hs|
    ensures ValidCache(r)
  {
    if n == 0 then c
    else CacheEffect(CacheEffects(c, m, threshold, ts, hs, n - 1), m, threshold, ts[n - 1], hs[n - 1])
  }

  // --------------------------------------------------------------- predictor

  class FraudPredictor {
    const model: ScoringModel
    var predictionThreshold: real
    var predictionCache: map<string, Prediction>
    var insertionOrder: seq<string>

    ghost function Cache(): CacheState
      reads this
    {
      CacheState(insertionOrder, predictionCache)
    }

    ghost predicate Valid()
      reads this
    {
      ValidCache(Cache()) && 0.0 <= predictionThreshold <= 1.0
    }

    constructor (model: ScoringModel)
      ensures Valid()
      ensures this.model == model
      ensures predictionThreshold == DefaultThreshold && Cache() == EmptyCache
    {
      this.model := model;
      predictionThreshold := DefaultThreshold;
      predictionCache := map[];
      insertionOrder := [];
    }

    method Predict(t: Transaction, h: History) returns (r: Prediction)
      requires Valid()
      modifies this`predictionCache, this`insertionOrder
      ensures Valid()
      ensures r == PredictOutcome(model, predictionThreshold, t, h)
      ensures Cache() == CacheEffect(old(Cache()), model, predictionThreshold, t, h)
    {
      var features := CreateFeatureVector(t, h, model.numerics);
      if features.Failure? {
        return Fallback;
      }
      var scaled := model.scaler(ModelInputs(features.value));
      if scaled.None? {
        return Fallback;
      }
      var probability := model.classifier(scaled.value);
      if probability.None? {
        return Fallback;
      }
      var isFraud := Decide(probability.value, predictionThreshold);
      if t.transactionId.None? {
        return Fallback;
      }
      CachePrediction(t.transactionId.value, isFraud, probability.value);
      r := Prediction(isFraud, probability.value);
    }

    method BatchPredict(ts: seq<Transaction>, hs: seq<History>) returns (results: seq<Prediction>)
      requires Valid()
      modifies this`predictionCache, this`insertionOrder
      ensures Valid()
      ensures |results| == Min(|ts|, |hs|)
      ensures forall i :: 0 <= i < |results| ==> results[i] == PredictOutcome(model, predictionThreshold, ts[i], hs[i])
      ensures Cache() == CacheEffects(old(Cache()), model, predictionThreshold, ts, hs, |results|)
    {
      results := [];
      ghost var start := Cache();
      var threshold := predictionThreshold;
      ghost var outcome := (t, h) => PredictOutcome(model, threshold, t, h);
      var n := Min(|ts|, |hs|);
      for i := 0 to n
        invariant Valid() && predictionThreshold == threshold
        invariant results == ZipPrefix(outcome, ts, hs, i)
        invariant Cache() == CacheEffects(start, model, threshold, ts, hs, i)
      {
        var r := Predict(ts[i], hs[i]);
        results := results + [r];
      }
    }

    method SetThreshold(threshold: real) returns (r: Outcome<string>)
      requires Valid()
      modifies this`predictionThreshold
      ensures Valid()
      ensures r.Pass? <==> 0.0 <= threshold <= 1.0
      ensures predictionThreshold == if r.Pass? then threshold else old(predictionThreshold)
    {
      if 0.0 <= threshold <= 1.0 {
        predictionThreshold := threshold;
        r := Pass;
      } else {
        r := Fail("Threshold must be between 0 and 1");
      }
    }

    method CachePrediction(id: string, isFraud: int, probability: real)
      requires Valid()
      modifies this`predictionCache, this`insertionOrder
      ensures Valid()
      ensures Cache() == Insert(old(Cache()), id, Prediction(isFraud, probability))
    {
      InsertFacts(Cache(), id, Prediction(isFraud, probability));
      if id !in predictionCache {
        insertionOrder := insertionOrder + [id];
      }
      predictionCache := predictionCache[id := Prediction(isFraud, probability)];
      if |predictionCache| > CacheCapacity {
        var last := insertionOrder[|insertionOrder| - 1];
        insertionOrder := insertionOrder[..|insertionOrder| - 1];
        predictionCache := predictionCache - {last};
      }
    }
  }

  /** An out-of-range threshold is refused and changes nothing; an in-range one applies; the cache is never touched. */
  method ThresholdScenario(m: ScoringModel) returns (refused: Outcome<string>, accepted: Outcome<string>, threshold: real)
    ensures refused.Fail? && accepted.Pass? && threshold == 0.7
  {
    var predictor := new FraudPredictor(m);
    refused := predictor.SetThreshold(1.5);
    assert predictor.predictionThreshold == 0.5;
    accepted := predictor.SetThreshold(0.7);
    threshold := predictor.predictionThreshold;
    assert predictor.Cache() == EmptyCache;
  }

  /** Caching txn1 in a fresh predictor stores (1, 0.9) under txn1. */
  method CacheScenario(m: ScoringModel) returns (cached: Option<Prediction>)
    ensures cached == Some(Prediction(1, 0.9))
  {
    var predictor := new FraudPredictor(m);
    predictor.CachePrediction("txn1", 1, 0.9);
    InsertNewWithRoom(EmptyCache, "txn1", Prediction(1, 0.9));
    cached := if "txn1" in predictor.predictionCache then Some(predictor.predictionCache["txn1"]) else None;
  }
}
