/**
 * Feature derivation (src/feature_engineering.py): the pure mapping from a
 * transaction and a customer history to the 15-key feature map, and the
 * projection of that map onto the 8 ordered inputs of the scaler.
 *
 * A Python dict with optional keys is modelled as a record of Option fields
 * (None: the key is absent). Timestamp parsing is done before this module:
 * a transaction carries the parsed hour, weekday and day of month, or the
 * marker that the string could not be parsed.
 */
module FeatureEngineering {
  import opened Wrappers
  import opened Numbers

  /** The 1e-5 added to both divisors of the amount features. */
  const Epsilon: real := 0.00001

  datatype Timestamp =
    | Parsed(hour: int, weekday: int, day: int)  // weekday: Monday = 0 .. Sunday = 6
    | Unparseable                                 // datetime.fromisoformat raises

  /** The ranges datetime guarantees for a parsed timestamp. */
  predicate ValidTime(hour: int, weekday: int, day: int)
  {
    0 <= hour <= 23 && 0 <= weekday <= 6 && 1 <= day <= 31
  }

  /** The keys of a transaction dict that feature derivation reads. */
  datatype Transaction = Transaction(
    transactionId: Option<string>,
    customerId: Option<string>,
    amount: Option<real>,
    timestamp: Option<Timestamp>,
    location: Option<string>,
    transactionType: Option<string>,
    cardPresent: Option<bool>)

  /** A customer history dict: 'amounts', 'txn_1h', 'txn_24h'. */
  datatype History = History(amounts: Option<seq<real>>, txn1h: Option<int>, txn24h: Option<int>)

  /**
   * numpy's floating-point operations, which the model leaves uninterpreted:
   * log1p, the population standard deviation, and float division (which
   * yields inf or nan instead of failing when the divisor is zero).
   */
  datatype Numerics = Numerics(log1p: real -> real, std: seq<real> -> real, div: (real, real) -> real)

  /** The exceptions create_feature_vector can raise. */
  datatype FeatureError = MissingKey(key: string) | InvalidTimestamp

  /** The 15 keys of the feature dict, one constructor per key; Key() is the key's text. */
  datatype Feature =
    | Hour | DayOfWeek | IsWeekend | IsNight | DayOfMonth
    | Amount | AmountLog | AmountNormalized | AmountDeviation
    | Transactions1h | Transactions24h | AvgTxnPerHour
    | CardPresent | TransactionTypeEncoded | LocationRiskiness
  {
    function Key(): string
    {
      match this
      case Hour => "hour"
      case DayOfWeek => "day_of_week"
      case IsWeekend => "is_weekend"
      case IsNight => "is_night"
      case DayOfMonth => "day_of_month"
      case Amount => "amount"
      case AmountLog => "amount_log"
      case AmountNormalized => "amount_normalized"
      case AmountDeviation => "amount_deviation"
      case Transactions1h => "transactions_1h"
      case Transactions24h => "transactions_24h"
      case AvgTxnPerHour => "avg_txn_per_hour"
      case CardPresent => "card_present"
      case TransactionTypeEncoded => "transaction_type_encoded"
      case LocationRiskiness => "location_riskiness"
    }
  }

  /** Distinct constructors name distinct dict keys, so a map over Feature is the dict. */
  lemma KeysAreDistinct(a: Feature, b: Feature)
    ensures a.Key() == b.Key() ==> a == b
  {
  }

  type Features = map<Feature, real>

  const TemporalKeys: set<Feature> := {Hour, DayOfWeek, IsWeekend, IsNight, DayOfMonth}
  const AmountKeys: set<Feature> := {Amount, AmountLog, AmountNormalized, AmountDeviation}
  const FrequencyKeys: set<Feature> := {Transactions1h, Transactions24h, AvgTxnPerHour}
  const ExtraKeys: set<Feature> := {CardPresent, TransactionTypeEncoded, LocationRiskiness}

  const FeatureKeys: set<Feature> := TemporalKeys + AmountKeys + FrequencyKeys + ExtraKeys

  /** The 8 features the scaler and the classifier were fitted on, in their fixed order. */
  const ModelInputKeys: seq<Feature> :=
    [Amount, AmountLog, Transactions1h, Transactions24h, CardPresent, Hour, IsWeekend, AmountDeviation]

  const HighRiskLocations: set<string> := {"high_risk_country", "suspicious_region"}

  const TypeCodes: map<string, int> := map["online" := 1, "atm" := 2, "pos" := 3, "transfer" := 4]

  // ---------------------------------------------------------------- temporal

  function TemporalFeatures(hour: int, weekday: int, day: int): (f: Features)
    ensures f.Keys == TemporalKeys
    ensures f[Hour] == hour as real && f[DayOfWeek] == weekday as real
    ensures f[DayOfMonth] == day as real
    ensures f[IsWeekend] == 0.0 || f[IsWeekend] == 1.0
    ensures f[IsNight] == 0.0 || f[IsNight] == 1.0
  {
    map[Hour := hour as real,
        DayOfWeek := weekday as real,
        IsWeekend := if weekday >= 5 then 1.0 else 0.0,
        IsNight := if hour >= 22 || hour <= 5 then 1.0 else 0.0,
        DayOfMonth := day as real]
  }

  /** For a parsed timestamp: weekend means Saturday or Sunday, night means 22:00 to 05:59. */
  lemma WeekendAndNight(hour: int, weekday: int, day: int)
    requires ValidTime(hour, weekday, day)
    ensures var f := TemporalFeatures(hour, weekday, day);
      && (f[IsWeekend] == 1.0 <==> weekday == 5 || weekday == 6)
      && (f[IsNight] == 1.0 <==> hour in {22, 23, 0, 1, 2, 3, 4, 5})
  {
  }

  // ------------------------------------------------------------------ amount

  /** The history the amount statistics are taken over: an empty one is replaced by [amount]. */
  function EffectiveHistory(amount: real, history: seq<real>): (h: seq<real>)
    ensures h != []
    ensures history == [] ==> h == [amount]
    ensures history != [] ==> h == history
  {
    if history == [] then [amount] else history
  }

  function AmountFeatures(amount: real, history: seq<real>, num: Numerics): (f: Features)
    ensures f.Keys == AmountKeys
    ensures f[Amount] == amount && f[AmountLog] == num.log1p(amount)
    ensures var mean := Mean(EffectiveHistory(amount, history));
      && f[AmountNormalized] == num.div(amount, mean + Epsilon)
      && f[AmountDeviation] == num.div(Abs(amount - mean), num.std(EffectiveHistory(amount, history)) + Epsilon)
  {
    var h := EffectiveHistory(amount, history);
    var mean := Mean(h);
    map[Amount := amount,
        AmountLog := num.log1p(amount),
        AmountNormalized := num.div(amount, mean + Epsilon),
        AmountDeviation := num.div(Abs(amount - mean), num.std(h) + Epsilon)]
  }

  function Abs(x: real): real { if x < 0.0 then -x else x }

  /**
   * An empty history gives exactly the features of the one-sample history
   * [amount]: its mean is the amount itself, so the deviation's numerator
   * |amount - mean| is 0 and the amount is normalized by itself.
   */
  lemma EmptyHistoryIsOwnSample(amount: real, num: Numerics)
    ensures AmountFeatures(amount, [], num) == AmountFeatures(amount, [amount], num)
    ensures Mean(EffectiveHistory(amount, [])) == amount
    ensures AmountFeatures(amount, [], num)[AmountDeviation] == num.div(0.0, num.std([amount]) + Epsilon)
    ensures AmountFeatures(amount, [], num)[AmountNormalized] == num.div(amount, amount + Epsilon)
  {
    MeanSingleton(amount);
  }

  // --------------------------------------------------------------- frequency

  function FrequencyFeatures(txn1h: int, txn24h: int): (f: Features)
    ensures f.Keys == FrequencyKeys
    ensures f[Transactions1h] == txn1h as real && f[Transactions24h] == txn24h as real
    ensures f[AvgTxnPerHour] * 24.0 == txn24h as real
  {
    map[Transactions1h := txn1h as real,
        Transactions24h := txn24h as real,
        AvgTxnPerHour := (txn24h as real) / 24.0]
  }

  // ------------------------------------------------------------ categorical

  function LowerChar(c: char): char
  {
    if 'A' <= c <= 'Z' then (c as int + 32) as char else c
  }

  /** str.lower(), restricted to ASCII letters (see README). */
  function Lower(s: string): (r: string)
    ensures |r| == |s|
    ensures forall i :: 0 <= i < |s| ==> r[i] == LowerChar(s[i])
  {
    if s == [] then [] else [LowerChar(s[0])] + Lower(s[1..])
  }

  function EncodeTransactionType(txType: string): (code: int)
    ensures 0 <= code <= 4
    ensures code != 0 <==> Lower(txType) in {"online", "atm", "pos", "transfer"}
  {
    var key := Lower(txType);
    if key in TypeCodes then TypeCodes[key] else 0
  }

  /** A string without upper-case ASCII letters is its own lower case. */
  lemma LowerKeepsLowercase(s: string)
    requires forall i :: 0 <= i < |s| ==> !('A' <= s[i] <= 'Z')
    ensures Lower(s) == s
  {
  }

  /** The code identifies the type up to case: two types with the same non-zero code agree once lower-cased. */
  lemma EncodingIsCaseInsensitiveAndInjective(a: string, b: string)
    ensures Lower(a) == Lower(b) ==> EncodeTransactionType(a) == EncodeTransactionType(b)
    ensures EncodeTransactionType(a) == EncodeTransactionType(b) != 0 ==> Lower(a) == Lower(b)
  {
  }

  /** The known types are matched in any case: upper-case ONLINE is code 1, Atm code 2. */
  lemma EncodingIgnoresCase()
    ensures EncodeTransactionType("ONLINE") == 1 && EncodeTransactionType("Atm") == 2
  {
    assert EncodeTransactionType("ONLINE") == 1 by { assert Lower("ONLINE") == "online"; }
    assert Lower("Atm") == "atm";
  }

  /** POS is code 3 and transfer code 4. */
  lemma EncodingOfPosAndTransfer()
    ensures EncodeTransactionType("POS") == 3 && EncodeTransactionType("transfer") == 4
  {
    assert EncodeTransactionType("POS") == 3 by { assert Lower("POS") == "pos"; }
    LowerKeepsLowercase("transfer");
  }

  /** A missing type ('') and an unknown one get code 0. */
  lemma EncodingOfUnknownTypes()
    ensures EncodeTransactionType("") == 0 && EncodeTransactionType("wire") == 0
  {
    assert Lower("wire") == "wire";
  }

  function LocationRisk(location: string): (risk: real)
    ensures risk == 0.0 || risk == 1.0
    ensures risk == 1.0 <==> location == "high_risk_country" || location == "suspicious_region"
  {
    if location in HighRiskLocations then 1.0 else 0.0
  }

  /** The location match is exact: a differently cased name carries no risk. */
  lemma LocationMatchIsCaseSensitive()
    ensures LocationRisk("HIGH_RISK_COUNTRY") == 0.0 && LocationRisk("Suspicious_Region") == 0.0
  {
  }

  // ------------------------------------------------------------ feature map

  /** dict.get(key, default) on an Option field. */
  function GetOr<T>(o: Option<T>, default: T): (r: T)
    ensures o.Some? ==> r == o.value
    ensures o.None? ==> r == default
  {
    match o
    case Some(v) => v
    case None => default
  }

  /** transaction.get('card_present', 0) as a number: 1 only for a present true. */
  function CardPresentValue(cardPresent: Option<bool>): (r: real)
    ensures r == 0.0 || r == 1.0
    ensures r == 1.0 <==> cardPresent == Some(true)
  {
    match cardPresent
    case Some(true) => 1.0
    case _ => 0.0
  }

  /**
   * The merge of the three extracted dicts and the three extra entries. The
   * key groups are disjoint, so every key keeps the value of its group.
   */
  function MergeFeatures(temporal: Features, amount: Features, frequency: Features,
                         cardPresent: real, typeCode: real, risk: real): (f: Features)
    requires temporal.Keys == TemporalKeys && amount.Keys == AmountKeys && frequency.Keys == FrequencyKeys
    ensures f.Keys == FeatureKeys
    ensures forall k :: k in TemporalKeys ==> f[k] == temporal[k]
    ensures forall k :: k in AmountKeys ==> f[k] == amount[k]
    ensures forall k :: k in FrequencyKeys ==> f[k] == frequency[k]
    ensures f[CardPresent] == cardPresent && f[TransactionTypeEncoded] == typeCode
    ensures f[LocationRiskiness] == risk
  {
    KeyGroupsDisjoint();
    var features := temporal + amount + frequency;
    var features := features[CardPresent := cardPresent];
    var features := features[TransactionTypeEncoded := typeCode];
    features[LocationRiskiness := risk]
  }

  lemma KeyGroupsDisjoint()
    ensures TemporalKeys !! AmountKeys && TemporalKeys !! FrequencyKeys && TemporalKeys !! ExtraKeys
    ensures AmountKeys !! FrequencyKeys && AmountKeys !! ExtraKeys && FrequencyKeys !! ExtraKeys
  {
  }

  /**
   * create_feature_vector: the transaction's 'timestamp', 'amount' and
   * 'customer_id' are read with [] and raise when absent, in that order;
   * an unparseable timestamp raises too. Everything else has a default.
   */
  function CreateFeatureVector(t: Transaction, h: History, num: Numerics): (r: Result<Features, FeatureError>)
    ensures r.Success? <==> t.timestamp.Some? && t.timestamp.value.Parsed? && t.amount.Some? && t.customerId.Some?
    ensures t.timestamp.None? ==> r == Failure(MissingKey("timestamp"))
    ensures r.Success? ==> r.value.Keys == FeatureKeys
  {
    if t.timestamp.None? then Failure(MissingKey("timestamp"))
    else if t.timestamp.value.Unparseable? then Failure(InvalidTimestamp)
    else if t.amount.None? then Failure(MissingKey("amount"))
    else if t.customerId.None? then Failure(MissingKey("customer_id"))
    else
      var ts := t.timestamp.value;
      Success(MergeFeatures(
        TemporalFeatures(ts.hour, ts.weekday, ts.day),
        AmountFeatures(t.amount.value, GetOr(h.amounts, []), num),
        FrequencyFeatures(GetOr(h.txn1h, 0), GetOr(h.txn24h, 0)),
        CardPresentValue(t.cardPresent),
        EncodeTransactionType(GetOr(t.transactionType, "")) as real,
        LocationRisk(GetOr(t.location, ""))))
  }

  /** The feature map always has exactly 15 keys: 5 temporal, 4 amount, 3 frequency and 3 extra. */
  lemma FeatureCount()
    ensures |TemporalKeys| == 5 && |AmountKeys| == 4 && |FrequencyKeys| == 3 && |ExtraKeys| == 3
    ensures |FeatureKeys| == 15
  {
    KeyGroupsDisjoint();
  }

  /**
   * Every entry of a derived feature map is its extractor's value: the
   * temporal, amount and frequency groups, card_present, the type code and
   * the location risk. Missing counts default to 0.
   */
  lemma FeatureValues(t: Transaction, h: History, num: Numerics)
    requires CreateFeatureVector(t, h, num).Success?
    ensures var f := CreateFeatureVector(t, h, num).value; var ts := t.timestamp.value;
      forall k :: k in TemporalKeys ==> f[k] == TemporalFeatures(ts.hour, ts.weekday, ts.day)[k]
    ensures var f := CreateFeatureVector(t, h, num).value;
      forall k :: k in AmountKeys ==> f[k] == AmountFeatures(t.amount.value, GetOr(h.amounts, []), num)[k]
    ensures var f := CreateFeatureVector(t, h, num).value;
      forall k :: k in FrequencyKeys ==> f[k] == FrequencyFeatures(GetOr(h.txn1h, 0), GetOr(h.txn24h, 0))[k]
    ensures var f := CreateFeatureVector(t, h, num).value;
      && f[CardPresent] == CardPresentValue(t.cardPresent)
      && f[TransactionTypeEncoded] == EncodeTransactionType(GetOr(t.transactionType, "")) as real
      && f[LocationRiskiness] == LocationRisk(GetOr(t.location, ""))
    ensures var f := CreateFeatureVector(t, h, num).value;
      && f[Hour] == t.timestamp.value.hour as real
      && f[IsWeekend] == (if t.timestamp.value.weekday >= 5 then 1.0 else 0.0)
      && f[Amount] == t.amount.value
      && f[AmountLog] == num.log1p(t.amount.value)
      && f[Transactions1h] == (if h.txn1h.Some? then h.txn1h.value as real else 0.0)
      && f[Transactions24h] == (if h.txn24h.Some? then h.txn24h.value as real else 0.0)
  {
    assert Hour in TemporalKeys && IsWeekend in TemporalKeys;
    assert Amount in AmountKeys && AmountLog in AmountKeys;
    assert Transactions1h in FrequencyKeys && Transactions24h in FrequencyKeys;
  }

  /**
   * The defaults of a derived feature map: missing amounts count as the
   * one-sample history [amount], a missing card_present as 0, a missing
   * type as '' (code 0) and a missing location as '' (no risk).
   */
  lemma FeatureDefaults(t: Transaction, h: History, num: Numerics)
    requires CreateFeatureVector(t, h, num).Success?
    ensures var f := CreateFeatureVector(t, h, num).value;
      && (h.amounts.None? ==> f == CreateFeatureVector(t, h.(amounts := Some([t.amount.value])), num).value)
      && f[CardPresent] == (if t.cardPresent == Some(true) then 1.0 else 0.0)
      && (t.transactionType.None? ==> f[TransactionTypeEncoded] == 0.0)
      && (t.location.None? ==> f[LocationRiskiness] == 0.0)
  {
    if h.amounts.None? {
      EmptyHistoryIsOwnSample(t.amount.value, num);
    }
  }

  // ---------------------------------------------------------- model inputs

  /** features.get(key, 0) */
  function Lookup(f: Features, key: Feature): (r: real)
    ensures key in f ==> r == f[key]
    ensures key !in f ==> r == 0.0
  {
    if key in f then f[key] else 0.0
  }

  /** The vector handed to the scaler: the 8 model inputs in their fixed order, 0 for an absent key. */
  function ModelInputs(f: Features): (v: seq<real>)
    ensures |v| == |ModelInputKeys| == 8
    ensures forall i :: 0 <= i < 8 ==> v[i] == (if ModelInputKeys[i] in f then f[ModelInputKeys[i]] else 0.0)
  {
    seq(8, i requires 0 <= i < 8 => Lookup(f, ModelInputKeys[i]))
  }

  /** On a map that has all 8 model inputs, the projection reads them in order. */
  lemma ModelInputsOfComplete(f: Features)
    requires forall k :: k in ModelInputKeys ==> k in f
    ensures ModelInputs(f) == [f[Amount], f[AmountLog], f[Transactions1h], f[Transactions24h],
                               f[CardPresent], f[Hour], f[IsWeekend], f[AmountDeviation]]
  {
  }

  /** On a derived feature map the projection is amount, log1p(amount), the two counts, card_present, hour, is_weekend, deviation. */
  lemma ModelInputsOfFeatures(t: Transaction, h: History, num: Numerics)
    requires CreateFeatureVector(t, h, num).Success?
    ensures var f := CreateFeatureVector(t, h, num).value;
      ModelInputs(f) == [t.amount.value, num.log1p(t.amount.value),
                         f[Transactions1h], f[Transactions24h], f[CardPresent],
                         t.timestamp.value.hour as real, f[IsWeekend], f[AmountDeviation]]
  {
    FeatureValues(t, h, num);
    var f := CreateFeatureVector(t, h, num).value;
    assert f.Keys == FeatureKeys;
    assert forall k :: k in ModelInputKeys ==> k in FeatureKeys;
    ModelInputsOfComplete(f);
  }

  /** An empty map projects to eight zeros. */
  lemma ModelInputsOfEmpty()
    ensures ModelInputs(map[]) == [0.0, 0.0, 0.0, 0.0, 0.0, 0.0, 0.0, 0.0]
  {
  }
}
