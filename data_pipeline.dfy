/**
 * Record validation and preprocessing (src/data_pipeline.py): the pydantic
 * TransactionRecord with its positive-amount validator, the result triple
 * of validate_transaction, and the flat dict preprocess_transaction builds.
 *
 * The Kafka consumer, the PostgreSQL connection and writes, and the Redis
 * client are not part of this model.
 */
module DataPipeline {
  import opened Wrappers
  import Utils

  /** A value of a raw JSON-like dict. */
  datatype Value = Str(s: string) | Float(x: real) | Int(i: int) | Bool(b: bool) | Null

  type RawRecord = map<string, Value>

  datatype TransactionRecord = TransactionRecord(
    transactionId: string,
    customerId: string,
    amount: real,
    merchantId: string,
    timestamp: string,
    location: string,
    deviceId: string,
    transactionType: string,
    cardPresent: bool)

  /** One entry of a pydantic ValidationError. */
  datatype FieldError =
    | Missing(field: string)
    | WrongType(field: string)
    | NotPositive  // 'Amount must be positive'

  /** (is_valid, record, error): the record on success, the errors on failure. */
  datatype Validation = Validation(ok: bool, record: Option<TransactionRecord>, error: Option<seq<FieldError>>)

  const StringFields: set<string> :=
    {"transaction_id", "customer_id", "merchant_id", "timestamp", "location", "device_id", "transaction_type"}

  // ------------------------------------------------------------ coercion

  /** A string field accepts only strings. */
  function AsString(v: Value): (r: Option<string>)
    ensures r.Some? <==> v.Str?
    ensures r.Some? ==> r.value == v.s
  {
    match v
    case Str(s) => Some(s)
    case _ => None
  }

  /** A float field accepts floats, ints and booleans (True is 1.0, False is 0.0). */
  function AsFloat(v: Value): (r: Option<real>)
    ensures r.Some? <==> v.Float? || v.Int? || v.Bool?
    ensures v.Float? ==> r == Some(v.x)
    ensures v.Int? ==> r == Some(v.i as real)
    ensures v.Bool? ==> r == Some(if v.b then 1.0 else 0.0)
  {
    match v
    case Float(x) => Some(x)
    case Int(i) => Some(i as real)
    case Bool(b) => Some(if b then 1.0 else 0.0)
    case _ => None
  }

  /** A bool field accepts booleans and the numbers 0 and 1, as ints or floats. */
  function AsBool(v: Value): (r: Option<bool>)
    ensures r == Some(true) <==> v == Bool(true) || v == Int(1) || v == Float(1.0)
    ensures r == Some(false) <==> v == Bool(false) || v == Int(0) || v == Float(0.0)
  {
    match v
    case Bool(b) => Some(b)
    case Int(i) => if i == 0 then Some(false) else if i == 1 then Some(true) else None
    case Float(x) => if x == 0.0 then Some(false) else if x == 1.0 then Some(true) else None
    case _ => None
  }

  /** The amount validator: a non-positive amount is rejected, a positive one passes unchanged. */
  function AmountMustBePositive(v: real): (r: Result<real, FieldError>)
    ensures r.Success? <==> v > 0.0
    ensures r.Success? ==> r.value == v
    ensures r.Failure? ==> r.error == NotPositive
  {
    if v <= 0.0 then Failure(NotPositive) else Success(v)
  }

  // ---------------------------------------------------------- validation

  /** A required string field: missing, of the wrong kind, or fine. */
  function StringErrors(raw: RawRecord, field: string): (r: seq<FieldError>)
    ensures NotPositive !in r
    ensures r == [] <==> field in raw && AsString(raw[field]).Some?
    ensures field !in raw ==> r == [Missing(field)]
    ensures field in raw && AsString(raw[field]).None? ==> r == [WrongType(field)]
  {
    if field !in raw then [Missing(field)]
    else if AsString(raw[field]).None? then [WrongType(field)]
    else []
  }

  /** The amount is required, numeric and positive; at most one error is reported for it. */
  function AmountErrors(raw: RawRecord): (r: seq<FieldError>)
    ensures |r| <= 1
    ensures r == [] <==> "amount" in raw && AsFloat(raw["amount"]).Some? && AsFloat(raw["amount"]).value > 0.0
    ensures "amount" !in raw ==> r == [Missing("amount")]
    ensures "amount" in raw && AsFloat(raw["amount"]).None? ==> r == [WrongType("amount")]
    ensures NotPositive in r <==> "amount" in raw && AsFloat(raw["amount"]).Some? && AsFloat(raw["amount"]).value <= 0.0
  {
    if "amount" !in raw then [Missing("amount")]
    else match AsFloat(raw["amount"])
      case None => [WrongType("amount")]
      case Some(x) => if AmountMustBePositive(x).Failure? then [NotPositive] else []
  }

  /** A required bool field: missing, of the wrong kind, or fine. */
  function BoolErrors(raw: RawRecord, field: string): (r: seq<FieldError>)
    ensures NotPositive !in r
    ensures r == [] <==> field in raw && AsBool(raw[field]).Some?
    ensures field !in raw ==> r == [Missing(field)]
    ensures field in raw && AsBool(raw[field]).None? ==> r == [WrongType(field)]
  {
    if field !in raw then [Missing(field)]
    else if AsBool(raw[field]).None? then [WrongType(field)]
    else []
  }

  /** Every field is checked, in declaration order, and all errors are reported together. */
  function RecordErrors(raw: RawRecord): (r: seq<FieldError>)
    ensures forall f :: f in StringFields && f !in raw ==> Missing(f) in r
    ensures "amount" !in raw ==> Missing("amount") in r
    ensures "card_present" !in raw ==> Missing("card_present") in r
    ensures NotPositive in r <==> "amount" in raw && AsFloat(raw["amount"]).Some? && AsFloat(raw["amount"]).value <= 0.0
  {
    StringErrors(raw, "transaction_id") + StringErrors(raw, "customer_id") + AmountErrors(raw)
    + StringErrors(raw, "merchant_id") + StringErrors(raw, "timestamp") + StringErrors(raw, "location")
    + StringErrors(raw, "device_id") + StringErrors(raw, "transaction_type") + BoolErrors(raw, "card_present")
  }

  /** A raw dict without errors has every field, of the right kind, and a positive amount. */
  ghost predicate WellFormed(raw: RawRecord)
  {
    && (forall f :: f in StringFields ==> f in raw && AsString(raw[f]).Some?)
    && "amount" in raw && AsFloat(raw["amount"]).Some? && AsFloat(raw["amount"]).value > 0.0
    && "card_present" in raw && AsBool(raw["card_present"]).Some?
  }

  lemma NoErrorsIsWellFormed(raw: RawRecord)
    ensures RecordErrors(raw) == [] <==> WellFormed(raw)
  {
    if RecordErrors(raw) == [] {
      forall f | f in StringFields ensures f in raw && AsString(raw[f]).Some? {
        assert StringErrors(raw, f) == [];
      }
    }
  }

  /** TransactionRecord(**record): every field is its key's coerced value. */
  function Build(raw: RawRecord): (r: TransactionRecord)
    requires WellFormed(raw)
    ensures Str(r.transactionId) == raw["transaction_id"] && Str(r.customerId) == raw["customer_id"]
    ensures Str(r.merchantId) == raw["merchant_id"] && Str(r.timestamp) == raw["timestamp"]
    ensures Str(r.location) == raw["location"] && Str(r.deviceId) == raw["device_id"]
    ensures Str(r.transactionType) == raw["transaction_type"]
    ensures Some(r.amount) == AsFloat(raw["amount"]) && r.amount > 0.0
    ensures Some(r.cardPresent) == AsBool(raw["card_present"])
  {
    TransactionRecord(
      AsString(raw["transaction_id"]).value, AsString(raw["customer_id"]).value,
      AsFloat(raw["amount"]).value, AsString(raw["merchant_id"]).value,
      AsString(raw["timestamp"]).value, AsString(raw["location"]).value,
      AsString(raw["device_id"]).value, AsString(raw["transaction_type"]).value,
      AsBool(raw["card_present"]).value)
  }

  /**
   * validate_transaction: (True, record, None) when the dict makes a
   * TransactionRecord, else (False, None, errors). Extra keys are ignored.
   */
  function ValidateTransaction(raw: RawRecord): (v: Validation)
    ensures v.ok <==> v.record.Some?
    ensures v.ok <==> v.error.None?
    ensures !v.ok ==> v.error.value != []
    ensures v.ok ==> v.record.value.amount > 0.0
    ensures v.ok ==> Utils.ValidateTransactionData(raw)
    ensures v.ok <==> WellFormed(raw)
    ensures v.ok ==> v.record.value == Build(raw)
    ensures !v.ok ==> v.error.value == RecordErrors(raw)
  {
    NoErrorsIsWellFormed(raw);
    var errors := RecordErrors(raw);
    if errors == [] then Validation(true, Some(Build(raw)), None)
    else Validation(false, None, Some(errors))
  }

  /** A non-positive amount is reported, whatever else is wrong. */
  lemma NonPositiveAmountIsReported(raw: RawRecord)
    requires "amount" in raw && AsFloat(raw["amount"]).Some? && AsFloat(raw["amount"]).value <= 0.0
    ensures !ValidateTransaction(raw).ok
    ensures NotPositive in ValidateTransaction(raw).error.value
  {
  }

  // -------------------------------------------------------- preprocessing

  const ProcessedKeys: set<string> :=
    {"transaction_id", "customer_id", "amount", "merchant_id", "timestamp", "location",
     "device_id", "transaction_type", "card_present", "processed_at"}

  /** preprocess_transaction; processed_at is the clock reading, passed in. */
  function PreprocessTransaction(t: TransactionRecord, processedAt: string): (d: RawRecord)
    ensures d.Keys == ProcessedKeys
    ensures d["card_present"] == Int(if t.cardPresent then 1 else 0)
    ensures d["processed_at"] == Str(processedAt)
    ensures Utils.ValidateTransactionData(d)
  {
    map["transaction_id" := Str(t.transactionId),
        "customer_id" := Str(t.customerId),
        "amount" := Float(t.amount),
        "merchant_id" := Str(t.merchantId),
        "timestamp" := Str(t.timestamp),
        "location" := Str(t.location),
        "device_id" := Str(t.deviceId),
        "transaction_type" := Str(t.transactionType),
        "card_present" := Int(if t.cardPresent then 1 else 0),
        "processed_at" := Str(processedAt)]
  }

  lemma ProcessedKeyCount()
    ensures |ProcessedKeys| == 10
  {
  }

  /**
   * Preprocessing copies every field: validating the processed dict gives
   * back the record it came from (processed_at is an extra key and ignored).
   */
  lemma PreprocessRoundTrip(t: TransactionRecord, processedAt: string)
    requires t.amount > 0.0
    ensures ValidateTransaction(PreprocessTransaction(t, processedAt)) == Validation(true, Some(t), None)
  {
    var d := PreprocessTransaction(t, processedAt);
    assert WellFormed(d) by {
      forall f | f in StringFields ensures f in d && AsString(d[f]).Some? {
      }
    }
    assert Build(d) == t;
  }
}
