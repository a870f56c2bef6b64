/**
 * The business rules of the trading controller: the checks `executeTrade` makes
 * before it stores a trade, the record it stores, and the action check of
 * `controlAlgorithms`. The database is not modelled: today's FILLED quantities
 * and the MAX_TRADING_VOLUME setting are inputs, and the trade id is a parameter.
 *
 * Quantities and prices are `real`: exact arithmetic standing in for JS numbers.
 */
module Trading {
  import opened Wrappers

  /**
   * The request body of a trade. `None` is a field that is absent; a present
   * field keeps its value, so falsy values ("" and 0) are still visible.
   */
  datatype TradeRequest = TradeRequest(
    currencyPair: Option<string>,
    side: Option<string>,
    quantity: Option<real>,
    executionType: Option<string>,
    stopLoss: Option<real>,
    takeProfit: Option<real>,
    algorithm: Option<string>,
    userId: Option<string>)

  /** The row `executeTrade` inserts into the trades table. */
  datatype TradeRecord = TradeRecord(
    id: string,
    userId: string,
    currencyPair: string,
    side: string,
    quantity: real,
    price: real,
    status: string,
    algorithm: string,
    executionType: string,
    stopLoss: Option<real>,
    takeProfit: Option<real>,
    profitLoss: real)

  /** The two rejections `executeTrade` answers with status 400. */
  datatype TradeError =
    | MissingParameters
    | VolumeLimitExceeded(currentVolume: real, requestedQuantity: real, maxVolume: real)

  const FilledStatus := "FILLED"
  const DefaultMaxVolume: real := 10000000.0
  const DefaultPrice: real := 1.0
  const DefaultExecutionType := "MARKET"
  const DefaultAlgorithm := "MANUAL"
  const DefaultUserId := "demo-user"

  /** The `error` text of each rejection. */
  function Message(e: TradeError): (text: string)
    ensures text == "Missing required trade parameters" <==> e.MissingParameters?
    ensures e.VolumeLimitExceeded? ==> text == "Trading volume limit exceeded"
  {
    match e
    case MissingParameters => "Missing required trade parameters"
    case VolumeLimitExceeded(_, _, _) => "Trading volume limit exceeded"
  }

  /** JS truthiness of an optional string: present and not empty. */
  predicate TruthyText(s: Option<string>) {
    s.Some? && s.value != ""
  }

  /** JS truthiness of an optional number: present and not zero (NaN is not modelled). */
  predicate TruthyNumber(x: Option<real>) {
    x.Some? && x.value != 0.0
  }

  /** The validation guard: currency pair, side and quantity must all be truthy. */
  predicate HasRequiredFields(req: TradeRequest) {
    TruthyText(req.currencyPair) && TruthyText(req.side) && TruthyNumber(req.quantity)
  }

  /**
   * The daily limit: the configured value when the setting is present and not
   * empty, otherwise ten million.
   */
  function MaxVolume(setting: Option<real>): (limit: real)
    ensures setting.None? ==> limit == 10000000.0
    ensures setting.Some? ==> limit == setting.value
  {
    match setting
    case None => DefaultMaxVolume
    case Some(v) => v
  }

  /** The left fold `reduce((sum, q) => sum + q, 0)`. */
  function Sum(qs: seq<real>): real
    decreases |qs|
  {
    if qs == [] then 0.0 else Sum(qs[..|qs| - 1]) + qs[|qs| - 1]
  }

  /** Summing a concatenation sums its parts. */
  lemma {:induction false} SumConcat(a: seq<real>, b: seq<real>)
    ensures Sum(a + b) == Sum(a) + Sum(b)
    decreases |b|
  {
    if b == [] {
      assert a + b == a;
    } else {
      var init := b[..|b| - 1];
      assert (a + b)[..|a + b| - 1] == a + init;
      assert (a + b)[|a + b| - 1] == b[|b| - 1];
      SumConcat(a, init);
    }
  }

  /** A sum of quantities none of which is negative is not negative. */
  lemma {:induction false} SumNonNegative(qs: seq<real>)
    requires forall i :: 0 <= i < |qs| ==> qs[i] >= 0.0
    ensures Sum(qs) >= 0.0
    decreases |qs|
  {
    if qs != [] {
      SumNonNegative(qs[..|qs| - 1]);
    }
  }

  /** The quantities of today's FILLED trades as the query returned them; `None` is no data. */
  function Filled(today: Option<seq<real>>): seq<real> {
    if today.None? then [] else today.value
  }

  /** Today's traded volume: the sum of today's FILLED quantities, or 0 without data. */
  function CurrentVolume(today: Option<seq<real>>): (volume: real)
    ensures today.None? ==> volume == 0.0
  {
    Sum(Filled(today))
  }

  /** Today's volume is not negative when no FILLED quantity is. */
  lemma CurrentVolumeNonNegative(today: Option<seq<real>>)
    requires forall i :: 0 <= i < |Filled(today)| ==> Filled(today)[i] >= 0.0
    ensures CurrentVolume(today) >= 0.0
  {
    SumNonNegative(Filled(today));
  }

  /** The mock price table. */
  const MockPrices: map<string, real> := map[
    "EUR/USD" := 1.0856,
    "GBP/USD" := 1.2534,
    "USD/JPY" := 149.32,
    "USD/CHF" := 0.9145,
    "AUD/USD" := 0.6542]

  /** The executed price: the table value, or 1.0000 for a pair the table lacks. */
  function ExecutedPrice(pair: string): (price: real)
    ensures price > 0.0
    ensures pair in MockPrices ==> price == MockPrices[pair]
    ensures pair !in MockPrices ==> price == 1.0
  {
    if pair in MockPrices then MockPrices[pair] else DefaultPrice
  }

  /** `toUpperCase` on one ASCII character. */
  function UpperChar(c: char): (u: char)
    ensures !('a' <= u <= 'z')
    ensures 'a' <= c <= 'z' ==> u as int == c as int - 32 && 'A' <= u <= 'Z'
    ensures !('a' <= c <= 'z') ==> u == c
  {
    if 'a' <= c <= 'z' then (c as int - 32) as char else c
  }

  /** `toUpperCase` on an ASCII string: same length, no lower-case letter left. */
  function Upper(s: string): (r: string)
    ensures |r| == |s|
    ensures forall i :: 0 <= i < |r| ==> !('a' <= r[i] <= 'z')
    ensures forall i :: 0 <= i < |r| && !('a' <= s[i] <= 'z') ==> r[i] == s[i]
    ensures forall i :: 0 <= i < |r| ==> r[i] == UpperChar(s[i])
  {
    seq(|s|, i requires 0 <= i < |s| => UpperChar(s[i]))
  }

  /** Upper-casing twice is upper-casing once. */
  lemma UpperIdempotent(s: string)
    ensures Upper(Upper(s)) == Upper(s)
  {
  }

  /** A stop-loss or take-profit: kept when truthy, null otherwise. */
  function Protective(x: Option<real>): (r: Option<real>)
    ensures r.Some? <==> TruthyNumber(x)
    ensures r.Some? ==> r == x
  {
    if TruthyNumber(x) then x else None
  }

  /** A field with a default that applies only when the field is absent. */
  function OrDefault(x: Option<string>, default: string): (r: string)
    ensures x.None? ==> r == default
    ensures x.Some? ==> r == x.value
  {
    match x
    case None => default
    case Some(v) => v
  }

  /** The record stored for an accepted request. */
  function Record(req: TradeRequest, tradeId: string): (t: TradeRecord)
    requires HasRequiredFields(req)
    ensures t.id == tradeId && t.currencyPair == req.currencyPair.value && t.quantity == req.quantity.value
    ensures t.side == Upper(req.side.value) && |t.side| == |req.side.value|
    ensures t.status == "FILLED" && t.profitLoss == 0.0
    ensures t.price == ExecutedPrice(req.currencyPair.value) && t.price > 0.0
    ensures t.stopLoss.None? <==> !TruthyNumber(req.stopLoss)
    ensures TruthyNumber(req.stopLoss) ==> t.stopLoss == req.stopLoss
    ensures t.takeProfit.None? <==> !TruthyNumber(req.takeProfit)
    ensures TruthyNumber(req.takeProfit) ==> t.takeProfit == req.takeProfit
    ensures t.algorithm == OrDefault(req.algorithm, "MANUAL")
    ensures t.executionType == OrDefault(req.executionType, "MARKET")
    ensures t.userId == OrDefault(req.userId, "demo-user")
    ensures req.algorithm.None? ==> t.algorithm == "MANUAL"
    ensures req.executionType.None? ==> t.executionType == "MARKET"
    ensures req.userId.None? ==> t.userId == "demo-user"
  {
    TradeRecord(
      tradeId,
      OrDefault(req.userId, DefaultUserId),
      req.currencyPair.value,
      Upper(req.side.value),
      req.quantity.value,
      ExecutedPrice(req.currencyPair.value),
      FilledStatus,
      OrDefault(req.algorithm, DefaultAlgorithm),
      OrDefault(req.executionType, DefaultExecutionType),
      Protective(req.stopLoss),
      Protective(req.takeProfit),
      0.0)
  }

  /**
   * `executeTrade` up to the insert: validate, check the daily limit, price
   * and build the record. `today` is what the query for today's FILLED
   * quantities returned and `setting` the MAX_TRADING_VOLUME value.
   */
  function ExecuteTrade(req: TradeRequest, today: Option<seq<real>>, setting: Option<real>,
                        tradeId: string): (r: Result<TradeRecord, TradeError>)
    ensures r == Failure(MissingParameters) <==> !HasRequiredFields(req)
    ensures HasRequiredFields(req) ==>
      (r.Failure? <==> CurrentVolume(today) + req.quantity.value > MaxVolume(setting))
    ensures r.Failure? && r.error.VolumeLimitExceeded? ==>
      r.error == VolumeLimitExceeded(CurrentVolume(today), req.quantity.value, MaxVolume(setting))
    ensures r.Success? ==> r.value == Record(req, tradeId)
  {
    if !HasRequiredFields(req) then
      Failure(MissingParameters)
    else
      var current, quantity, limit := CurrentVolume(today), req.quantity.value, MaxVolume(setting);
      if current + quantity > limit then
        Failure(VolumeLimitExceeded(current, quantity, limit))
      else
        Success(Record(req, tradeId))
  }

  /** Validation comes first: a request missing a field is rejected whatever the volumes. */
  lemma ValidationBeforeVolume(req: TradeRequest, today: Option<seq<real>>, today': Option<seq<real>>,
                               setting: Option<real>, setting': Option<real>, tradeId: string)
    requires !HasRequiredFields(req)
    ensures ExecuteTrade(req, today, setting, tradeId) == ExecuteTrade(req, today', setting', tradeId)
    ensures Message(ExecuteTrade(req, today, setting, tradeId).error) == "Missing required trade parameters"
  {
  }

  /** Reaching the limit exactly is allowed. */
  lemma ExactLimitAccepted(req: TradeRequest, today: Option<seq<real>>, setting: Option<real>, tradeId: string)
    requires HasRequiredFields(req)
    requires CurrentVolume(today) + req.quantity.value == MaxVolume(setting)
    ensures ExecuteTrade(req, today, setting, tradeId).Success?
  {
  }

  /**
   * An accepted trade keeps the day within the limit: counting the new trade
   * among today's FILLED trades gives a volume of at most the limit.
   */
  lemma AcceptedStaysWithinLimit(req: TradeRequest, today: Option<seq<real>>, setting: Option<real>,
                                 tradeId: string)
    requires ExecuteTrade(req, today, setting, tradeId).Success?
    ensures CurrentVolume(Some(Filled(today) + [req.quantity.value])) <= MaxVolume(setting)
  {
    var q := req.quantity.value;
    SumConcat(Filled(today), [q]);
    assert Sum([q]) == q by {
      assert [q][..0] == [];
    }
  }

  /**
   * A rejection for volume persists: more FILLED trades later in the day, none
   * with a negative quantity, keep the same request rejected.
   */
  lemma RejectionPersists(req: TradeRequest, today: Option<seq<real>>, more: seq<real>,
                          setting: Option<real>, tradeId: string)
    requires HasRequiredFields(req)
    requires ExecuteTrade(req, today, setting, tradeId).Failure?
    requires forall i :: 0 <= i < |more| ==> more[i] >= 0.0
    ensures ExecuteTrade(req, Some(Filled(today) + more), setting, tradeId).Failure?
    ensures ExecuteTrade(req, Some(Filled(today) + more), setting, tradeId).error.VolumeLimitExceeded?
  {
    SumConcat(Filled(today), more);
    SumNonNegative(more);
  }

  /** The reply of `controlAlgorithms` on success. */
  datatype ControlReply = ControlReply(action: string, algorithmsAffected: nat, status: string)

  const InvalidAction := "Invalid action. Use \"start\" or \"stop\""

  predicate KnownAction(action: string) {
    action == "start" || action == "stop"
  }

  /** The status text as `controlAlgorithms` builds it: the action with "ed" appended. */
  function StatusAsWritten(action: string): string {
    "Algorithmic trading " + action + "ed successfully"
  }

  /** Appending "ed" misspells "stop": the as-written status says "stoped". */
  lemma StopStatusMisspelt()
    ensures StatusAsWritten("stop") == "Algorithmic trading stoped successfully"
    ensures StatusAsWritten("stop") != "Algorithmic trading stopped successfully"
  {
  }

  /** The status text with the past tense spelt correctly. */
  function Status(action: string): (status: string)
    requires KnownAction(action)
    ensures action == "start" ==> status == StatusAsWritten(action)
    ensures action == "stop" ==> status == "Algorithmic trading stopped successfully"
  {
    "Algorithmic trading " + (if action == "start" then "started" else "stopped") + " successfully"
  }

  /**
   * `controlAlgorithms`: reject any action other than start or stop; otherwise
   * report the number of algorithm types named, or 1 when the list is absent
   * or empty, with the status text built by appending "ed" to the action.
   */
  function ControlAlgorithms(action: string, algorithmTypes: Option<seq<string>>): (r: Result<ControlReply, string>)
    ensures r.Success? <==> KnownAction(action)
    ensures r.Failure? ==> r.error == "Invalid action. Use \"start\" or \"stop\""
    ensures r.Success? ==> r.value.action == action && r.value.algorithmsAffected >= 1
    ensures r.Success? && algorithmTypes.Some? && |algorithmTypes.value| > 0 ==>
      r.value.algorithmsAffected == |algorithmTypes.value|
    ensures r.Success? && (algorithmTypes.None? || algorithmTypes.value == []) ==>
      r.value.algorithmsAffected == 1
    ensures r.Success? ==> r.value.status == StatusAsWritten(action)
  {
    if !KnownAction(action) then
      Failure(InvalidAction)
    else
      var types := if algorithmTypes.None? then [] else algorithmTypes.value;
      Success(ControlReply(action, if |types| == 0 then 1 else |types|, StatusAsWritten(action)))
  }

  /** `controlAlgorithms` with the status spelt correctly. */
  function ControlAlgorithmsIntended(action: string, algorithmTypes: Option<seq<string>>)
    : (r: Result<ControlReply, string>)
    ensures r.Success? <==> KnownAction(action)
    ensures r.Success? ==> r.value.status == Status(action)
    ensures action == "stop" ==> r.value.status == "Algorithmic trading stopped successfully"
  {
    match ControlAlgorithms(action, algorithmTypes)
    case Failure(e) => Failure(e)
    case Success(reply) => Success(reply.(status := Status(action)))
  }

  /**
   * The corrected reply differs from the written one only in the status text,
   * and only for "stop": the two agree on every other input.
   */
  lemma IntendedDiffersOnlyOnStop(action: string, algorithmTypes: Option<seq<string>>)
    ensures var written, intended := ControlAlgorithms(action, algorithmTypes),
                                     ControlAlgorithmsIntended(action, algorithmTypes);
      && (action != "stop" ==> intended == written)
      && (action == "stop" ==> intended != written
                               && intended == Success(written.value.(status := Status(action))))
  {
    if action == "stop" {
      StopStatusMisspelt();
    }
  }
}
