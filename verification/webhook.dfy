/**
 * The decision table of the `/webhook` endpoint, without Flask or Telegram:
 * classify the alert message, fill in the bar defaults, call the
 * calculator, and compute the reward-to-risk ratio shown to the user.
 *
 * Delivering a notification is a call into the messaging bot; it is a
 * parameter here (`delivered`), and a failed delivery is answered with the
 * generic error response, as the endpoint's outer `except` does.
 */
module Webhook {
  import opened Options
  import opened Rounding
  import opened Text
  import opened TradeLevels

  /** The display ratio is rounded to one decimal. */
  const RatioDigits: nat := 1

  /** Distance of the default bar high and low from the close. */
  const DefaultBarOffset: real := 2.0

  /** How an alert message is read. */
  datatype Alert = Management | Entry(direction: Direction) | Unknown

  /**
   * The fields of the inbound JSON payload the decision depends on:
   * `close` (already converted by `float()`), `message`, and the optional
   * `high`, `low`, `vah`, `poc`, `val`.
   */
  datatype Payload = Payload(close: real, message: string, high: Field, low: Field, vah: Field, poc: Field, val: Field)

  /** The endpoint's JSON answers. */
  datatype Response =
    | ManagementForwarded(text: string)   // {"status": "success", "type": "management"}, message sent as is
    | EntryForwarded(direction: Direction, entry: real, sl: real, tp1: real, tp2: real, rr: real)
                                          // {"status": "success", "type": "entry", "levels": {...}}
    | Rejected                            // {"status": "rejected", "reason": "RR < 1:1"}
    | UnknownAlert                        // {"status": "unknown_alert"}, HTTP 400
    | Failed                              // {"status": "error", ...}, HTTP 500

  /** Trade-management keywords; matched case-sensitively. */
  const ManagementKeywords: seq<string> := ["TP1", "TP2", "BE", "SL"]

  /** `any(keyword in message for keyword in [...])` */
  predicate IsManagement(message: string) {
    exists keyword | keyword in ManagementKeywords :: Contains(message, keyword)
  }

  /** `'BUY' in message.upper()`, else `'SELL' in message.upper()`. */
  function DetectDirection(message: string): Option<Direction> {
    var upper := Upper(message);
    if Contains(upper, "BUY") then Some(Long)
    else if Contains(upper, "SELL") then Some(Short)
    else None
  }

  /**
   * Direction detection ignores case: LONG exactly when some window of the
   * message spells BUY in any case; SHORT exactly when none does but one
   * spells SELL.
   */
  lemma DirectionIsCaseless(message: string)
    ensures DetectDirection(message) == Some(Long) <==> exists i :: CaselessAt(message, "BUY", i)
    ensures DetectDirection(message) == Some(Short) <==>
              (!exists i :: CaselessAt(message, "BUY", i)) && exists i :: CaselessAt(message, "SELL", i)
  {
    ContainsUpperIsCaseless(message, "BUY");
    ContainsUpperIsCaseless(message, "SELL");
  }

  /** Some management keyword occurs, as written, at some index of the message. */
  ghost predicate KeywordOccurs(message: string) {
    exists keyword, i :: keyword in ManagementKeywords && OccursAt(message, keyword, i)
  }

  /** Some window of the message spells `word` in any mix of cases. */
  ghost predicate SpelledAnyCase(message: string, word: string) {
    exists i :: CaselessAt(message, word, i)
  }

  /** The keyword test is a search for an occurrence of one of the keywords. */
  lemma ManagementIffKeywordOccurs(message: string)
    ensures IsManagement(message) <==> KeywordOccurs(message)
  {
    forall keyword | keyword in ManagementKeywords {
      ContainsIffOccurs(message, keyword);
    }
  }

  /**
   * The decision table: a management keyword (as written) wins over
   * everything, then a BUY (in any case) over a SELL (in any case); anything
   * else is unknown.
   */
  function Classify(message: string): (a: Alert)
    ensures a == Management <==> KeywordOccurs(message)
    ensures a == Entry(Long) <==> !KeywordOccurs(message) && SpelledAnyCase(message, "BUY")
    ensures a == Entry(Short) <==>
              !KeywordOccurs(message) && !SpelledAnyCase(message, "BUY") && SpelledAnyCase(message, "SELL")
    ensures a == Unknown <==>
              !KeywordOccurs(message) && !SpelledAnyCase(message, "BUY") && !SpelledAnyCase(message, "SELL")
  {
    ManagementIffKeywordOccurs(message);
    DirectionIsCaseless(message);
    if IsManagement(message) then Management
    else match DetectDirection(message)
      case Some(d) => Entry(d)
      case None => Unknown
  }

  /**
   * The `current_data` dictionary the endpoint builds: the bar high and low
   * default to close + 2 and close - 2; the profile levels are passed
   * through, a missing one becoming `None`.
   */
  function FillDefaults(p: Payload): (d: MarketData)
    ensures !d.high.Absent? && !d.low.Absent?
    ensures p.high.Absent? ==> d.high == Num(p.close + DefaultBarOffset)
    ensures p.low.Absent? ==> d.low == Num(p.close - DefaultBarOffset)
    ensures !p.high.Absent? ==> d.high == p.high
    ensures !p.low.Absent? ==> d.low == p.low
    ensures d.vah == (if p.vah.Absent? then Null else p.vah)
    ensures d.poc == (if p.poc.Absent? then Null else p.poc)
    ensures d.val == (if p.val.Absent? then Null else p.val)
  {
    var orNone := (f: Field) => if f.Absent? then Null else f;
    MarketData(
      if p.high.Absent? then Num(p.close + DefaultBarOffset) else p.high,
      if p.low.Absent? then Num(p.close - DefaultBarOffset) else p.low,
      orNone(p.vah), orNone(p.poc), orNone(p.val))
  }

  /**
   * The ratio shown with an entry: TP2's reward over the risk measured from
   * the rounded stop, rounded to one decimal, or 0 when that risk is not
   * positive.
   */
  function DisplayRatio(direction: Direction, entry: real, sl: real, tp2: real): (rr: real)
    ensures Risk(direction, entry, sl) <= 0.0 ==> rr == 0.0
    ensures Risk(direction, entry, sl) > 0.0 ==>
              && OnGrid(rr, RatioDigits)
              && -0.05 <= rr - Reward(direction, entry, tp2) / Risk(direction, entry, sl) <= 0.05
  {
    var risk := Risk(direction, entry, sl);
    var reward := Reward(direction, entry, tp2);
    if risk > 0.0 then Round(reward / risk, RatioDigits) else 0.0
  }

  /**
   * An entry alert: compute the levels, answer a rejection, or forward the
   * levels with the display ratio.
   */
  function HandleEntry(direction: Direction, p: Payload, delivered: bool): (r: Response)
    ensures var t := CalculateTradeLevels(direction, p.close, FillDefaults(p));
      && (r == Rejected <==> t == NoLevels)
      && (r.EntryForwarded? <==> t != NoLevels && delivered)
      && (t != NoLevels && !delivered ==> r == Failed)
      && (r.EntryForwarded? ==>
            && r.direction == direction
            && r.entry == p.close
            && Some(r.sl) == t.sl && Some(r.tp1) == t.tp1 && Some(r.tp2) == t.tp2
            && r.rr == DisplayRatio(direction, p.close, r.sl, r.tp2))
  {
    var t := CalculateTradeLevels(direction, p.close, FillDefaults(p));
    if t.sl.None? then Rejected
    else
      var rr := DisplayRatio(direction, p.close, t.sl.value, t.tp2.value);
      if delivered then EntryForwarded(direction, p.close, t.sl.value, t.tp1.value, t.tp2.value, rr)
      else Failed
  }

  /**
   * The `/webhook` handler, given whether the bot delivered the notification:
   * a message holding a keyword is forwarded verbatim, one spelling BUY or
   * SELL in any case is handled as an entry in that direction (BUY first),
   * and anything else is answered as unknown.
   */
  function HandleAlert(p: Payload, delivered: bool): (r: Response)
    ensures r.ManagementForwarded? <==> KeywordOccurs(p.message) && delivered
    ensures r.ManagementForwarded? ==> r.text == p.message
    ensures r == UnknownAlert <==>
              !KeywordOccurs(p.message) && !SpelledAnyCase(p.message, "BUY") && !SpelledAnyCase(p.message, "SELL")
    ensures !KeywordOccurs(p.message) && SpelledAnyCase(p.message, "BUY") ==> r == HandleEntry(Long, p, delivered)
    ensures !KeywordOccurs(p.message) && !SpelledAnyCase(p.message, "BUY") && SpelledAnyCase(p.message, "SELL") ==>
              r == HandleEntry(Short, p, delivered)
    ensures KeywordOccurs(p.message) && !delivered ==> r == Failed
  {
    match Classify(p.message)
    case Management => if delivered then ManagementForwarded(p.message) else Failed
    case Unknown => UnknownAlert
    case Entry(direction) => HandleEntry(direction, p, delivered)
  }

  // ---------------------------------------------------------------------
  // Properties
  // ---------------------------------------------------------------------

  /** Only a close, no bar and no profile levels. */
  predicate CloseOnly(p: Payload) {
    p.high.Absent? && p.low.Absent? && p.vah.Absent? && p.poc.Absent? && p.val.Absent?
  }

  /**
   * The calculator on a close-only payload: the bar defaults to close -/+ 2,
   * so the stop lands 2.25 away and the 2R and 4R targets 4.5 and 9 away on
   * the other side; on a cent boundary rounding changes nothing.
   */
  lemma DefaultBarLevels(p: Payload, direction: Direction)
    requires CloseOnly(p) && OnGrid(p.close, PriceDigits)
    ensures var e := p.close;
      CalculateTradeLevels(direction, e, FillDefaults(p)) ==
        if direction == Long then Triple(Some(e - 2.25), Some(e + 4.5), Some(e + 9.0))
        else Triple(Some(e + 2.25), Some(e - 4.5), Some(e - 9.0))
  {
    var d := FillDefaults(p);
    var e := p.close;
    NumericPlan(direction, e, d);
    GateIsStrict(direction, e, d);
    assert OnGrid(2.25, PriceDigits) && OnGrid(4.5, PriceDigits) && OnGrid(9.0, PriceDigits);
    OnGridAdd(e, 2.25, PriceDigits);
    OnGridAdd(e, 4.5, PriceDigits);
    OnGridAdd(e, 9.0, PriceDigits);
    if direction == Long {
      assert Plan(direction, e, d).value == Levels(e - 2.25, e + 4.5, e + 9.0);
      RoundOnGrid(e - 2.25, PriceDigits);
      RoundOnGrid(e + 4.5, PriceDigits);
      RoundOnGrid(e + 9.0, PriceDigits);
    } else {
      assert Plan(direction, e, d).value == Levels(e + 2.25, e - 4.5, e - 9.0);
      RoundOnGrid(e + 2.25, PriceDigits);
      RoundOnGrid(e - 4.5, PriceDigits);
      RoundOnGrid(e - 9.0, PriceDigits);
    }
  }

  /**
   * What a caller of the endpoint sees of the defaults: leaving out the bar
   * high or low is the same as sending close + 2 or close - 2, and leaving
   * out VAH, POC or VAL is the same as sending `null`.
   */
  lemma MissingFieldDefaults(direction: Direction, p: Payload, delivered: bool)
    ensures p.high.Absent? ==>
              HandleEntry(direction, p, delivered) == HandleEntry(direction, p.(high := Num(p.close + 2.0)), delivered)
    ensures p.low.Absent? ==>
              HandleEntry(direction, p, delivered) == HandleEntry(direction, p.(low := Num(p.close - 2.0)), delivered)
    ensures p.vah.Absent? ==> HandleEntry(direction, p, delivered) == HandleEntry(direction, p.(vah := Null), delivered)
    ensures p.poc.Absent? ==> HandleEntry(direction, p, delivered) == HandleEntry(direction, p.(poc := Null), delivered)
    ensures p.val.Absent? ==> HandleEntry(direction, p, delivered) == HandleEntry(direction, p.(val := Null), delivered)
  {
    if p.high.Absent? {
      SameDataSameAnswer(direction, p, p.(high := Num(p.close + 2.0)), delivered);
    }
    if p.low.Absent? {
      SameDataSameAnswer(direction, p, p.(low := Num(p.close - 2.0)), delivered);
    }
    if p.vah.Absent? {
      SameDataSameAnswer(direction, p, p.(vah := Null), delivered);
    }
    if p.poc.Absent? {
      SameDataSameAnswer(direction, p, p.(poc := Null), delivered);
    }
    if p.val.Absent? {
      SameDataSameAnswer(direction, p, p.(val := Null), delivered);
    }
  }

  /** An entry alert is answered from its close and the filled-in market data alone. */
  lemma SameDataSameAnswer(direction: Direction, p: Payload, q: Payload, delivered: bool)
    requires p.close == q.close && FillDefaults(p) == FillDefaults(q)
    ensures HandleEntry(direction, p, delivered) == HandleEntry(direction, q, delivered)
  {
  }

  /** The ratio shown for 2.25 of risk and 9 of reward is 4.0. */
  lemma FourToOne(direction: Direction, e: real)
    ensures direction == Long ==> DisplayRatio(direction, e, e - 2.25, e + 9.0) == 4.0
    ensures direction == Short ==> DisplayRatio(direction, e, e + 2.25, e - 9.0) == 4.0
  {
    assert OnGrid(4.0, RatioDigits);
    RoundOnGrid(4.0, RatioDigits);
  }

  /** A close-only entry alert on a cent boundary is forwarded with ratio 4.0. */
  lemma DefaultBarEntry(p: Payload, direction: Direction)
    requires CloseOnly(p) && OnGrid(p.close, PriceDigits)
    ensures HandleEntry(direction, p, true) ==
              if direction == Long then EntryForwarded(Long, p.close, p.close - 2.25, p.close + 4.5, p.close + 9.0, 4.0)
              else EntryForwarded(Short, p.close, p.close + 2.25, p.close - 4.5, p.close - 9.0, 4.0)
  {
    DefaultBarLevels(p, direction);
    FourToOne(direction, p.close);
  }

  /** A message with no upper-case T, B or S holds no management keyword. */
  lemma NoManagementLetters(message: string)
    requires forall i :: 0 <= i < |message| ==> message[i] != 'T' && message[i] != 'B' && message[i] != 'S'
    ensures !IsManagement(message)
  {
    MissingFirstChar(message, "TP1");
    MissingFirstChar(message, "TP2");
    MissingFirstChar(message, "BE");
    MissingFirstChar(message, "SL");
  }

  /** Management keywords are matched as written and win over BUY and SELL. */
  lemma ManagementBeatsBuy()
    ensures Classify("BUY TP1 hit") == Management
  {
    assert Contains("BUY TP1 hit", "TP1");
  }

  /** "BE" inside an ordinary word such as BELOW also reads as management. */
  lemma BelowReadsAsManagement()
    ensures Classify("SELL BELOW VWAP") == Management
  {
    assert Contains("SELL BELOW VWAP", "BE");
  }

  lemma Tp1BuyReads()
    ensures !IsManagement("tp1 buy") && DetectDirection("tp1 buy") == Some(Long)
  {
    NoManagementLetters("tp1 buy");
    assert Upper("tp1 buy") == "TP1 BUY";
    assert Contains("TP1 BUY", "BUY");
  }

  /** Keywords are case-sensitive: a lower-case "tp1" is not management. */
  lemma LowerCaseKeywordIsEntry()
    ensures Classify("tp1 buy") == Entry(Long)
  {
    Tp1BuyReads();
  }

  lemma LongBuyReads()
    ensures !IsManagement("Long: buy") && DetectDirection("Long: buy") == Some(Long)
  {
    NoManagementLetters("Long: buy");
    assert Upper("Long: buy") == "LONG: BUY";
    FoundAt("LONG: BUY", "BUY", 6);
  }

  /** BUY is found in any case. */
  lemma MixedCaseBuy()
    ensures Classify("Long: buy") == Entry(Long)
  {
    LongBuyReads();
  }

  lemma SellNowReads()
    ensures !IsManagement("sell now") && DetectDirection("sell now") == Some(Short)
  {
    NoManagementLetters("sell now");
    assert Upper("sell now") == "SELL NOW";
    MissingFirstChar("SELL NOW", "BUY");
    assert Contains("SELL NOW", "SELL");
  }

  /** SELL is found in any case. */
  lemma LowerCaseSell()
    ensures Classify("sell now") == Entry(Short)
  {
    SellNowReads();
  }

  lemma BuyOrSellReads()
    ensures !IsManagement("buy or sell") && DetectDirection("buy or sell") == Some(Long)
  {
    NoManagementLetters("buy or sell");
    assert Upper("buy or sell") == "BUY OR SELL";
    FoundAt("BUY OR SELL", "BUY", 0);
  }

  /** BUY wins when both words appear. */
  lemma BuyBeatsSell()
    ensures Classify("buy or sell") == Entry(Long)
  {
    BuyOrSellReads();
  }

  /** Neither keyword nor direction: unknown alert. */
  lemma NoKeywordIsUnknown()
    ensures Classify("hello") == Unknown
  {
    NoManagementLetters("hello");
    assert Upper("hello") == "HELLO";
    MissingFirstChar(Upper("hello"), "BUY");
    MissingFirstChar(Upper("hello"), "SELL");
  }
}
