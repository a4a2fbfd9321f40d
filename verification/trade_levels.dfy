/**
 * The trade-level calculator `calculate_trade_levels` of the webhook server.
 *
 * Given a direction, an entry price and the market data of the triggering
 * bar (its high and low, and optionally the volume-profile levels POC, VAH
 * and VAL), it places a stop one tick beyond the bar, picks two targets
 * (the profile levels when they are ordered sensibly, otherwise 2R and 4R),
 * rejects the signal when the first target pays less than the risk, and
 * returns the three prices rounded to cents. Any exception raised on the
 * way is caught and reported exactly like a rejection.
 *
 * The LONG and SHORT branches are written out separately, as the source
 * does; `ShortMirrorsLong` proves that one is the mirror image of the other.
 */
module TradeLevels {
  import opened Options
  import opened Rounding

  /** One tick of the reference instrument (ES futures). */
  const TickSize: real := 0.25

  /** Returned prices are rounded to this many decimals. */
  const PriceDigits: nat := 2

  datatype Direction = Long | Short

  /**
   * One entry of the market-data dictionary handed to the calculator.
   * - `Absent`: the key is missing, so `dict.get(key, default)` yields the default;
   * - `Null`: the key holds `None` (JSON null);
   * - `Num`: the key holds a number;
   * - `Other`: the key holds a non-numeric value (a string, a list, ...); any
   *   arithmetic or comparison with a float raises `TypeError`. `truthy` is
   *   its Python truth value (false for an empty string or list).
   */
  datatype Field = Absent | Null | Num(value: real) | Other(truthy: bool)

  /** The `current_data` dictionary: bar high and low, value-area high, point of control, value-area low. */
  datatype MarketData = MarketData(high: Field, low: Field, vah: Field, poc: Field, val: Field)

  /** The outcome of evaluating Python code that may raise an exception. */
  datatype Try<+T> = Returned(value: T) | Raised

  /** Stop and targets before the reward-to-risk gate and before rounding. */
  datatype Levels = Levels(sl: real, tp1: real, tp2: real)

  /** The tuple `(sl, tp1, tp2)` that `calculate_trade_levels` returns. */
  datatype Triple = Triple(sl: Option<real>, tp1: Option<real>, tp2: Option<real>)

  /** `(None, None, None)`: the signal is rejected (or an exception was caught). */
  const NoLevels: Triple := Triple(None, None, None)

  // ---------------------------------------------------------------------
  // Python semantics of the dictionary entries
  // ---------------------------------------------------------------------

  /** Python truth value of `dict.get(key)`: a missing key and `None` are false, and so is 0. */
  predicate Truthy(f: Field) {
    match f
    case Absent => false
    case Null => false
    case Num(x) => x != 0.0
    case Other(t) => t
  }

  /** `dict.get(key, default)`. */
  function GetOr(f: Field, default: real): (r: Field)
    ensures r.Num? <==> f.Num? || f.Absent?
    ensures r.Num? ==> r.value == (if f.Absent? then default else f.value)
    ensures !f.Absent? ==> r == f
  {
    if f.Absent? then Num(default) else f
  }

  /** `value + delta`: anything but a number raises `TypeError`. */
  function Add(f: Field, delta: real): (r: Try<real>)
    ensures r.Returned? <==> f.Num?
    ensures r.Returned? ==> r.value == f.value + delta
  {
    if f.Num? then Returned(f.value + delta) else Raised
  }

  // ---------------------------------------------------------------------
  // The calculator, branch by branch
  // ---------------------------------------------------------------------

  /** `poc and vah and poc > entry_price and vah > poc`, evaluated left to right. */
  function LongStructure(entry: real, poc: Field, vah: Field): (r: Try<bool>)
    ensures r == Returned(true) <==>
              poc.Num? && vah.Num? && poc.value != 0.0 && vah.value != 0.0 && entry < poc.value < vah.value
    ensures r.Raised? <==> Truthy(poc) && Truthy(vah) && (!poc.Num? || (poc.value > entry && !vah.Num?))
  {
    if !Truthy(poc) || !Truthy(vah) then Returned(false)
    else if !poc.Num? then Raised
    else if !(poc.value > entry) then Returned(false)
    else if !vah.Num? then Raised
    else Returned(vah.value > poc.value)
  }

  /** `poc and val and poc < entry_price and val < poc`, evaluated left to right. */
  function ShortStructure(entry: real, poc: Field, val: Field): (r: Try<bool>)
    ensures r == Returned(true) <==>
              poc.Num? && val.Num? && poc.value != 0.0 && val.value != 0.0 && val.value < poc.value < entry
    ensures r.Raised? <==> Truthy(poc) && Truthy(val) && (!poc.Num? || (poc.value < entry && !val.Num?))
  {
    if !Truthy(poc) || !Truthy(val) then Returned(false)
    else if !poc.Num? then Raised
    else if !(poc.value < entry) then Returned(false)
    else if !val.Num? then Raised
    else Returned(val.value < poc.value)
  }

  /** LONG: stop one tick under the bar's low, targets at POC/VAH or at 2R/4R above the entry. */
  function LongPlan(entry: real, data: MarketData): Try<Levels> {
    var stop := Add(GetOr(data.low, entry), -TickSize);
    if stop.Raised? then Raised
    else
      var sl := stop.value;
      var risk := entry - sl;
      var structure := LongStructure(entry, data.poc, data.vah);
      if structure.Raised? then Raised
      else if structure.value then Returned(Levels(sl, data.poc.value, data.vah.value))
      else Returned(Levels(sl, entry + risk * 2.0, entry + risk * 4.0))
  }

  /** SHORT: stop one tick over the bar's high, targets at POC/VAL or at 2R/4R below the entry. */
  function ShortPlan(entry: real, data: MarketData): Try<Levels> {
    var stop := Add(GetOr(data.high, entry), TickSize);
    if stop.Raised? then Raised
    else
      var sl := stop.value;
      var risk := sl - entry;
      var structure := ShortStructure(entry, data.poc, data.val);
      if structure.Raised? then Raised
      else if structure.value then Returned(Levels(sl, data.poc.value, data.val.value))
      else Returned(Levels(sl, entry - risk * 2.0, entry - risk * 4.0))
  }

  /** The three levels rounded to cents, as returned to the caller. */
  function RoundLevels(lv: Levels): (r: Triple)
    ensures r != NoLevels && r.sl.Some? && r.tp1.Some? && r.tp2.Some?
    ensures OnGrid(r.sl.value, PriceDigits) && -0.005 <= r.sl.value - lv.sl <= 0.005
    ensures OnGrid(r.tp1.value, PriceDigits) && -0.005 <= r.tp1.value - lv.tp1 <= 0.005
    ensures OnGrid(r.tp2.value, PriceDigits) && -0.005 <= r.tp2.value - lv.tp2 <= 0.005
  {
    Triple(Some(Round(lv.sl, PriceDigits)), Some(Round(lv.tp1, PriceDigits)), Some(Round(lv.tp2, PriceDigits)))
  }

  /** LONG gate: reject when TP1 pays strictly less than the risk. */
  function LongGate(entry: real, lv: Levels): Triple {
    var risk := entry - lv.sl;
    var reward := lv.tp1 - entry;
    if reward < risk then NoLevels else RoundLevels(lv)
  }

  /** SHORT gate: reject when TP1 pays strictly less than the risk. */
  function ShortGate(entry: real, lv: Levels): Triple {
    var risk := lv.sl - entry;
    var reward := entry - lv.tp1;
    if reward < risk then NoLevels else RoundLevels(lv)
  }

  /** The body of the `try` block for one direction. */
  function Attempt(direction: Direction, entry: real, data: MarketData): Try<Triple> {
    match direction
    case Long =>
      (match LongPlan(entry, data)
       case Raised => Raised
       case Returned(lv) => Returned(LongGate(entry, lv)))
    case Short =>
      (match ShortPlan(entry, data)
       case Raised => Raised
       case Returned(lv) => Returned(ShortGate(entry, lv)))
  }

  /**
   * `calculate_trade_levels(direction, entry_price, current_data)`: three
   * prices or three `None`s, never a mixture; an exception is caught and
   * answered with `(None, None, None)`.
   */
  function CalculateTradeLevels(direction: Direction, entry: real, data: MarketData): (r: Triple)
    ensures r == NoLevels || (r.sl.Some? && r.tp1.Some? && r.tp2.Some?)
    ensures Attempt(direction, entry, data).Raised? ==> r == NoLevels
  {
    match Attempt(direction, entry, data)
    case Raised => NoLevels
    case Returned(t) => t
  }

  // ---------------------------------------------------------------------
  // The calculator described in trading terms
  // ---------------------------------------------------------------------

  /** The unrounded stop and targets for either direction. */
  function Plan(direction: Direction, entry: real, data: MarketData): Try<Levels> {
    if direction == Long then LongPlan(entry, data) else ShortPlan(entry, data)
  }

  /** Distance from the entry to the stop, positive when the stop is on the losing side. */
  function Risk(direction: Direction, entry: real, sl: real): real {
    if direction == Long then entry - sl else sl - entry
  }

  /** Distance from the entry to a target, positive when the target is on the winning side. */
  function Reward(direction: Direction, entry: real, tp: real): real {
    if direction == Long then tp - entry else entry - tp
  }

  /** `a` lies beyond `b` in the profitable direction. */
  predicate Beyond(direction: Direction, a: real, b: real) {
    if direction == Long then a > b else a < b
  }

  /** The entry price moved `d` in the profitable direction. */
  function Toward(direction: Direction, entry: real, d: real): real {
    if direction == Long then entry + d else entry - d
  }

  /** The bar extreme the stop is placed beyond: the low for LONG, the high for SHORT. */
  function Bar(direction: Direction, data: MarketData): Field {
    if direction == Long then data.low else data.high
  }

  /** The far profile level used for TP2: VAH for LONG, VAL for SHORT. */
  function FarLevel(direction: Direction, data: MarketData): Field {
    if direction == Long then data.vah else data.val
  }

  /** A field's price, with `default` standing in for a missing key. */
  function PriceOr(f: Field, default: real): real {
    if f.Num? then f.value else default
  }

  /** A profile level as its truthiness sees it: missing or `None` reads as 0. */
  function Level(f: Field): real {
    PriceOr(f, 0.0)
  }

  /** One tick beyond the bar, the entry price standing in for a missing bar. */
  function ExpectedStop(direction: Direction, entry: real, data: MarketData): real {
    if direction == Long then PriceOr(data.low, entry) - TickSize
    else PriceOr(data.high, entry) + TickSize
  }

  /** The bar extreme is a number or missing (so no `TypeError` from the stop). */
  predicate BarIsNumeric(direction: Direction, data: MarketData) {
    Bar(direction, data).Num? || Bar(direction, data).Absent?
  }

  /** The profile levels the direction consults are numbers, `None` or missing. */
  predicate LevelsAreNumeric(direction: Direction, data: MarketData) {
    !data.poc.Other? && !FarLevel(direction, data).Other?
  }

  /**
   * The structure targets apply: POC and the far level are both present and
   * non-zero, POC lies beyond the entry, and the far level beyond POC.
   */
  predicate StructureTargets(direction: Direction, entry: real, data: MarketData) {
    var poc := Level(data.poc);
    var far := Level(FarLevel(direction, data));
    poc != 0.0 && far != 0.0 && Beyond(direction, poc, entry) && Beyond(direction, far, poc)
  }

  // ---------------------------------------------------------------------
  // Properties
  // ---------------------------------------------------------------------

  /**
   * For numeric inputs the calculator always gets past the `try`: the stop
   * sits one tick beyond the bar, and the targets are POC and the far level
   * exactly when the structure conditions hold, 2R and 4R otherwise.
   */
  lemma NumericPlan(direction: Direction, entry: real, data: MarketData)
    requires BarIsNumeric(direction, data) && LevelsAreNumeric(direction, data)
    ensures var p := Plan(direction, entry, data);
      var sl := ExpectedStop(direction, entry, data);
      var risk := Risk(direction, entry, sl);
      && p.Returned?
      && p.value.sl == sl
      && (StructureTargets(direction, entry, data) ==>
            p.value.tp1 == Level(data.poc) && p.value.tp2 == Level(FarLevel(direction, data)))
      && (!StructureTargets(direction, entry, data) ==>
            p.value.tp1 == Toward(direction, entry, 2.0 * risk) && p.value.tp2 == Toward(direction, entry, 4.0 * risk))
  {
  }

  /**
   * The gate: a signal is accepted exactly when the `try` body completes and
   * TP1's reward is at least the risk (equality is accepted); the gate sees
   * the unrounded levels and only the returned triple is rounded.
   */
  lemma GateIsStrict(direction: Direction, entry: real, data: MarketData)
    ensures var p := Plan(direction, entry, data);
      var r := CalculateTradeLevels(direction, entry, data);
      && (r != NoLevels <==>
            p.Returned? && Reward(direction, entry, p.value.tp1) >= Risk(direction, entry, p.value.sl))
      && (r != NoLevels ==> r == RoundLevels(p.value))
  {
  }

  /**
   * Exceptions: a bar extreme that is `None` or not a number, or a truthy
   * non-numeric POC next to a truthy far level, raises; the caught
   * exception yields the same `(None, None, None)` as a rejection.
   */
  lemma ExceptionIsRejection(direction: Direction, entry: real, data: MarketData)
    ensures !BarIsNumeric(direction, data) ==> Plan(direction, entry, data).Raised?
    ensures Truthy(data.poc) && Truthy(FarLevel(direction, data)) && data.poc.Other? ==>
              Plan(direction, entry, data).Raised?
    ensures Plan(direction, entry, data).Raised? ==> CalculateTradeLevels(direction, entry, data) == NoLevels
  {
  }

  /**
   * With fallback targets there is no separate risk check: the signal is
   * rejected exactly when the risk is negative, so a zero risk passes.
   */
  lemma FallbackGate(direction: Direction, entry: real, data: MarketData)
    requires BarIsNumeric(direction, data) && LevelsAreNumeric(direction, data)
    requires !StructureTargets(direction, entry, data)
    ensures CalculateTradeLevels(direction, entry, data) == NoLevels <==>
              Risk(direction, entry, ExpectedStop(direction, entry, data)) < 0.0
  {
  }

  /**
   * With structure targets the reward is always positive, so a signal whose
   * stop is at or beyond the entry (risk <= 0) is never rejected.
   */
  lemma StructureGate(direction: Direction, entry: real, data: MarketData)
    requires BarIsNumeric(direction, data) && LevelsAreNumeric(direction, data)
    requires StructureTargets(direction, entry, data)
    ensures var risk := Risk(direction, entry, ExpectedStop(direction, entry, data));
      && (CalculateTradeLevels(direction, entry, data) == NoLevels <==>
            Reward(direction, entry, Level(data.poc)) < risk)
      && (risk <= 0.0 ==> CalculateTradeLevels(direction, entry, data) != NoLevels)
  {
  }

  /**
   * When the stop is on the losing side of the entry, the unrounded levels
   * are strictly ordered: LONG sl < entry < tp1 < tp2, SHORT tp2 < tp1 < entry < sl.
   */
  lemma PlanIsOrdered(direction: Direction, entry: real, data: MarketData)
    requires Plan(direction, entry, data).Returned?
    requires Risk(direction, entry, Plan(direction, entry, data).value.sl) > 0.0
    ensures var lv := Plan(direction, entry, data).value;
      if direction == Long then lv.sl < entry < lv.tp1 < lv.tp2
      else lv.tp2 < lv.tp1 < entry < lv.sl
  {
  }

  /** Rounding keeps the returned levels in (non-strict) order. */
  lemma ReturnedLevelsAreOrdered(direction: Direction, entry: real, data: MarketData)
    requires Plan(direction, entry, data).Returned?
    requires Risk(direction, entry, Plan(direction, entry, data).value.sl) > 0.0
    requires CalculateTradeLevels(direction, entry, data) != NoLevels
    ensures var r := CalculateTradeLevels(direction, entry, data);
      if direction == Long then r.sl.value <= r.tp1.value <= r.tp2.value
      else r.tp2.value <= r.tp1.value <= r.sl.value
  {
    var lv := Plan(direction, entry, data).value;
    PlanIsOrdered(direction, entry, data);
    GateIsStrict(direction, entry, data);
    if direction == Long {
      RoundMonotone(lv.sl, lv.tp1, PriceDigits);
      RoundMonotone(lv.tp1, lv.tp2, PriceDigits);
    } else {
      RoundMonotone(lv.tp2, lv.tp1, PriceDigits);
      RoundMonotone(lv.tp1, lv.sl, PriceDigits);
    }
  }

  /** A falsy profile level (missing, `None`, 0, empty) means the same as a missing one. */
  function Erase(f: Field): (r: Field)
    ensures Truthy(r) == Truthy(f)
    ensures Truthy(f) ==> r == f
  {
    if Truthy(f) then f else Absent
  }

  /** `if poc and vah`: a level equal to 0 (or otherwise falsy) counts as absent. */
  lemma FalsyLevelIsAbsent(direction: Direction, entry: real, data: MarketData)
    ensures CalculateTradeLevels(direction, entry, data) ==
            CalculateTradeLevels(direction, entry, data.(vah := Erase(data.vah), poc := Erase(data.poc), val := Erase(data.val)))
  {
  }

  /**
   * `dict.get(key, entry_price)`: a missing bar extreme is read as the entry
   * price, so the stop then sits one tick beyond the entry.
   */
  lemma MissingBarIsEntry(entry: real, data: MarketData)
    ensures CalculateTradeLevels(Long, entry, data.(low := Absent)) ==
            CalculateTradeLevels(Long, entry, data.(low := Num(entry)))
    ensures CalculateTradeLevels(Short, entry, data.(high := Absent)) ==
            CalculateTradeLevels(Short, entry, data.(high := Num(entry)))
  {
  }

  /** LONG never reads the high or VAL; SHORT never reads the low or VAH. */
  lemma OtherSideIgnored(entry: real, data: MarketData, x: Field, y: Field)
    ensures CalculateTradeLevels(Long, entry, data) == CalculateTradeLevels(Long, entry, data.(high := x, val := y))
    ensures CalculateTradeLevels(Short, entry, data) == CalculateTradeLevels(Short, entry, data.(low := x, vah := y))
  {
  }

  // ---------------------------------------------------------------------
  // SHORT is the mirror image of LONG
  // ---------------------------------------------------------------------

  function NegateField(f: Field): Field {
    if f.Num? then Num(-f.value) else f
  }

  /** Reflect the market data through price 0: highs become lows, VAH becomes VAL. */
  function Mirror(data: MarketData): MarketData {
    MarketData(NegateField(data.low), NegateField(data.high), NegateField(data.val), NegateField(data.poc), NegateField(data.vah))
  }

  /** Reflecting twice gives back the original data. */
  lemma MirrorInvolution(data: MarketData)
    ensures Mirror(Mirror(data)) == data
  {
  }

  function NegateOption(o: Option<real>): Option<real> {
    if o.Some? then Some(-o.value) else None
  }

  function NegateTriple(t: Triple): Triple {
    Triple(NegateOption(t.sl), NegateOption(t.tp1), NegateOption(t.tp2))
  }

  function NegateLevels(lv: Levels): Levels {
    Levels(-lv.sl, -lv.tp1, -lv.tp2)
  }

  lemma ShortPlanMirrorsLong(entry: real, data: MarketData)
    ensures ShortPlan(entry, data).Raised? <==> LongPlan(-entry, Mirror(data)).Raised?
    ensures ShortPlan(entry, data).Returned? ==>
              ShortPlan(entry, data).value == NegateLevels(LongPlan(-entry, Mirror(data)).value)
  {
    var m := Mirror(data);
    assert Truthy(m.poc) == Truthy(data.poc) && Truthy(m.vah) == Truthy(data.val);
  }

  /**
   * The SHORT branch is the LONG branch applied to the price-reflected
   * signal: SHORT(entry, data) == -LONG(-entry, Mirror(data)).
   */
  lemma ShortMirrorsLong(entry: real, data: MarketData)
    ensures CalculateTradeLevels(Short, entry, data) == NegateTriple(CalculateTradeLevels(Long, -entry, Mirror(data)))
  {
    ShortPlanMirrorsLong(entry, data);
    var p := ShortPlan(entry, data);
    if p.Returned? {
      var lv := p.value;
      assert NegateLevels(NegateLevels(lv)) == lv;
      ShortGateMirrorsLong(entry, lv);
    }
  }

  /** The SHORT gate on some levels is the negated LONG gate on the negated levels. */
  lemma ShortGateMirrorsLong(entry: real, lv: Levels)
    ensures ShortGate(entry, lv) == NegateTriple(LongGate(-entry, NegateLevels(lv)))
  {
    RoundOdd(lv.sl, PriceDigits);
    RoundOdd(lv.tp1, PriceDigits);
    RoundOdd(lv.tp2, PriceDigits);
  }

  /** And the other way round: LONG(entry, data) == -SHORT(-entry, Mirror(data)). */
  lemma LongMirrorsShort(entry: real, data: MarketData)
    ensures CalculateTradeLevels(Long, entry, data) == NegateTriple(CalculateTradeLevels(Short, -entry, Mirror(data)))
  {
    ShortMirrorsLong(-entry, Mirror(data));
    MirrorInvolution(data);
    assert - -entry == entry;
    var t := CalculateTradeLevels(Long, entry, data);
    assert NegateTriple(NegateTriple(t)) == t;
  }

  // ---------------------------------------------------------------------
  // Worked examples
  // ---------------------------------------------------------------------

  /** LONG at 100 with the bar low at 98 and no profile: stop 97.75, targets 104.5 and 109. */
  lemma LongFallbackExample()
    ensures CalculateTradeLevels(Long, 100.0, MarketData(Absent, Num(98.0), Absent, Absent, Absent)) ==
            Triple(Some(97.75), Some(104.5), Some(109.0))
  {
    assert LongPlan(100.0, MarketData(Absent, Num(98.0), Absent, Absent, Absent)) ==
           Returned(Levels(97.75, 104.5, 109.0));
    RoundOnGrid(97.75, PriceDigits);
    RoundOnGrid(104.5, PriceDigits);
    RoundOnGrid(109.0, PriceDigits);
  }

  /** SHORT at 100, high 102, POC 99, VAL 97: structure targets, reward 1 < risk 2.25, rejected. */
  lemma ShortStructureRejectedExample()
    ensures CalculateTradeLevels(Short, 100.0, MarketData(Num(102.0), Absent, Absent, Num(99.0), Num(97.0))) == NoLevels
  {
  }

  /** Reward equal to risk passes the gate: LONG at 100, stop 99.5, POC 100.5. */
  lemma RewardEqualToRiskAccepted()
    ensures CalculateTradeLevels(Long, 100.0, MarketData(Absent, Num(99.75), Num(101.0), Num(100.5), Absent)) ==
            Triple(Some(99.5), Some(100.5), Some(101.0))
  {
    assert LongPlan(100.0, MarketData(Absent, Num(99.75), Num(101.0), Num(100.5), Absent)) ==
           Returned(Levels(99.5, 100.5, 101.0));
    RoundOnGrid(99.5, PriceDigits);
    RoundOnGrid(100.5, PriceDigits);
    RoundOnGrid(101.0, PriceDigits);
  }

  /**
   * The gate compares unrounded prices: with stop 99.746 and POC 100.252 the
   * reward 0.252 is below the risk 0.254 and the signal is rejected, although
   * the rounded stop 99.75 and target 100.25 would pay exactly the risk.
   */
  lemma GateSeesUnroundedPrices()
    ensures CalculateTradeLevels(Long, 100.0, MarketData(Absent, Num(99.996), Num(101.0), Num(100.252), Absent)) == NoLevels
    ensures Round(100.252, PriceDigits) - 100.0 == 100.0 - Round(99.746, PriceDigits)
  {
    RoundHalfEvenUnique(10025.2, 10025);
    RoundHalfEvenUnique(9974.6, 9975);
    RoundUnfold(100.252, PriceDigits);
    RoundUnfold(99.746, PriceDigits);
  }

  /**
   * No separate risk check: a LONG whose stop sits exactly at the entry
   * (risk 0) is accepted with all three levels at the entry price.
   */
  lemma ZeroRiskAccepted()
    ensures CalculateTradeLevels(Long, 100.0, MarketData(Absent, Num(100.25), Absent, Absent, Absent)) ==
            Triple(Some(100.0), Some(100.0), Some(100.0))
  {
    assert LongPlan(100.0, MarketData(Absent, Num(100.25), Absent, Absent, Absent)) ==
           Returned(Levels(100.0, 100.0, 100.0));
    RoundOnGrid(100.0, PriceDigits);
  }

  /**
   * With structure targets even a stop above a LONG entry (risk -0.75) is
   * accepted.
   */
  lemma NegativeRiskAcceptedWithStructure()
    ensures CalculateTradeLevels(Long, 100.0, MarketData(Absent, Num(101.0), Num(103.0), Num(102.0), Absent)) ==
            Triple(Some(100.75), Some(102.0), Some(103.0))
  {
    assert LongPlan(100.0, MarketData(Absent, Num(101.0), Num(103.0), Num(102.0), Absent)) ==
           Returned(Levels(100.75, 102.0, 103.0));
    RoundOnGrid(100.75, PriceDigits);
    RoundOnGrid(102.0, PriceDigits);
    RoundOnGrid(103.0, PriceDigits);
  }
}
