# Trading alert webhook: trade-level calculator and alert decision table

This project models the decision logic of a small webhook server that
receives trading alerts from a charting platform and forwards them to a
messaging bot (`telegram_webhook_server.py`). It has two parts.

- **Trade-level calculator** (`calculate_trade_levels`, module `TradeLevels`).
  Given a direction (LONG or SHORT), an entry price and the market data of
  the triggering bar, it works in four steps:
  - **Stop.** The stop goes one tick (0.25, an ES futures tick) beyond the bar.
  - **Targets.** It uses the point of control (POC) and the value-area high
    (VAH, for LONG) or value-area low (VAL, for SHORT) as targets when they
    are present, non-zero and ordered beyond the entry. Otherwise it uses
    2R and 4R targets, where R is the risk.
  - **Gate.** It rejects the signal when TP1 pays strictly less than the risk.
  - **Result.** It returns the stop and both targets rounded to cents, or
    `(None, None, None)`. Any exception raised on the way also gives
    `(None, None, None)`.
- **Alert decision table** (the pure part of the `/webhook` handler, module
  `Webhook`). It works as follows:
  - **Management alerts.** A message containing TP1, TP2, BE or SL (matched
    case-sensitively) is forwarded as it is.
  - **Entry alerts.** Otherwise BUY, then SELL, is looked for in the
    upper-cased message. An entry alert gets default bar high and low
    (close ± 2) and is passed to the calculator. It is then rejected, or
    forwarded with a display reward-to-risk ratio. That ratio is TP2's
    reward over the risk measured from the rounded stop, rounded to one
    decimal, or 0 when that risk is not positive.
  - **Unknown alerts.** Anything else is an unknown alert.

Supporting modules:

- `Rounding` models Python's `round(x, n)`: round half to even, applied to
  the exact real value.
- `Text` models substring search and ASCII upper-casing.
- `Options` holds the `None`-or-value datatype.

Python values in the market-data dictionary are modelled as
`Field = Absent | Null | Num(real) | Other(truthy)`, so the model keeps these
behaviours of the code:

- the `dict.get` default applies only to a missing key;
- `None` and non-numbers raise on arithmetic, and the catch-all turns that
  into a rejection;
- Python truthiness: `if poc and vah` treats a level of 0 as absent.

The LONG and SHORT branches are written out separately, as in the source.
`TradeLevels.ShortMirrorsLong` proves that the SHORT branch is exactly the
LONG branch applied to prices reflected through zero.

A calculator of this kind is usually expected to reject a signal whose
risk is ≤ 0 (a stop at or beyond the entry). This code has no such check. The only rejection is the gate `reward < risk`. With fallback
targets that rejects exactly the negative risks, so a zero risk passes.
With structure targets the reward is always positive, so a non-positive
risk always passes. The model follows the code. `FallbackGate`,
`StructureGate`, `ZeroRiskAccepted` and `NegativeRiskAcceptedWithStructure`
state this behaviour.

## Model

| member | source | states |
|---|---|---|
| Rounding.RoundHalfEven | telegram_webhook_server.py:68 | the result is an integer within 0.5 of the input, and an exact tie goes to the even neighbour (Python 3 rounding) |
| Rounding.RoundHalfEvenUnique | telegram_webhook_server.py:68 | those two properties pin the rounded integer down uniquely |
| Rounding.Round | telegram_webhook_server.py:68 | `round(x, n)` has at most n decimals and lies within half a 10^-n step of x |
| Rounding.RoundOnGrid | telegram_webhook_server.py:68 | a price that already has at most n decimals is returned unchanged |
| Rounding.RoundOdd | telegram_webhook_server.py:92 | rounding commutes with negation, so SHORT prices round like mirrored LONG prices |
| Rounding.RoundMonotone | telegram_webhook_server.py:68 | rounding never reverses the order of two prices |
| TradeLevels.LongStructure | telegram_webhook_server.py:55 | `poc and vah and poc > entry and vah > poc` is true exactly when POC and VAH are non-zero numbers with entry < POC < VAH; it raises exactly when both are truthy and POC is not a number, or POC is above the entry and VAH is not a number |
| TradeLevels.ShortStructure | telegram_webhook_server.py:79 | `poc and val and poc < entry and val < poc` is true exactly when POC and VAL are non-zero numbers with VAL < POC < entry; it raises exactly when both are truthy and POC is not a number, or POC is below the entry and VAL is not a number |
| TradeLevels.RoundLevels | telegram_webhook_server.py:68 | an accepted signal carries all three levels, each a whole number of cents within half a cent of its unrounded level |
| TradeLevels.CalculateTradeLevels | telegram_webhook_server.py:36-96 | all three levels are returned or none; an exception gives the rejection triple |
| TradeLevels.NumericPlan | telegram_webhook_server.py:46-85 | with numeric inputs, the stop is one tick beyond the bar (the entry price when the bar is missing); targets are POC and VAH/VAL exactly when both are non-zero and ordered beyond the entry, otherwise entry ± 2R and ± 4R |
| TradeLevels.GateIsStrict | telegram_webhook_server.py:63-92 | accepted iff TP1's reward ≥ risk on the unrounded levels (equality accepted); an accepted result is the unrounded levels rounded to cents |
| TradeLevels.ExceptionIsRejection | telegram_webhook_server.py:94-96 | a non-numeric bar extreme, or a truthy non-numeric POC next to a truthy far level, raises; any raise yields `(None, None, None)` |
| TradeLevels.FallbackGate | telegram_webhook_server.py:58-66 | with 2R/4R targets a signal is rejected iff its risk is negative; no separate risk check exists |
| TradeLevels.StructureGate | telegram_webhook_server.py:55-66 | with structure targets it is rejected iff POC's reward < risk, so a risk ≤ 0 is never rejected |
| TradeLevels.PlanIsOrdered | telegram_webhook_server.py:46-85 | with positive risk, LONG levels satisfy sl < entry < tp1 < tp2 and SHORT levels tp2 < tp1 < entry < sl, before rounding |
| TradeLevels.ReturnedLevelsAreOrdered | telegram_webhook_server.py:68 | the rounded levels keep that order (non-strictly) |
| TradeLevels.FalsyLevelIsAbsent | telegram_webhook_server.py:55 | a POC/VAH/VAL that is 0, `None` or otherwise falsy acts exactly like a missing one |
| TradeLevels.MissingBarIsEntry | telegram_webhook_server.py:48-72 | a missing bar low (LONG) or high (SHORT) gives exactly the result of sending the entry price as that extreme |
| TradeLevels.OtherSideIgnored | telegram_webhook_server.py:46-92 | LONG never reads the high or VAL; SHORT never reads the low or VAH |
| TradeLevels.ShortPlanMirrorsLong | telegram_webhook_server.py:70-85 | the SHORT stop and targets are the negated LONG ones for the reflected entry and bar |
| TradeLevels.ShortGateMirrorsLong | telegram_webhook_server.py:87-92 | the SHORT gate and rounding on some levels give the negated LONG result on the negated levels and entry |
| TradeLevels.ShortMirrorsLong | telegram_webhook_server.py:70-92 | SHORT(entry, data) equals the negation of LONG(-entry, reflected data), gate and rounding included |
| TradeLevels.LongMirrorsShort | telegram_webhook_server.py:46-68 | LONG(entry, data) equals the negation of SHORT(-entry, reflected data) |
| TradeLevels.LongFallbackExample | telegram_webhook_server.py:46-68 | LONG 100 with low 98 gives 97.75 / 104.5 / 109.0 |
| TradeLevels.ShortStructureRejectedExample | telegram_webhook_server.py:70-90 | SHORT 100 with high 102, POC 99, VAL 97 is rejected (reward 1 < risk 2.25) |
| TradeLevels.RewardEqualToRiskAccepted | telegram_webhook_server.py:63-68 | reward equal to risk is accepted |
| TradeLevels.GateSeesUnroundedPrices | telegram_webhook_server.py:63-68 | a signal can be rejected on unrounded prices whose rounded versions would pay exactly the risk |
| TradeLevels.ZeroRiskAccepted | telegram_webhook_server.py:48-68 | a LONG whose stop equals the entry is accepted |
| TradeLevels.NegativeRiskAcceptedWithStructure | telegram_webhook_server.py:48-68 | a LONG whose stop is above the entry is accepted when structure targets apply |
| Text.ContainsIffOccurs | telegram_webhook_server.py:124 | the substring test holds exactly when the pattern occurs at some index |
| Text.ContainsUpperIsCaseless | telegram_webhook_server.py:114 | `pat in s.upper()` holds exactly when some window of `s` spells `pat` in any case |
| Webhook.DirectionIsCaseless | telegram_webhook_server.py:113-121 | LONG iff some window spells BUY in any case; SHORT iff none does and one spells SELL |
| Webhook.ManagementIffKeywordOccurs | telegram_webhook_server.py:124 | the keyword test holds exactly when TP1, TP2, BE or SL occurs, as written, at some index of the message |
| Webhook.Classify | telegram_webhook_server.py:113-130 | management exactly when a keyword occurs as written; otherwise LONG exactly when some window spells BUY in any case, SHORT exactly when none does but one spells SELL, unknown exactly when neither is spelled |
| Webhook.MissingFieldDefaults | telegram_webhook_server.py:132-138 | for an entry alert, leaving out the bar high or low answers exactly as sending close + 2 or close - 2, and leaving out VAH, POC or VAL exactly as sending `null` |
| Webhook.DisplayRatio | telegram_webhook_server.py:147-155 | 0 when the risk from the rounded stop is ≤ 0; otherwise within 0.05 of TP2 reward / risk, with one decimal |
| Webhook.HandleEntry | telegram_webhook_server.py:141-196 | rejected exactly when the calculator rejects; forwarded exactly when it accepts and delivery succeeds, carrying the calculator's levels and the display ratio; an accepted signal whose delivery fails gets the error response |
| Webhook.HandleAlert | telegram_webhook_server.py:104-196 | forwarded verbatim exactly when a keyword occurs as written and delivery succeeds (the error response when it fails); unknown exactly when no keyword occurs and neither BUY nor SELL is spelled in any case; otherwise an entry handled as LONG when BUY is spelled, else SHORT |
| Webhook.DefaultBarLevels | telegram_webhook_server.py:132-141 | a close-only alert on a cent boundary gets stop close ∓ 2.25 and targets close ± 4.5 and ± 9 |
| Webhook.FourToOne | telegram_webhook_server.py:147-155 | 2.25 of risk and 9 of reward display as 4.0 |
| Webhook.DefaultBarEntry | telegram_webhook_server.py:130-187 | a close-only entry alert on a cent boundary is forwarded with those levels and ratio 4.0 |
| Webhook.NoManagementLetters | telegram_webhook_server.py:124 | a message with no upper-case T, B or S carries no management keyword |
| Webhook.ManagementBeatsBuy | telegram_webhook_server.py:113-127 | "BUY TP1 hit" is a management alert, not a LONG entry |
| Webhook.BelowReadsAsManagement | telegram_webhook_server.py:124 | "SELL BELOW VWAP" is a management alert because BELOW contains BE |
| Webhook.LowerCaseKeywordIsEntry | telegram_webhook_server.py:114-124 | "tp1 buy" is a LONG entry: keywords are case-sensitive, directions are not |
| Webhook.MixedCaseBuy | telegram_webhook_server.py:114-116 | "Long: buy" is a LONG entry |
| Webhook.LowerCaseSell | telegram_webhook_server.py:118-121 | "sell now" is a SHORT entry |
| Webhook.BuyBeatsSell | telegram_webhook_server.py:114-121 | "buy or sell" is a LONG entry |
| Webhook.NoKeywordIsUnknown | telegram_webhook_server.py:190 | "hello" is an unknown alert |

## Left out

- Flask routing, request and JSON access, HTTP status codes, and the `/` and `/health` endpoints are web plumbing. The responses are a datatype; the status codes appear only as comments.
- `bot.send_message`, the telebot client and the token/chat-id configuration are network I/O and global state. Whether delivery succeeded is the parameter `delivered`, and a failed delivery gives the generic error response.
- `calculate_volume_profile_levels` is a stub that always returns `None`s and is never called, so it has no logic to model.
- HTML message formatting, the ticker, and the `datetime.now()` timestamps are presentation only and not deterministic.
- IEEE-754 floating point: prices are exact reals. Python's `round` on a binary double can differ from round-half-even on the decimal value the double approximates. NaN and infinities are not modelled.
- The `float()` conversion of `close` is left out, and so is a `message` that is not a string. The model takes the close as a real and the message as a string. Exceptions raised there fall to the handler's catch-all, which is not modelled beyond delivery failure.
- `str.upper()` is modelled on ASCII letters only. Unicode case mappings such as `ſ` → `S` or `ß` → `SS` are not modelled.
- The direction argument: the source treats any value other than "LONG" as SHORT. The model has exactly two directions, the only values the endpoint passes.
- JSON booleans: Python compares `True`/`False` as 1/0. A caller building a `Field` maps them to `Num`.
- The `print` and `traceback.print_exc()` logging on the two error paths only writes to the console; the model keeps the response and drops the log output.
- The display ratio for a non-positive risk is the integer `0` in the source and the real 0 in the model.
