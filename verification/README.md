# Cubana Millennium City: wealth projector, concierge and session relay

This project models the computational core of the Cubana Millennium City marketing site in Dafny
and proves properties of it. The core has four parts:

- **Wealth projector** (`EstateCalculator.tsx`). A plot's 2026 catalog price is grown by a
  per-year multiplier table, with linear extrapolation at 15% per year for untabulated years. It is
  projected over every year from the chosen purchase year to the 2031 horizon and converted to the
  display currency. Three figures are read off the series: the entry price, the "projected value"
  one year on, and the total appreciation. The engine (module `Projection`) is written for any
  multiplier table and any positive rate. The site's own table, catalog and selection controls
  live in module `Calculator`.
- **Currency table** (`constants.ts`, module `Rates`). It gives the display rate of each currency
  against the naira.
- **Concierge chat** (`components/Concierge.tsx`, module `Concierge`). It models the transcript,
  the input field and the loading flag. A send is split into two transitions: the part before the
  relay is awaited, and the part after it. Events fold over these transitions.
- **Session relay** (`geminiService.ts`, module `Relay`). It caches one chat session, forwards
  each message as the next turn, and maps every outcome to a reply string. The conversational
  SDK is an oracle. Each call is told what creating the chat would do (a handle, or a throw) and
  what the turn would do (a response whose text may be absent, or a throw). The relay's state
  records the SDK calls it made, in order.

The hotspot markers of the master plan (`constants.ts`, module `Hotspots`) are modelled as data
and checked by a single-pass validator.

Arithmetic is exact (`real`). Years are integers. The shared records of `types.ts` are in module
`Types`; `Option` and `Result` are in module `Wrappers`.

Three behaviours of the code are worth noting:

- The multiplier falls back to extrapolation when a year is absent from the table, and also when
  its entry is `0`, because the code uses JavaScript `||` (EstateCalculator.tsx:44).
- A purchase year after 2031 is not extrapolated. The series is empty, and reading `data[0]`
  throws (EstateCalculator.tsx:69). `ProjectWith` returns `Failure(NoEntryPoint)` for it.
- A missing API key does not disable the relay. It only sets a warning, and the chat is still
  created with an empty key. A failed creation leaves nothing cached, so the next send tries
  again (geminiService.ts:25-33).

Extrapolation is never reached from the page, because the purchase years offered are 2026–2028.
If the horizon moved, the extrapolated multiplier for 2032 would be 1.9. That is lower than the
tabulated 2.10 for 2031 (`Calculator.ExtrapolationDropsAfterHorizon`).

## Model

| member | source | states |
|---|---|---|
| Types.ParseCurrency | types.ts:6-10 | reads a currency code back: a string that parses is the code of the currency it names (used to show that every rate-table key is a currency code) |
| Types.CurrencyCodeRoundTrip | types.ts:6-10 | every currency's code parses back to that currency |
| Types.AllCurrenciesComplete | types.ts:6-10 | the enum has exactly the three currencies NGN, USD, GBP |
| Rates.CurrencyInTable | constants.ts:6-10 | every currency's enum string is a key of the rate table |
| Rates.Rate | EstateCalculator.tsx:64 | the display rate of a currency is the table's entry at its enum string, and is strictly positive |
| Rates.RateTableKeysAreCurrencies | constants.ts:6-10 | the rate table's string keys are exactly the enum strings of types.ts:6-10: every currency's string is a key, and every key parses to a currency |
| Rates.RateValues | constants.ts:7-9 | NGN is 1, USD is 0.000625, GBP is 0.00049 |
| Rates.HomeCurrencyIsIdentity | constants.ts:7 | converting to NGN leaves an amount unchanged |
| Rates.ExactlyOneHomeCurrency | constants.ts:6-10 | the "NGN" entry is the only one equal to 1, and a currency's rate is 1 exactly when it is NGN |
| Projection.YearRange | EstateCalculator.tsx:53-57 | the loop's years are every integer from `lo` to `hi`, ascending, `hi - lo + 1` of them |
| Projection.Series | EstateCalculator.tsx:59-67 | one point per year from the purchase year to 2031, in order; each value is the year's grown price, its display value is that price times the rate, and only the first point is the entry |
| Projection.ProjectWith | EstateCalculator.tsx:49-81 | succeeds exactly when the purchase year is at most 2031, otherwise fails on the missing first point; the entry price is the first point's display value, the projected value is read at index `min(1, n-1)`, the appreciation compares the first and last display values, and the horizon is 2031 |
| Projection.FactorNonZero | EstateCalculator.tsx:44 | for any table, the multiplier of an integer year is never 0, so the appreciation's divisor is non-zero |
| Projection.FactorOfTabulatedYear | EstateCalculator.tsx:44 | a present, non-zero table entry is used as the multiplier |
| Projection.FactorOfUntabulatedYear | EstateCalculator.tsx:44 | an absent or zero entry is replaced by `1 + (year - 2026) * 0.15` |
| Projection.SeriesStrictlyIncreasing | EstateCalculator.tsx:59-67 | where the multipliers increase, values and display values strictly increase along the series |
| Projection.PointsOrdered | EstateCalculator.tsx:59-67 | two points of one series whose years' multipliers increase have strictly increasing values and display values |
| Projection.SeriesAt | EstateCalculator.tsx:59-67 | the point at index `i` is for year `purchaseYear + i`, and its display value is that year's price times the rate |
| Projection.SeriesFirst | EstateCalculator.tsx:69 | the series has `2031 - purchaseYear + 1` points, and the first one's display value is the purchase-year price converted |
| Projection.SeriesNext | EstateCalculator.tsx:71 | index `min(1, n-1)` holds year `min(purchaseYear + 1, 2031)`, the year the page labels the projected value with (EstateCalculator.tsx:177), and that year's converted price |
| Projection.SeriesLast | EstateCalculator.tsx:70 | the series is non-empty and its last display value is the 2031 price converted |
| Projection.AppreciationFromFactors | EstateCalculator.tsx:69-72 | the appreciation is the relative change between the purchase year's and 2031's multipliers |
| Projection.AppreciationFromPrices | EstateCalculator.tsx:69-72 | the appreciation is the relative change between the converted purchase-year and 2031 prices |
| Projection.PriceChangeIsFactorChange | EstateCalculator.tsx:43-46 | the relative change of two converted prices equals that of their multipliers |
| Projection.AppreciationScaleInvariant | EstateCalculator.tsx:64-72 | the appreciation does not depend on the base price or on the display rate |
| Projection.RelativeChangeSign | EstateCalculator.tsx:72 | the percentage is non-negative (positive) exactly when the final value is at least (above) the entry |
| Projection.SummaryFigures | EstateCalculator.tsx:69-79 | the entry price is the purchase-year price converted; the projected value is the price of year `min(purchaseYear + 1, 2031)` (the year the page labels it with); the last point is the 2031 price |
| Calculator.Project | EstateCalculator.tsx:49-81 | the page's projection, using the site's table and the currency's rate: succeeds exactly up to 2031, with the series for that rate |
| Calculator.CatalogPricesPositive | EstateCalculator.tsx:6-10 | every catalog plot has a positive 2026 price |
| Calculator.GrowthTableYears | EstateCalculator.tsx:17-24 | the table covers exactly 2026..2031, with no zero entry |
| Calculator.TabulatedPrice | EstateCalculator.tsx:17-24 | a tabulated year's price is base price times its entry, and 2026's price is the base price |
| Calculator.TabulatedFactorsStrictlyIncrease | EstateCalculator.tsx:17-24 | the multiplier strictly increases between any two years of 2026..2031 |
| Calculator.GrowthFactorsIncreasing | EstateCalculator.tsx:17-24 | from any year from 2026 on, the multiplier increases up to 2031 |
| Calculator.ExtrapolationDropsAfterHorizon | EstateCalculator.tsx:44 | the extrapolated 2032 multiplier is 1.9, below the 2031 entry |
| Calculator.ChartStrictlyIncreasing | EstateCalculator.tsx:12-24 | for purchase years from 2026, the chart's values strictly increase in every currency |
| Calculator.AppreciationCurrencyInvariant | EstateCalculator.tsx:64-72 | the appreciation is the same for every currency and every plot |
| Calculator.AppreciationNonNegative | EstateCalculator.tsx:72 | the appreciation is at least 0, and above 0 exactly when the purchase year is before 2031 |
| Calculator.HomeCurrencyDisplay | EstateCalculator.tsx:64 | in NGN every display value equals the home value |
| Calculator.Year1ValueAtHorizon | EstateCalculator.tsx:71 | buying in 2031 gives a one-point chart whose projected value is the entry price |
| Calculator.PlotCardMatchesEntry | EstateCalculator.tsx:141-142 | a plot card's price equals the entry price of that plot's projection |
| Calculator.ExampleExecutive2026 | EstateCalculator.tsx:7-24 | the Executive plot bought in 2026, in NGN: entry 80,000,000, 2031 value 168,000,000, projected value 92,000,000, appreciation 110% |
| Calculator.ExampleStarter2028 | EstateCalculator.tsx:7-24 | the Starter plot bought in 2028, in USD: entry 31,218.75, 2031 value 48,562.5 |
| Calculator.Click | EstateCalculator.tsx:99-147 | choosing an offered plot, year or currency changes that field only and keeps the selection valid |
| Calculator.EveryCurrencyOffered | EstateCalculator.tsx:99 | every currency has a button, since the buttons enumerate all the enum's values |
| Calculator.Shown | EstateCalculator.tsx:27-29 | for a valid selection the chart runs from the purchase year to 2031 and shows a positive appreciation |
| Calculator.InitialSelectionValid | EstateCalculator.tsx:27-29 | the initial Executive, 2026, NGN selection is one the controls offer |
| Concierge.TrimStart | components/Concierge.tsx:25 | drops exactly the leading whitespace: a suffix, the removed part blank, the result not starting with whitespace |
| Concierge.TrimEnd | components/Concierge.tsx:25 | drops exactly the trailing whitespace: a prefix, the removed part blank, the result not ending with whitespace |
| Concierge.TrimEmptyIffBlank | components/Concierge.tsx:25 | trimming gives the empty string exactly when the input is all whitespace |
| Concierge.CanSendIffNotBlank | components/Concierge.tsx:25 | a send proceeds exactly when the input has a non-whitespace character and no reply is outstanding |
| Concierge.BeginSend | components/Concierge.tsx:24-30 | a rejected send changes nothing; an accepted one appends the untrimmed input as a user message, clears the input and sets loading |
| Concierge.CompleteSend | components/Concierge.tsx:32-35 | the reply is appended as a model message, loading is cleared and the input is kept |
| Concierge.SetInput | components/Concierge.tsx:118 | typing replaces the input and nothing else |
| Concierge.HandleKeyPress | components/Concierge.tsx:38-40 | Enter sends; any other key does nothing |
| Concierge.ClickSend | components/Concierge.tsx:124-125 | the button sends, and does nothing while loading |
| Concierge.EnterMatchesButton | components/Concierge.tsx:38-40 | Enter and the button have the same effect |
| Concierge.FullSendAppendsPair | components/Concierge.tsx:24-36 | a complete send appends exactly the user's message and then the reply |
| Concierge.AtMostOneInFlight | components/Concierge.tsx:25 | while a reply is outstanding, no key or click starts another send |
| Concierge.AppendKeepsAlternating | components/Concierge.tsx:29-34 | appending the role due next keeps the model/user alternation |
| Concierge.BeginSendPreservesWellFormed | components/Concierge.tsx:24-30 | the first half of a send keeps the transcript invariant |
| Concierge.CompleteSendPreservesWellFormed | components/Concierge.tsx:32-35 | the second half of a send keeps the transcript invariant |
| Concierge.InitialTranscript | components/Concierge.tsx:9-11 | the transcript starts with exactly one message, from the model, and is well formed |
| Concierge.StepPreservesWellFormed | components/Concierge.tsx:24-40 | every event keeps the transcript invariant |
| Concierge.RunPreservesWellFormed | components/Concierge.tsx:24-40 | any run of events keeps the transcript invariant |
| Relay.ApiKey | geminiService.ts:25 | the key is the environment value when set, otherwise empty |
| Relay.InitializeChat | geminiService.ts:20-42 | a cached session is returned without any SDK call; otherwise one chat is created with the fixed configuration, a missing key sets the warning, a handle is cached and a throw leaves nothing cached |
| Relay.ReplyFor | geminiService.ts:47-51 | non-empty text is returned verbatim, empty or absent text gives the apology, a throw gives the high-volume string; the reply is never empty |
| Relay.SendMessage | geminiService.ts:44-53 | the message goes to the cached or newly created session; a failed creation gives the high-volume string; the reply is never empty |
| Relay.CachedSessionReused | geminiService.ts:20-23 | with a session cached, a send creates nothing and does not depend on the key or on what creation would do |
| Relay.MissingKeyOnlyWarns | geminiService.ts:25-33 | without a key the relay warns and still creates the chat |
| Relay.SecondSendReusesSession | geminiService.ts:20-23 | two sends create one chat and send both turns to it |
| Relay.FailedTurnKeepsSession | geminiService.ts:49-52 | a rejected turn gives the high-volume string and keeps the session |
| Relay.CreationRetried | geminiService.ts:31-41 | after a failed creation the next send creates the chat again and can succeed |
| Relay.Run | geminiService.ts:44-53 | a run of sends gives one non-empty reply per request |
| Relay.SendForwardsMessage | geminiService.ts:46-47 | a send forwards its message after all earlier ones exactly when it obtained a session |
| Relay.RunForwardsAll | geminiService.ts:46-47 | once a session exists, a run forwards every message in order and keeps the session |
| Relay.UnstartedConsistent | geminiService.ts:20 | the relay's invariant holds at load |
| Relay.SendPreservesConsistent | geminiService.ts:20-53 | a send keeps the invariant: every chat has the fixed configuration, and every turn went to the cached session |
| Relay.RunPreservesConsistent | geminiService.ts:20-53 | any run of sends keeps the invariant |
| Hotspots.StatusLabelsDistinct | types.ts:17 | the four status labels are pairwise distinct, so a label identifies its status |
| Hotspots.CheckHotspots | types.ts:14-15 | the validator accepts a list exactly when every coordinate is within 0..100 and the ids are distinct |
| Hotspots.HotspotsValid | constants.ts:71-108 | the four shipped hotspots pass the validator |

## Left out

- JSX rendering, styling, animation, the chart component and scrolling have no contract and are not modelled.
- Number formatting (`Intl.NumberFormat`, `toFixed`, the axis tick formatter) is library string formatting and is not modelled.
- IEEE-754 rounding is not modelled. Arithmetic is exact, so currency invariance and the worked examples hold exactly only in the model.
- Model strings are sequences of Unicode scalar values, while JavaScript strings are sequences of UTF-16 code units, so a lone surrogate cannot be represented. Trimming is unaffected, because every ECMAScript whitespace character lies in the Basic Multilingual Plane (U+0000 to U+FFFF).
- The chart's `year.toString()` label is kept as the integer year.
- Projection.ProjectWith: requires a positive base price, because the only callers pass catalog prices, which are all positive. A zero price gives `0/0`, which is `NaN` in JavaScript. A negative price gives finite figures that the model does not cover.
- The GenAI SDK, the network, `process.env` and `console` are not modelled. The SDK's behaviour is an oracle argument, the environment is an optional key, and `console.warn` is the `warned` flag. The `console.error` call has no model.
- Relay.InitializeChat: the `GoogleGenAI` constructor and `ai.chats.create` are folded into one creation outcome, because either throwing has the same effect.
- The chat configuration names its system instruction by a `Persona` value. Its full text is `SystemInstruction(MillenniumConcierge)`, so comparing configurations does not compare the text.
- React state batching is not modelled. A send is two sequential transitions: the part before the relay is awaited and the part after it.
- Opening and closing the chat panel is presentational and is not modelled.
- Asset URLs, the gallery, the navigation and the other presentational components are not modelled.
