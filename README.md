# Crypto portfolio tracker: domain logic in Dafny

The system is a cryptocurrency portfolio tracker with an Express/Supabase
backend and a React frontend. Users keep portfolios of BUY/SELL transactions
(quantity `kolicina`, price `cijena`, date `datum`, optional risk type). The
frontend shows them as LONG/SHORT positions, prices them from a WebSocket feed
of live quotes, and reports profit and loss.

This project models the logic under the CRUD and rendering layers:

- **Backend balance accounting and valuation.** A SELL is admitted only when
  the net holding of that (portfolio, cryptocurrency) pair covers it.
  Transaction value is quantity × price. Portfolio value is a fold over its
  transactions.
- **Backend guards.** The controller validates before it computes. The ledger
  service rejects non-positive amounts.
- **Input validators.** The zod schemas for transactions, portfolios and risk
  types are written as records checked against field rules, with the
  `.partial()` variant used by updates. The repository's classification of a
  foreign-key error on delete is a pure function.
- **Frontend API layer.** It translates the direction vocabulary between
  LONG/SHORT and BUY/SELL, record by record and list by list.
- **Live price cache.** A class with two maps and a 15 000 ms per-symbol
  debounce, plus the live → catalogue → 0 fallback reads.
- **Client-side figures and forms.** Statistics: totals, averages, P/L,
  best/worst trade and P/L grouped by asset. The transaction table's value and
  P/L. The transaction form: price mode, entry-price choice and submit guard.
  The portfolio form: JavaScript `trim` and its submit guard.

Database queries, HTTP requests, the live quote, `parseFloat`, date parsing and
the clock are parameters of the model. Each module corresponds to one source
file:

| module | source file |
|---|---|
| `Schema` | the zod semantics shared by backend/src/models/*.ts |
| `TransactionModel`, `PortfolioModel`, `RiskTypeModel` | backend/src/models/{Transaction,Portfolio,RiskType}.ts |
| `RiskTypeRepository` | backend/src/repositories/riskTypeRepository.ts |
| `TransactionService` | backend/src/services/transaction.service.ts |
| `TransactionController` | backend/src/controllers/transaction.controller.ts |
| `LedgerService` | backend/src/services/ledger.service.ts |
| `Types` | frontend/src/types/database.ts |
| `Api` | frontend/src/lib/api.ts |
| `LivePrices` | frontend/src/hooks/useLivePrices.ts |
| `Statistics` | frontend/src/components/Statistics.tsx |
| `TransactionManager` | frontend/src/components/TransactionManager.tsx |
| `TransactionFormComponent` | frontend/src/components/TransactionForm.tsx |
| `PortfolioFormComponent` | frontend/src/components/PortfolioForm.tsx |

Money and quantities are `real`. The best and worst trade are `reduce`s that
start from `undefined` and stay `undefined` for an empty list; the model
returns an `Option` for them.

## Model

| member | source | states |
|---|---|---|
| Schema.ConformsIff | backend/src/models/Transaction.ts:20-28 | a record passes an object schema iff every field passes its own rule |
| Schema.Partial | backend/src/repositories/transactionRepository.ts:59 | `.partial()` keeps every field's name, rule and nullability and makes each one optional |
| Schema.PartialIff | backend/src/repositories/transactionRepository.ts:59 | a record passes the partial schema iff every field it carries passes its rule |
| Schema.PartialAcceptsEmpty | backend/src/repositories/portfolioRepository.ts:39 | the empty update passes every partial schema |
| Schema.FullImpliesPartial | backend/src/repositories/riskTypeRepository.ts:39 | whatever passes a schema passes its partial variant |
| TransactionModel.TransactionSchemaMeaning | backend/src/models/Transaction.ts:20-28 | a transaction input conforms iff: both ids and datum are non-empty strings; the direction is exactly BUY or SELL; quantity and price are positive numbers; risk_type_id is absent, null or a string |
| TransactionModel.ForeignDirectionRejected | backend/src/models/Transaction.ts:23 | LONG, SHORT, buy and sell are all rejected as directions |
| TransactionModel.NonPositiveQuantityRejected | backend/src/models/Transaction.ts:24 | a zero or negative quantity is rejected |
| TransactionModel.TransactionPartialMeaning | backend/src/repositories/transactionRepository.ts:59 | an update conforms iff each field present meets its create rule |
| TransactionModel.ResponseIgnoresSign | backend/src/models/Transaction.ts:37-38 | the response schema accepts any quantity and price, negative or zero included |
| PortfolioModel.PortfolioSchemaMeaning | backend/src/models/Portfolio.ts:11-15 | conforms iff naziv and user_id are non-empty strings and strategija is absent, null or any string |
| PortfolioModel.PortfolioResponseMeaning | backend/src/models/Portfolio.ts:19-27 | conforms iff the six fields are strings and strategija is a string or null |
| PortfolioModel.PortfolioPartialMeaning | backend/src/repositories/portfolioRepository.ts:39 | each field present meets its rule; the empty update passes; an empty naziv is still rejected |
| RiskTypeModel.RiskTypeSchemaMeaning | backend/src/models/RiskType.ts:11-16 | conforms iff name and user_id are non-empty strings and description and color are absent, null or strings |
| RiskTypeModel.EmptyNameRejected | backend/src/models/RiskType.ts:12 | a risk type named "" is rejected |
| RiskTypeModel.RiskTypeResponseMeaning | backend/src/models/RiskType.ts:20-28 | conforms iff the five fields are strings and description and color are strings or null |
| RiskTypeModel.RiskTypePartialMeaning | backend/src/repositories/riskTypeRepository.ts:39 | an update conforms iff each field present meets its rule |
| RiskTypeRepository.Delete | backend/src/repositories/riskTypeRepository.ts:57-66 | no error iff deleted. The in-use error is raised iff the code is 23503 or the details contain the foreign-key phrase, with the fixed message. Any other error is rethrown unchanged |
| RiskTypeRepository.DeleteByUser | backend/src/repositories/riskTypeRepository.ts:110-118 | the same three-way classification for the per-user delete |
| RiskTypeRepository.DeleteByUserAgrees | backend/src/repositories/riskTypeRepository.ts:110-118 | the per-user delete classifies every error exactly as `delete` does |
| RiskTypeRepository.PhraseAnywhereIsInUse | backend/src/repositories/riskTypeRepository.ts:61-63 | the phrase anywhere inside the details yields the in-use error, whatever the code |
| RiskTypeRepository.OtherErrorsRethrown | backend/src/repositories/riskTypeRepository.ts:65 | an error with neither mark is rethrown by both deletes |
| TransactionService.CalculateTransactionValue | backend/src/services/transaction.service.ts:13-15 | value is quantity × price, and positive when both are |
| TransactionService.TestedValues | backend/src/services/transaction.service.ts:13-15 | 2.5 × 100 = 250 and 2 × 150 = 300 |
| TransactionService.SamePair | backend/src/services/transaction.service.ts:19-23 | a row is in the result iff it is in the table with the given portfolio and cryptocurrency; the result is empty iff none match |
| TransactionService.SamePairMultiplicity | backend/src/services/transaction.service.ts:19-23 | each matching row is kept as often as the table holds it and no other row is kept, so repeated identical rows all count in the balance |
| TransactionService.NetBalanceIsBoughtMinusSold | backend/src/services/transaction.service.ts:27-29 | the fold's net balance is Σ BUY quantities − Σ quantities of every other row |
| TransactionService.ValidateTransactionBalance | backend/src/services/transaction.service.ts:17-34 | non-SELL is admitted without looking at history. A SELL is admitted iff a result set exists and BUY − other over the same pair ≥ the requested quantity (equality admitted) |
| TransactionService.SellWithoutHoldingsRejected | backend/src/services/transaction.service.ts:27-31 | with no history for the pair, every positive SELL (1 000 000 included) is rejected |
| TransactionService.MissingResultSetRejectsSell | backend/src/services/transaction.service.ts:25-27 | a null result set rejects a SELL that an empty list would admit |
| TransactionService.SellWholeHoldingAdmitted | backend/src/services/transaction.service.ts:31 | selling exactly what was bought is admitted |
| TransactionService.OtherPairsIrrelevant | backend/src/services/transaction.service.ts:19-23 | rows of other pairs never change the decision |
| TransactionService.OfPortfolio | backend/src/services/transaction.service.ts:37-44 | a row is in the result iff it is in the table with the given portfolio; the result is empty iff none match |
| TransactionService.OfPortfolioMultiplicity | backend/src/services/transaction.service.ts:37-44 | each row of the portfolio is kept as often as the table holds it and no other row is kept |
| TransactionService.EffectivePrice | backend/src/services/transaction.service.ts:49 | the current price when it is present and non-zero, otherwise the entry price |
| TransactionService.ValueSumOrderIndependent | backend/src/services/transaction.service.ts:48-51 | any two row lists with the same multiset of rows have the same valuation sum, so every reordering gives the same value |
| TransactionService.PortfolioValueOrderIndependent | backend/src/services/transaction.service.ts:36-52 | the portfolio value is the same for any reordering of the table, and for any two tables whose rows of that portfolio agree as a multiset |
| TransactionService.CalculatePortfolioValue | backend/src/services/transaction.service.ts:36-52 | 0 for a null result set; otherwise Σ quantity × (current price if present and non-zero, else entry price) over the portfolio's rows |
| TransactionService.EmptyPortfolioWorthNothing | backend/src/services/transaction.service.ts:46-51 | a portfolio without rows is worth 0 |
| TransactionService.PortfolioValueNonNegative | backend/src/services/transaction.service.ts:48-51 | when every row of the portfolio has non-negative quantity, entry price and current price (a current price of 0 included), the portfolio value is non-negative, whatever the other portfolios' rows hold |
| TransactionController.CreateTransaction | backend/src/controllers/transaction.controller.ts:7-13 | validation is called first with the input unchanged. A false verdict fails with "Invalid transaction" and never reaches the value computation. Otherwise the result is quantity × price |
| TransactionController.NonSellAlwaysValued | backend/src/controllers/transaction.controller.ts:8-12 | with the real service, a non-SELL never fails and returns its value |
| TransactionController.SellValuedIffCovered | backend/src/controllers/transaction.controller.ts:8-12 | with the real service, a SELL succeeds iff the history exists and covers it |
| LedgerService.CreateTransaction | backend/src/services/ledger.service.ts:6-11 | amount ≤ 0 fails with "Invalid amount" and creates nothing; otherwise the entry is passed on unchanged, exactly once, and its result returned |
| LedgerService.ZeroRejected | backend/src/services/ledger.service.ts:7 | the boundary amount 0 is rejected |
| Types.FindIndex | frontend/src/components/TransactionForm.tsx:58 | `find` returns the first element satisfying the test, or nothing iff none does |
| Api.MapToBackendType | frontend/src/lib/api.ts:4-6 | the result is BUY or SELL, and BUY iff the input is LONG |
| Api.MapToFrontendType | frontend/src/lib/api.ts:8-10 | the result is LONG or SHORT, and LONG iff the input is BUY |
| Api.DirectionRoundTrips | frontend/src/lib/api.ts:4-10 | both round trips are the identity on {LONG, SHORT} and on {BUY, SELL} |
| Api.ToFrontend | frontend/src/lib/api.ts:95-98 | a record keeps every field except the direction, which is mapped to LONG/SHORT |
| Api.GetAll | frontend/src/lib/api.ts:87-99 | a failed request gives "Failed to fetch transactions". Otherwise the list has the same length and order, each record mapped |
| Api.GetAllRecoverable | frontend/src/lib/api.ts:95-98 | for BUY/SELL data the backend records are recovered from the mapped list |
| Api.CreateBody | frontend/src/lib/api.ts:110-113 | the POST body is the input with only the direction mapped to BUY/SELL |
| Api.Create | frontend/src/lib/api.ts:100-126 | a failed POST gives "Failed to create position"; otherwise the created record is returned mapped back |
| Api.UpdateBody | frontend/src/lib/api.ts:143-146 | the direction is mapped only when present and non-empty; otherwise the body is the input, with no direction added |
| Api.Update | frontend/src/lib/api.ts:133-159 | a failed PATCH gives "Failed to update position"; otherwise the updated record is returned mapped back |
| Api.FormBuySentAsSell | frontend/src/lib/api.ts:4-6 | a BUY handed to `create` is sent as SELL |
| Api.MapAnyToBackendType | frontend/src/lib/api.ts:4-6 | corrected mapping: BUY iff the input is LONG or BUY |
| Api.CorrectedMappingKeepsIntent | frontend/src/lib/api.ts:4-10 | the corrected mapping agrees with the original on LONG/SHORT, keeps BUY and SELL as they are, and maps them back to LONG and SHORT |
| LivePrices.Accepts | frontend/src/hooks/useLivePrices.ts:33-36 | a message is accepted iff now − the symbol's last accepted time is ≥ 15000; a symbol never accepted counts as last accepted at 0 |
| LivePrices.Step | frontend/src/hooks/useLivePrices.ts:36-41 | an accepted update stores the whole update and `now` for its symbol. A rejected one changes nothing. Other symbols are never touched |
| LivePrices.DebounceWindow | frontend/src/hooks/useLivePrices.ts:33-36 | after an acceptance at t, any update for that symbol before t + 15000 is dropped |
| LivePrices.RunKeepsInvariant | frontend/src/hooks/useLivePrices.ts:30-43 | over any message stream from an empty cache, no accepted event is later than its symbol's stored timestamp, and accepted events of one symbol are at least 15000 ms apart |
| LivePrices.AcceptedUpdatesSpaced | frontend/src/hooks/useLivePrices.ts:33-41 | any two accepted updates of one symbol are at least 15000 ms apart |
| LivePrices.LivePriceFeed.constructor | frontend/src/hooks/useLivePrices.ts:13-15 | both maps start empty |
| LivePrices.LivePriceFeed.OnMessage | frontend/src/hooks/useLivePrices.ts:30-43 | accepted iff now − (last accepted time, or 0) ≥ 15000; the two maps become the `Step` of the old ones |
| LivePrices.CurrentPrice | frontend/src/hooks/useLivePrices.ts:72-78 | a live price when present and non-zero; else the current price of the first catalogue entry with the symbol, when non-zero; else 0 |
| LivePrices.PriceChange | frontend/src/hooks/useLivePrices.ts:80-86 | the live change whenever present, 0 included; else the catalogue change when non-zero; else 0 |
| LivePrices.LiveZeroTreatedDifferently | frontend/src/hooks/useLivePrices.ts:72-86 | a live 0 price falls back to the catalogue, while a live 0 change is reported as 0 |
| Statistics.TotalInvested | frontend/src/components/Statistics.tsx:16 | 0 for no trades; never negative when every price and quantity is non-negative |
| Statistics.AvgEntryPrice | frontend/src/components/Statistics.tsx:17 | 0 without trades; otherwise average × count = Σ entry prices |
| Statistics.TotalInvestedPositive | frontend/src/components/Statistics.tsx:16 | Σ price × quantity is positive for a non-empty list of positive trades |
| Statistics.CountTip | frontend/src/components/Statistics.tsx:18-19 | a direction count never exceeds the number of trades |
| Statistics.LongsAndShortsBound | frontend/src/components/Statistics.tsx:18-19 | longs + shorts ≤ trades, with equality iff every direction is LONG or SHORT |
| Statistics.TradePL | frontend/src/components/Statistics.tsx:22-29 | 0 without a cryptocurrency; otherwise (current − entry) × quantity for LONG and (entry − current) × quantity for any other direction |
| Statistics.PLMonotoneInPrice | frontend/src/components/Statistics.tsx:25-27 | with positive quantity, LONG P/L rises with the price and any other P/L falls; P/L at the entry price is 0 |
| Statistics.WithPL | frontend/src/components/Statistics.tsx:22-29 | one entry per trade, in order, carrying the trade and its P/L |
| Statistics.TotalPL | frontend/src/components/Statistics.tsx:31 | 0 for no trades; non-negative when every trade's P/L is, and non-positive when every trade's P/L is |
| Statistics.AvgPL | frontend/src/components/Statistics.tsx:31-32 | 0 without trades; otherwise average × count = total P/L |
| Statistics.BestTrade | frontend/src/components/Statistics.tsx:33 | absent iff there are no trades; otherwise the first trade of maximal P/L |
| Statistics.WorstTrade | frontend/src/components/Statistics.tsx:34 | absent iff there are no trades; otherwise the first trade of minimal P/L |
| Statistics.ChartSumsToTotal | frontend/src/components/Statistics.tsx:37-44 | the per-asset totals sum to the total P/L when trades without a cryptocurrency have P/L 0 |
| Statistics.ChartOfPageSumsToTotal | frontend/src/components/Statistics.tsx:31-44 | on the page's own figures, the chart rows sum to totalPL |
| Statistics.ChartGroupsByAsset | frontend/src/components/Statistics.tsx:37-43 | one row per distinct "name (symbol)", each holding the Σ P/L of that asset's trades; assets without a row have no P/L |
| Statistics.PlByAsset | frontend/src/components/Statistics.tsx:37-44 | the in-place dictionary accumulation yields exactly the grouped chart, in first-seen order |
| TransactionManager.CalculateCurrentValue | frontend/src/components/TransactionManager.tsx:56-61 | 0 without a cryptocurrency, else quantity × live quote |
| TransactionManager.CalculateProfitLoss | frontend/src/components/TransactionManager.tsx:63-68 | 0 without a cryptocurrency, else current value − quantity × entry price, whatever the direction |
| TransactionManager.ProfitLossVersusStatistics | frontend/src/components/TransactionManager.tsx:63-68 | equals the Statistics P/L for LONG and is its exact negation for any other direction |
| TransactionManager.ShortShownAsProfit | frontend/src/components/TransactionManager.tsx:63-68 | a SHORT of 1 at 100 quoted at 150 shows +50 here and −50 in Statistics |
| TransactionManager.DirectionalProfitLoss | frontend/src/components/TransactionManager.tsx:63-68 | corrected P/L: equals the Statistics P/L; the table's formula for LONG, its mirror otherwise |
| TransactionManager.DisplayPL | frontend/src/components/TransactionManager.tsx:249-250 | the "+" prefix and the profit colour appear iff P/L ≥ 0 |
| TransactionManager.BreakEvenShownAsProfit | frontend/src/components/TransactionManager.tsx:249-250 | a position quoted at its entry price is shown as a "+" profit |
| TransactionManager.AddTransactionDisabled | frontend/src/components/TransactionManager.tsx:111 | enabled iff there is at least one portfolio, cryptocurrency and risk type |
| TransactionFormComponent.IsToday | frontend/src/components/TransactionForm.tsx:61-66 | today iff the parsed date has today's year, month and day; an unparsable date is never today |
| TransactionFormComponent.TransactionForm.constructor | frontend/src/components/TransactionForm.tsx:48-55 | fields start from initialValues (`||` fallbacks to the default portfolio, BUY and today); otherwise empty, BUY and today. The mount effect leaves the price mode synced |
| TransactionFormComponent.TransactionForm.SyncPriceMode | frontend/src/components/TransactionForm.tsx:68-74 | a manual price is forced iff the date is not today |
| TransactionFormComponent.TransactionForm.SetDatum | frontend/src/components/TransactionForm.tsx:239 | sets the date and changes no other input. A changed date re-syncs the price mode against today. An unchanged date leaves the price mode as it was, possibly stale |
| TransactionFormComponent.TransactionForm.SelectCryptocurrency | frontend/src/components/TransactionForm.tsx:156 | sets the selection and changes no other input. A changed selection re-syncs the price mode against today. An unchanged one leaves it as it was |
| TransactionFormComponent.TransactionForm.SelectPortfolio | frontend/src/components/TransactionForm.tsx:127 | sets the portfolio id |
| TransactionFormComponent.TransactionForm.SelectRiskType | frontend/src/components/TransactionForm.tsx:198 | sets the risk type id |
| TransactionFormComponent.TransactionForm.ChooseDirection | frontend/src/components/TransactionForm.tsx:180-188 | the direction becomes BUY or SELL |
| TransactionFormComponent.TransactionForm.SetKolicina | frontend/src/components/TransactionForm.tsx:227 | sets the quantity text |
| TransactionFormComponent.TransactionForm.SetManualPrice | frontend/src/components/TransactionForm.tsx:254 | sets the manual price text |
| TransactionFormComponent.TransactionForm.SelectedCrypto | frontend/src/components/TransactionForm.tsx:58 | the index of the first catalogue entry with the selected id, or none iff no entry has it |
| TransactionFormComponent.TransactionForm.HandleSubmit | frontend/src/components/TransactionForm.tsx:76-95 | submits iff all ids, the quantity and the date are filled and the selection exists. The record carries the fields as entered. The price is the parsed manual price if forced, else the edited price, else the live quote |
| TransactionFormComponent.TransactionForm.CurrentMarketPrice | frontend/src/components/TransactionForm.tsx:106-109 | the live quote of the selection, 0 without one |
| TransactionFormComponent.TransactionForm.TotalValue | frontend/src/components/TransactionForm.tsx:111-114 | 0 with an empty quantity or no selection, else parsed quantity × live quote |
| TransactionFormComponent.TransactionForm.SubmitDisabled | frontend/src/components/TransactionForm.tsx:290 | enabled iff not loading, all ids and the quantity are filled, and a forced manual price is filled |
| TransactionFormComponent.TransactionForm.ButtonLabel | frontend/src/components/TransactionForm.tsx:291 | Saving... / Creating... / Save Changes / Create Transaction, one per case |
| TransactionFormComponent.EnabledButtonSubmits | frontend/src/components/TransactionForm.tsx:78 | an enabled button submits once a date is set and the selection exists; a submission with its manual price filled has an enabled button |
| TransactionFormComponent.LivePriceSubmittedToday | frontend/src/components/TransactionForm.tsx:79-84 | a new BTC transaction dated today is submitted at the live 50000 |
| TransactionFormComponent.BackdatedSubmitsManualPrice | frontend/src/components/TransactionForm.tsx:68-84 | after changing the date to a day that is not today, the manual price is forced and is the price submitted. Setting the same date again leaves the price mode unchanged |
| PortfolioFormComponent.Trim | frontend/src/components/PortfolioForm.tsx:20 | the result is the input with white space removed from both ends: it neither starts nor ends with white space, and it is empty iff the input is all white space |
| PortfolioFormComponent.TrimIdempotent | frontend/src/components/PortfolioForm.tsx:20 | trimming a trimmed string changes nothing |
| PortfolioFormComponent.TrimExamples | frontend/src/components/PortfolioForm.tsx:19 | spaces and tabs trim to ""; " Long term " trims to "Long term" |
| PortfolioFormComponent.PortfolioForm.constructor | frontend/src/components/PortfolioForm.tsx:14-15 | fields start from initialValues, else "" |
| PortfolioFormComponent.PortfolioForm.SetNaziv | frontend/src/components/PortfolioForm.tsx:31 | sets the name |
| PortfolioFormComponent.PortfolioForm.SetStrategija | frontend/src/components/PortfolioForm.tsx:42 | sets the strategy |
| PortfolioFormComponent.PortfolioForm.HandleSubmit | frontend/src/components/PortfolioForm.tsx:17-22 | submits iff the name is not all white space; the name and strategy are sent trimmed |
| PortfolioFormComponent.PortfolioForm.SubmitDisabled | frontend/src/components/PortfolioForm.tsx:48 | disabled iff loading or the name is all white space |
| PortfolioFormComponent.PortfolioForm.ButtonLabel | frontend/src/components/PortfolioForm.tsx:49 | Saving... / Creating... / Save Changes / Create Portfolio, one per case |
| PortfolioFormComponent.EnabledIffSubmits | frontend/src/components/PortfolioForm.tsx:48 | the button is enabled exactly when a submit goes through, and what is submitted is already trimmed |

## Left out

- Supabase queries and persistence (the repositories other than the delete-error classification, and the query parts of transaction.service.ts). Result sets and histories are inputs.
- The filters the database applies (`.eq` on portfolio and cryptocurrency) are modelled as `SamePair` and `OfPortfolio` over an input table.
- `getTransactionHistory` in transaction.service.ts is not part of this model. It is a single ordered query with no logic of its own.
- Express routing, the other controllers, authentication and `fetchWithAuth` are not part of this model; they are HTTP and session plumbing.
- The WebSocket lifecycle of useLivePrices.ts (connect, reconnect, `isConnected`) is left out. The message time `Date.now()` is the `now` parameter.
- React Query hooks, toasts, JSX rendering and `Intl.NumberFormat` formatting are not modelled.
- Floating point is not modelled: money and quantities are `real`, so there is no rounding, NaN or Infinity.
- bestTrade and worstTrade start their `reduce` from `undefined`, which becomes `None`. The `-Infinity`/`Infinity` used as the `??` fallback inside their comparisons is not needed once the start is `None`.
- `parseFloat`, `Number.prototype.toString` and `new Date(s)` are function parameters.
- TransactionFormComponent.IsToday: compares the parsed local calendar day with today's. How `new Date("YYYY-MM-DD")` shifts a date across the UTC/local boundary lives inside the parsing parameter.
- Schema.Conforms: zod's stripping of unknown keys and its error messages are not modelled; only the accept/reject verdict is.
- The race between the SELL balance check and the later insert is concurrency and is not modelled.
- `clearAllTransactions` and the row-deletion handlers of TransactionManager.tsx are I/O loops and are not modelled.
- The table badge that compares the direction with 'BUY' is presentation and is not modelled.
- The transactions `delete` call in api.ts passes no records through the direction mapping and is not modelled.
- Props of the two forms are `const` fields. A parent re-rendering with new props is not modelled.
- Cancel buttons are not modelled.
- The TransactionForm effect runs on mount in the model's constructor. The one render in which `forceManualPrice` is still `false` before the effect runs is not modelled.
- The transaction form never checks the sign of the quantity. A negative quantity is only stopped by the browser's `min` attribute, which is not modelled.

## Findings

| source | as written | input that shows it | evidently intended | confidence | as-written member | corrected member |
|---|---|---|---|---|---|---|
| frontend/src/lib/api.ts:4-6 | `mapToBackendType` sends every value other than LONG to SELL, but TransactionForm.tsx:51 and 180 produce BUY/SELL and that value reaches `transactions.create` | a new transaction with direction BUY from the form | a BUY is stored as BUY | high (not executed) | Api.FormBuySentAsSell | Api.MapAnyToBackendType |
| frontend/src/components/TransactionManager.tsx:63-68 | the table's P/L ignores direction, so a short is valued like a long | SHORT, quantity 1, entry 100, quote 150: the table shows +50 while Statistics shows −50 | direction-aware P/L as in Statistics.tsx:25-27 | medium (not executed) | TransactionManager.ShortShownAsProfit | TransactionManager.DirectionalProfitLoss |
