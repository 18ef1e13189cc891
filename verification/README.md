# EcoFlux / SolarWise tariff core in Dafny

This project models the Time-of-Use (TOU) tariff engine of the EcoFlux background process
and three pieces of the SolarWise dashboard logic, and proves properties of the model.
Only the rate history card reads the engine's output, the stored TOU records. The
smart-device figures read the user's smart-device answers (`userData.smartDevices`), and
the report panel reads the full report that the AI call returns.

- **TOU tariff engine** (`TouTariff`, `TouAlerts`). The engine has static band tables per
  customer category, a month-to-season map, and season and weekday/weekend multipliers.
  It applies two surcharges and rounds to whole paise. A stored rate above 10.00 triggers
  e-mail alerts to the users who subscribed. Recipient lookup and mail sending are
  isolated per user. Each hourly tick covers DOMESTIC, INDUSTRIAL and NON_DOMESTIC.
- **Rate history card** (`RateHistory`). It covers the Low/Moderate/High status and the
  recommendation with its percentage difference to the optimal rate of 5. It also
  covers the average rate, and the card renders nothing for an empty history.
- **Smart-device figures** (`SmartDeviceStats`). These are the fixed device table, the
  enabled devices, their monthly usage and cost, and the daily average. They also include
  the device count on the "Smart Home Setup" card, which counts comma-separated entries.
- **Report panel** (`ReportGeneration`). The panel holds five optional report sections,
  each with a loading/error status. A run resets the panel, then fills the sections in a
  fixed order and stops at an abort. The module also has the completeness and
  render-precedence rules and the Generate button's visibility.

Money and multipliers are `real`. The clock is an input: hour of day, day of week with 0
for Sunday, zero-based month, and the ISO timestamp. The Gaussian noise is also an input:
the model takes the standard-normal sample `z`, and the noise added to the base rate is
`z` times the band's variation. The document store, the identity provider, the mail
transport and the AI report call are inputs too, each reduced to its outcome of success
or failure. `Math.round(x * 100) / 100` is `((x * 100 + 0.5).Floor) / 100`, because
JavaScript rounds halves towards positive infinity.

Facts about the code that a reader of it might not expect:

- With zero noise, a DOMESTIC weekday at 14:00 in summer gives 7.0 × 1.15 × 1.1 × 1.08 × 1.05 = 10.04157.
  That rounds to 10.04 (`DomesticSummerWeekdayAfternoon`).
- `index.js` does not clamp the rate. It is non-negative only when the noisy base
  `baseRate + noise` is non-negative.
- The store and the alerts share one `try`, so a failed store also skips the alerts.
  A failed subscription query ends the tick without sending anything.
- The recommendation in `TOURateHistoryCard.tsx` compares against 5, although a comment there says 10.

## Model

| member | source | states |
|---|---|---|
| TouTariff.SeasonOf | EcoFlux/backend/index.js:56-61 | months 3–5 are summer, 6–9 monsoon, all others winter, each stated as an if-and-only-if |
| TouTariff.SeasonMatchesMonthTable | EcoFlux/backend/index.js:56-61 | over the twelve months the season map agrees with an independent month-by-month table |
| TouTariff.FirstCovering | EcoFlux/backend/index.js:77-80 | the lookup returns the first band covering the hour, and returns nothing only when no band covers it |
| TouTariff.TilingCoversOnce | EcoFlux/backend/index.js:77-79 | bands that tile a range cover exactly the hours of that range, and each hour is covered by exactly one band |
| TouTariff.Bands | EcoFlux/backend/index.js:38-49 | every category's table starts at hour 0 and ends at hour 24, and every band's noise magnitude is positive and smaller than its base rate |
| TouTariff.OneDeviationKeepsRatePositive | EcoFlux/backend/index.js:38-49 | a noise sample within one standard deviation keeps every band's noisy base, and its rate before rounding, positive |
| TouTariff.BandTablesTileTheDay | EcoFlux/backend/index.js:38-49 | every category's band table tiles the hours 0 to 24 with no gap and no overlap |
| TouTariff.BandPartition | EcoFlux/backend/index.js:38-80 | for every hour 0–23 exactly one band covers it (DOMESTIC band hour/4, otherwise the single band) and the lookup returns it; outside the day the lookup finds nothing |
| TouTariff.RoundCents | EcoFlux/backend/index.js:89 | the rounded rate is a whole number of cents within (x − 0.005, x + 0.005] |
| TouTariff.RoundCentsUnique | EcoFlux/backend/index.js:89 | the rounded value is the only whole-cent value in that window, so halves round up |
| TouTariff.RoundCentsIdempotent | EcoFlux/backend/index.js:89 | rounding a value that is already in cents leaves it unchanged |
| TouTariff.TouRate | EcoFlux/backend/index.js:71-90 | outside 0–23 the rate is exactly 5.0; otherwise it is in whole cents, within half a cent of (base + noise) × season × demand × 1.08 × 1.05 for the hour's band, and non-negative when base + noise is |
| TouTariff.UnroundedRate | EcoFlux/backend/index.js:82-88 | the rate before rounding is non-negative exactly when the noisy base is, and zero exactly when the noisy base is zero, because every multiplier is positive |
| TouTariff.UnroundedEnvelope | EcoFlux/backend/index.js:51-53 | for every season and day, the product of the multipliers lies between 0.9·0.95·1.08·1.05 and 1.15·1.1·1.08·1.05 |
| TouTariff.RateEnvelope | EcoFlux/backend/index.js:82-89 | when the noisy base (base + noise) is non-negative, a rate lies between the noisy base times the smallest multiplier product and times the largest, give or take half a cent; for a negative noisy base the bounds swap and the lemma does not apply |
| TouTariff.DomesticSummerWeekdayAfternoon | EcoFlux/backend/index.js:71-89 | DOMESTIC, 14:00, weekday, May, zero noise gives 10.04 |
| TouAlerts.ContactOf | EcoFlux/backend/index.js:102-104 | a user has a contact address exactly when the lookup succeeded with a non-empty e-mail |
| TouAlerts.RecipientFor | EcoFlux/backend/index.js:102-105 | a recipient is built exactly when there is a contact address; the profile's own e-mail field overrides the account address |
| TouAlerts.ResolveRecipients | EcoFlux/backend/index.js:99-110 | never more recipients than queried profiles |
| TouAlerts.ResolveMembership | EcoFlux/backend/index.js:99-110 | a recipient is in the result exactly when its profile was queried and that profile's lookup yields it |
| TouAlerts.ResolveConcat | EcoFlux/backend/index.js:99-110 | resolution distributes over concatenation, so recipients keep query order |
| TouAlerts.FailedLookupIsolated | EcoFlux/backend/index.js:101-109 | a failed lookup removes exactly that profile: the result is the recipients before it followed by those after it |
| TouAlerts.FetchUsersWithEmailNotifications | EcoFlux/backend/index.js:92-113 | the lookup loop with its caught failures computes exactly the resolved recipients |
| TouAlerts.Deliveries | EcoFlux/backend/index.js:116-128 | one send attempt per recipient |
| TouAlerts.SendEmailToUsers | EcoFlux/backend/index.js:115-129 | the i-th recipient gets the i-th attempt with the rate, whatever earlier sends returned; each outcome is the transport's answer to that call |
| TouAlerts.SendIsolation | EcoFlux/backend/index.js:116-128 | changing one send's outcome changes no other attempt's recipient, rate or outcome |
| TouAlerts.StoreAndAlert | EcoFlux/backend/index.js:131-147 | a record (category, rate, timestamp) is stored exactly when the store accepts it; alerts go out exactly when it was stored and the rate is above 10.0; a failed query sends nothing |
| TouAlerts.ThresholdIsStrict | EcoFlux/backend/index.js:140 | a stored rate of exactly 10.00 alerts nobody, while 10.01 alerts |
| TouAlerts.Tick | EcoFlux/backend/index.js:131-147 | one tick stores the computed rate for its category and timestamp exactly when the store accepts, and alerts exactly when that rate is above the threshold |
| TouAlerts.ScheduledTick | EcoFlux/backend/index.js:149-151 | each hourly tick runs DOMESTIC, INDUSTRIAL and NON_DOMESTIC in turn, and each tick depends only on its own category's noise and collaborators |
| TouAlerts.AcceptedRecords | EcoFlux/backend/index.js:131-151 | the intended records of a tick are as many as the accepting categories, and each belongs to a category of the tick whose store accepted |
| TouAlerts.AcceptedRecordsDistinct | EcoFlux/backend/index.js:149-151 | over distinct categories, no two intended records share a category |
| TouAlerts.RecordsPerTick | EcoFlux/backend/index.js:131-151 | the records a tick stores are exactly the intended ones: the category, its computed rate and the timestamp, for each accepting category in turn, and nothing for the others |
| TouAlerts.AtMostOneRecordPerCategory | EcoFlux/backend/index.js:149-151 | no two records stored by one scheduled tick share a category, and every stored record belongs to a category whose store accepted |
| RateHistory.RateStatus | SolarWise/src/components/dashboard/TOURateHistoryCard.tsx:34-38 | Low iff rate < 5, Moderate iff 5 ≤ rate < 10, High iff rate ≥ 10 |
| RateHistory.TierMonotone | SolarWise/src/components/dashboard/TOURateHistoryCard.tsx:34-38 | a higher rate never gets a lower tier |
| RateHistory.GetRecommendation | SolarWise/src/components/dashboard/TOURateHistoryCard.tsx:40-68 | same tier as the status for every rate; destructive iff rate ≥ 10; difference × 5 = (rate − 5) × 100, negative iff rate < 5; the printed percentage is its magnitude and never negative |
| RateHistory.SumRates | SolarWise/src/components/dashboard/TOURateHistoryCard.tsx:31-32 | the `reduce` sum of a history without negative rates is non-negative |
| RateHistory.SumBounds | SolarWise/src/components/dashboard/TOURateHistoryCard.tsx:31-32 | a sum of rates within [lo, hi] lies within [n·lo, n·hi] |
| RateHistory.AverageWithin | SolarWise/src/components/dashboard/TOURateHistoryCard.tsx:31-32 | any common bounds on the rates also bound their average |
| RateHistory.AverageRate | SolarWise/src/components/dashboard/TOURateHistoryCard.tsx:31-32 | the average of a non-empty history lies between its smallest and largest rate |
| RateHistory.RenderHistoryCard | SolarWise/src/components/dashboard/TOURateHistoryCard.tsx:101-104 | nothing is shown iff the history is empty; otherwise the latest rate with its status and matching recommendation tier, and an average within the rates' range |
| SmartDeviceStats.DevicesList | SolarWise/src/components/dashboard/StatsCards.tsx:97-142 | the table holds four devices with distinct names, each with a positive monthly usage and a monthly cost of 8 rupees per kWh |
| SmartDeviceStats.EnabledDevices | SolarWise/src/components/dashboard/StatsCards.tsx:144 | a device is enabled for the user exactly when it is in the table and its answer is yes |
| SmartDeviceStats.EnabledOnly | SolarWise/src/components/dashboard/StatsCards.tsx:144 | the filter keeps only devices of the input that are enabled |
| SmartDeviceStats.EnabledOnlyConcat | SolarWise/src/components/dashboard/StatsCards.tsx:144 | filtering distributes over concatenation, so order is kept |
| SmartDeviceStats.EnabledOnlyKeepsEnabled | SolarWise/src/components/dashboard/StatsCards.tsx:144 | every enabled device of the input is kept |
| SmartDeviceStats.EnabledDevicesByFlag | SolarWise/src/components/dashboard/StatsCards.tsx:97-144 | the enabled devices are exactly thermostat, washing machine, dishwasher and EV charger, in that order, each present iff its answer is yes |
| SmartDeviceStats.ActiveDeviceCount | SolarWise/src/components/dashboard/StatsCards.tsx:253 | the active-device count is the number of yes answers |
| SmartDeviceStats.TotalsByFlag | SolarWise/src/components/dashboard/StatsCards.tsx:97-152 | the sums over the filtered table equal the per-device usage and cost of the yes answers |
| SmartDeviceStats.TotalMonthlyUsage | SolarWise/src/components/dashboard/StatsCards.tsx:145-148 | usage is 36/20/18/120 kWh for each enabled device and 0 for disabled ones, so between 0 and 194 |
| SmartDeviceStats.TotalMonthlyCost | SolarWise/src/components/dashboard/StatsCards.tsx:149-152 | cost is 288/160/144/960 for each enabled device, which is 8 × the total usage |
| SmartDeviceStats.AverageDaily | SolarWise/src/components/dashboard/StatsCards.tsx:153 | the daily average times 30 is the monthly usage, so it lies between 0 and 194/30 |
| SmartDeviceStats.Split | SolarWise/src/components/dashboard/StatsCards.tsx:384 | splitting gives one more piece than there are separators, and no piece contains a separator |
| SmartDeviceStats.JoinSplit | SolarWise/src/components/dashboard/StatsCards.tsx:384 | joining the pieces with the separator gives back the original text |
| SmartDeviceStats.SmartHomeDeviceCount | SolarWise/src/components/dashboard/StatsCards.tsx:381-386 | the card count is the true answers plus, when `other` is non-empty, its commas plus one |
| SmartDeviceStats.CardCountAgreesWithDialog | SolarWise/src/components/dashboard/StatsCards.tsx:381-386 | the card count is the dialog's active-device count plus the entries of `other` |
| ReportGeneration.StartSection | SolarWise/src/components/dashboard/GenerateReportButton.tsx:97-100 | starting a section sets only its status to loading without an error |
| ReportGeneration.FinishSection | SolarWise/src/components/dashboard/GenerateReportButton.tsx:102-127 | after the try, catch and finally the section is not loading; it carries the failure message if the read threw and keeps its error otherwise; its data is replaced only by a non-null value; no other section changes |
| ReportGeneration.GenerateSection | SolarWise/src/components/dashboard/GenerateReportButton.tsx:93-128 | afterwards the section is not loading; it has an error iff reading it threw; its data is replaced only when the full report has a value for it; no other section changes |
| ReportGeneration.HandleGenerateReport | SolarWise/src/components/dashboard/GenerateReportButton.tsx:130-134 | without user data or DISCOM information, the statuses are reset and nothing else changes: the report, the generating flag and the report-generated flag are untouched |
| ReportGeneration.RunSections | SolarWise/src/components/dashboard/GenerateReportButton.tsx:182-186 | a loop whose first check sees the abort changes nothing; otherwise sections outside the list and both flags stay as they were, and every listed section is either left as it was or ends not loading |
| ReportGeneration.RunSectionsPrefix | SolarWise/src/components/dashboard/GenerateReportButton.tsx:182-186 | the section loop fills its sections in order up to the first check that sees the abort; later sections and all other sections stay untouched |
| ReportGeneration.SectionOrderCoversAll | SolarWise/src/components/dashboard/GenerateReportButton.tsx:174-180 | the fill order names each of the five sections exactly once |
| ReportGeneration.RunFillsPrefixInOrder | SolarWise/src/components/dashboard/GenerateReportButton.tsx:136-196 | a run resets the panel, then fills the first sections in the fixed order from the full report and leaves the rest reset; it is still generating iff some check saw the abort |
| ReportGeneration.FailedGenerationResets | SolarWise/src/components/dashboard/GenerateReportButton.tsx:187-190 | a failed AI call leaves the report and all statuses reset and stops generating |
| ReportGeneration.IsReportComplete | SolarWise/src/components/dashboard/GenerateReportButton.tsx:240-242 | the report is complete iff every section is non-null |
| ReportGeneration.AllSectionsEmpty | SolarWise/src/components/dashboard/GenerateReportButton.tsx:248 | the report is all-empty iff every section is null |
| ReportGeneration.CompleteRunIffAllSectionsPresent | SolarWise/src/components/dashboard/GenerateReportButton.tsx:240-242 | a run that is never aborted ends complete iff the full report has a value for every section, and it stops generating |
| ReportGeneration.RenderSection | SolarWise/src/components/dashboard/GenerateReportButton.tsx:212-238 | the loading placeholder comes before the error message, which comes before the data; a null section that is not loading and has no error renders nothing |
| ReportGeneration.RenderAfterGeneration | SolarWise/src/components/dashboard/GenerateReportButton.tsx:93-128 | a starting section shows the placeholder; after generation it shows the failure message if the read threw, its card if the full report had it, and otherwise what it held before |
| ReportGeneration.GenerateButton | SolarWise/src/components/dashboard/GenerateReportButton.tsx:248-252 | the button shows iff every section is null, and is disabled iff a run is generating or there is no energy data |

## Left out

- The Box–Muller sampler (`Math.random`, `Math.log`, `Math.cos`, `Math.sqrt`) is left out because it is floating-point transcendental maths. The standard-normal sample is an input. The unguarded `u1 = 0` case, which gives an infinite sample, is not modelled.
- IEEE-754 doubles are left out: all money and multipliers are exact reals. Effects of binary rounding in the products or at exact half-cent ties are not modelled.
- The clock (`new Date()`) is left out. One clock reading serves the season, the hour, the weekday and the timestamp of a tick. The source reads the clock several times, and those reads could straddle an hour or month boundary.
- Firestore (`addDoc`, `getDocs`, `query`/`where`), firebase-admin `auth.getUser` and Resend `emails.send` are external I/O. Each is an input outcome. The subscription query's result, already filtered on `notificationMethod == "email"`, is an input.
- The `node-cron` timing and the fire-and-forget `forEach(async …)` are left out. One tick is a sequential pass over the three categories. Overlap between categories or between ticks is not modelled, so each category's tick reads only its own inputs.
- Logging (`console.log`/`console.error`) is left out because it has no effect on the state.
- The text of the alert e-mail (sender, subject, HTML body) is fixed. An alert keeps only its recipient and rate.
- ReportGeneration.HandleGenerateReport: a run is modelled on its own. A second run that aborts it would also reset the panel, and that interleaving is not modelled. The abort controller reference and the toast are left out.
- React rendering, JSX, dialogs, charts, `useCopilotReadable`, the PDF link and the `generateReport` AI call are UI or foreign calls. The AI call is reduced to its outcome: a full report whose sections read as a value, as null or as an exception.
- The strings of the history card (titles, descriptions, colours, `toFixed`) are left out because they are fixed by the tier or are formatting. The tier, the variant and the two percentages are modelled.
- For an empty history the source computes the average as 0/0 (NaN) but renders nothing. The model computes the average only for a non-empty history.
- The icons, tips, usage-frequency and peak-hour strings of the device table are display text and are left out.
- The battery "Full" highlight compares `toFixed` strings and is left out as formatting.
- `SolarWise/src/app/api/copilotkit/route.ts` is a thin wrapper over an SDK and is not part of this model. `SolarWise/src/types/user.ts` only declares types, which the model mirrors as datatypes (`TouRecord`, `SmartDevices`, `Category`).
