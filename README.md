# Farming assistant — verified model of the page rules

This project models the deterministic rules of a React farming assistant and proves properties of them in Dafny. The rules are the ones behind its pages: mandi price forecasting, yield and profit prediction, the cultivation planner, soil-based crop recommendation, the farming chatbot, plant-disease detection, the Gemini request helper, and the language preference.

Modules, one per source file, plus three helper modules:

| module | file | models |
|---|---|---|
| `Wrappers` | wrappers.dfy | `Option` and `Result`: JavaScript's `null`/`undefined` and thrown errors |
| `JsMath` | js_math.dfy | `Math.round`, `Math.ceil`/`Math.floor` of a quotient, `Math.abs`, `Math.max` |
| `Text` | text.dfy | the string built-ins the pages use: `\s` whitespace, `trim`-blankness, ASCII `toLowerCase`, `indexOf`/`includes`, `replace` of the first match, `split` on one character, decimal printing |
| `PriceForecasting` | price_forecasting.dfy | `PRICE_DATABASE`, the cascading selectors, `handleSearch` and the hold/sell tier |
| `YieldPrediction` | yield_prediction.dfy | `CROP_DB` and `calculate` with its seven-way cost breakdown |
| `CropPlanner` | crop_planner.dfy | `CROP_SCHEDULES`, `generatePlan` and the stage label and colour rules |
| `CropRecommendation` | crop_recommendation.dfy | `SOIL_DATA`, state matching, the latitude fallback, the two location handlers, submission and `formatDuration`; the page as a class |
| `Chatbot` | chatbot.dfy | `KNOWLEDGE_BASE`, `generateLocalResponse` (a loop proved against a specification function), the online reply, the speech language map, and the message log of `handleSend` as a class |
| `DiseaseDetection` | disease_detection.dfy | the image list (append and keep five, remove by index), the error record, and the page as a class |
| `Gemini` | gemini.dfy | `analyzeDiseaseImages`: language names, data-URL splitting, the request, the retry, response classification and JSON-span extraction |
| `LanguageContext` | language_context.dfy | `localStorage` as a class over a map, and `LanguageProvider` |

Conventions:

- JavaScript numbers are `real` and prices are `int`.
- `Math.round(x)` is `(x + 1/2).Floor`.
- Dates are day numbers, and the difference between the chosen date and today (`diffDays`) is an `int` input.
- The translation function `t` is an opaque `string -> string` parameter.
- Network answers are input datatypes:
  - `Gemini.Exchange`: the request threw, or it got a response with `ok`, a status and a body;
  - `CropRecommendation.SearchOutcome` and `CropRecommendation.ReverseOutcome`: the Nominatim geocoder's answers.
- `JSON.parse` of the extracted text is a `parse` parameter.
- The asynchronous handlers are split where their intermediate state can be seen:
  - `Chatbot.ChatSession.StartSend` and `CompleteSend`, around the wait for the reply;
  - `DiseaseDetection.DiseasePage.BeginAnalyze` and `CompleteAnalyze`;
  - `CropRecommendation.RecommendationPage.BeginSubmit` and `FinishSubmit`, around the timer.

  Each pair is also composed into one method (`Send`, `Analyze`), which states the net effect.

Three numbers the code gives that a reader might expect otherwise:

- A date 45 days ahead is in the second started month, so the price is projected by ×1.04, that is 1 + 2 × 0.02 (`PriceForecasting.FortyFiveDaysAhead`).
- The seven rounded breakdown values sum to within 3.5 of the total cost, one half per row (`YieldPrediction.BreakdownSumNearCost`).
- The wheat plan runs from sowing − 15 to sowing + 130 days (`CropPlanner.WheatPlanSpan`). From a sowing day of 2024-11-01 that is 2024-10-17 to 2025-03-11.

## Model

| member | source | states |
|---|---|---|
| PriceForecasting.SelectCrop | src/pages/PriceForecasting.jsx:167 | choosing a crop sets it and empties state, district and market; the rate type is kept |
| PriceForecasting.SelectState | src/pages/PriceForecasting.jsx:175 | choosing a state keeps the crop, sets the state and empties district and market |
| PriceForecasting.SelectDistrict | src/pages/PriceForecasting.jsx:183 | choosing a district keeps crop and state and empties the market |
| PriceForecasting.SelectMarket | src/pages/PriceForecasting.jsx:191 | choosing a market changes only the market; crop, state, district and rate type are kept |
| PriceForecasting.Lookup | src/pages/PriceForecasting.jsx:96 | the four-level lookup finds an entry exactly when crop, state, district and market form a path of the table, and the entry found is the one stored at that path |
| PriceForecasting.TrendIndex | src/pages/PriceForecasting.jsx:123-124 | for a past date within 180 days the trend index is `max(0, 5 − abs(floor(d/30)))` and always lies in 0..4 |
| PriceForecasting.MonthsAhead | src/pages/PriceForecasting.jsx:132 | the number of started 30-day months ahead: the least r with diffDays ≤ 30·r, which for 1..180 days lies in 1..6 |
| PriceForecasting.ToFixed1 | src/pages/PriceForecasting.jsx:139 | the percentage printed to one decimal is a multiple of 0.1 within 0.05 of the exact value and keeps a non-negative value non-negative |
| PriceForecasting.TierFor | src/pages/PriceForecasting.jsx:276-282 | the tier is total and exclusive: above 3 is strong hold, in (0, 3] is hold, and zero, negative or NaN is sell |
| PriceForecasting.TrendData | src/pages/PriceForecasting.jsx:103-106 | the chart has one point per trend entry with that price, labelled Jan..Jun for the first six |
| PriceForecasting.StateOptions | src/pages/PriceForecasting.jsx:85 | the state menu lists exactly the states under a chosen crop, and nothing before a crop is chosen |
| PriceForecasting.DistrictOptions | src/pages/PriceForecasting.jsx:86 | the district menu lists exactly the districts under the chosen crop and state, and nothing while either is empty |
| PriceForecasting.MarketOptions | src/pages/PriceForecasting.jsx:87 | the market menu lists exactly the markets under the chosen crop, state and district, and nothing while any is empty |
| PriceForecasting.CurrentPrice | src/pages/PriceForecasting.jsx:102 | the price of the chosen rate type; it is null exactly for the MSP of a crop without one |
| PriceForecasting.PriceForDate | src/pages/PriceForecasting.jsx:109-135 | with no date or today's date the price is the current price; the projection is null only when the current price is; the far bands and the future always give a number |
| PriceForecasting.DateLabelFor | src/pages/PriceForecasting.jsx:110-135 | the caption is "current price" exactly for no date or today, "on date" exactly for a past date, and "predicted" exactly for a future date |
| PriceForecasting.PredictedPrice | src/pages/PriceForecasting.jsx:138 | the prediction is within one half of 1.05 times the current price, null read as 0 |
| PriceForecasting.ChangePercent | src/pages/PriceForecasting.jsx:139 | the change is NaN exactly when the price is null or zero; otherwise it is within 0.05 of the exact percent rise |
| PriceForecasting.Search | src/pages/PriceForecasting.jsx:89-154 | an empty selector fails with "fill all fields"; a filled path absent from the table fails with "no data", and only then; otherwise the result echoes the five selections and carries, for the entry stored at that path, the current price of the rate type, the projection and caption for the date, the prediction, the change, the chart points and the MSP |
| PriceForecasting.NoDateIsCurrentPrice | src/pages/PriceForecasting.jsx:102-112 | without a date the shown price is the current price under the "current price" label |
| PriceForecasting.PastDateReadsOlderTrendPoint | src/pages/PriceForecasting.jsx:121-125 | a past date within 180 days reads the trend entry at its index; the newest entry (index 5) is never read; later dates read a point no older; the last 30 days read index 4 and dates beyond 150 days read index 0 |
| PriceForecasting.ZeroTrendPointFallsBack | src/pages/PriceForecasting.jsx:124 | a zero trend entry falls back to the current price through JavaScript's or-operator |
| PriceForecasting.FarBands | src/pages/PriceForecasting.jsx:117-135 | beyond 180 days back the price is round(current × 0.85); beyond 180 days ahead it is round(current × 1.15); day 0 takes no branch and shows the current price |
| PriceForecasting.ScaleMonotone | src/pages/PriceForecasting.jsx:133 | scaling a non-negative price by a larger factor never gives a smaller rounded price |
| PriceForecasting.NearFutureBand | src/pages/PriceForecasting.jsx:130-134 | 1..180 days ahead the price is round(current × (1 + 0.02 × started months)) |
| PriceForecasting.NearFutureFactorMonotone | src/pages/PriceForecasting.jsx:132-133 | the near-future factor lies in [1, 1.12] and never decreases as the date moves ahead |
| PriceForecasting.FutureValueIsProjection | src/pages/PriceForecasting.jsx:126-134 | every future date's price is the two-band projection of the current price |
| PriceForecasting.ScaleAtLeastOne | src/pages/PriceForecasting.jsx:128-133 | a factor of at least 1 never lowers a non-negative price |
| PriceForecasting.NearBandMonotone | src/pages/PriceForecasting.jsx:130-134 | within 1..180 days ahead the projection is at least the current price and never decreases with the date |
| PriceForecasting.NearBandAtLeastCurrent | src/pages/PriceForecasting.jsx:130-134 | 1..180 days ahead the projection is never below a non-negative current price |
| PriceForecasting.NearBandOrdered | src/pages/PriceForecasting.jsx:130-134 | within 1..180 days ahead a later date never projects a lower price |
| PriceForecasting.NearBandBelowFarBand | src/pages/PriceForecasting.jsx:126-134 | any date within 180 days ahead projects no higher than any date beyond 180 days |
| PriceForecasting.FarBandAtLeastCurrent | src/pages/PriceForecasting.jsx:126-129 | beyond 180 days ahead the projection is at least the current price |
| PriceForecasting.FutureValueMonotone | src/pages/PriceForecasting.jsx:126-134 | over all future dates the projection is at least the current price and never decreases with the date |
| PriceForecasting.FutureProjectionMonotone | src/pages/PriceForecasting.jsx:126-134 | for a non-negative current price, a later future date never shows a lower price, and none is below the current price |
| PriceForecasting.FortyFiveDaysAhead | src/pages/PriceForecasting.jsx:130-134 | 45 days ahead projects round(current × 1.04) |
| PriceForecasting.DeepPastDiscount | src/pages/PriceForecasting.jsx:117-119 | a date more than 180 days back never shows more than the current price |
| PriceForecasting.PredictionNeverBelowCurrent | src/pages/PriceForecasting.jsx:138-139 | the next-month prediction is at least the current price, so a positive price gives a finite, non-negative change |
| PriceForecasting.NullPriceSignalsSell | src/pages/PriceForecasting.jsx:139 | a missing or zero price (tomato has no MSP) gives a NaN change and the sell tier |
| PriceForecasting.PricesFrom26AreStrongHold | src/pages/PriceForecasting.jsx:138-139 | every price of 26 or more shows the strong-hold tier |
| PriceForecasting.SmallPriceCanSell | src/pages/PriceForecasting.jsx:138-139 | a price of 7 rounds to a prediction of 7, a 0.0% change and the sell tier |
| PriceForecasting.MenuChoicesAlwaysFound | src/pages/PriceForecasting.jsx:84-100 | a form filled from the offered options always finds an entry |
| PriceForecasting.ReselectionNeedsRefill | src/pages/PriceForecasting.jsx:91-94 | after changing crop, state or district, searching fails with "fill all fields" until the lower selectors are chosen again |
| YieldPrediction.AreaInAcres | src/pages/YieldPrediction.jsx:42-43 | acres are taken as entered, and a non-negative area in hectares is never smaller in acres |
| YieldPrediction.Breakdown | src/pages/YieldPrediction.jsx:51-59 | seven rows, seeds to transport in fixed order, each within one half of cost × its fraction |
| YieldPrediction.FiguresFor | src/pages/YieldPrediction.jsx:45-59 | yield = acres × yield per acre, revenue = yield × price, cost = acres × cost per acre, profit = revenue − cost, and the breakdown splits that cost |
| YieldPrediction.Calculate | src/pages/YieldPrediction.jsx:36-59 | nothing is computed exactly when crop or area is empty; otherwise the figures of the crop's row for the area in acres |
| YieldPrediction.FractionsSumToOne | src/pages/YieldPrediction.jsx:51-59 | the seven fractions sum to exactly 1 |
| YieldPrediction.BreakdownSumNearCost | src/pages/YieldPrediction.jsx:51-59 | the rows printed above the total add up to within 3.5 of the printed total cost |
| YieldPrediction.HectareEquivalence | src/pages/YieldPrediction.jsx:43 | an area in hectares gives the same result as 2.47 times that area in acres |
| YieldPrediction.EmptyInputComputesNothing | src/pages/YieldPrediction.jsx:38 | an empty crop or area computes no result |
| YieldPrediction.FiguresScaleWithArea | src/pages/YieldPrediction.jsx:45-48 | for non-negative inputs yield, revenue and cost are non-negative, and all four figures scale linearly with the area |
| YieldPrediction.TableRowsNonNegative | src/pages/YieldPrediction.jsx:10-27 | every table row has a positive yield, price and cost |
| CropPlanner.PlanFor | src/pages/CropPlanner.jsx:60-69 | the plan has the table's length and order, keeps each stage's day, title and description, and dates each at sowing + day |
| CropPlanner.GeneratePlan | src/pages/CropPlanner.jsx:50-69 | a missing crop or date does nothing, and only then; a filled form whose crop has no schedule gets "coming soon", and only then; otherwise the crop's plan |
| CropPlanner.NextPlan | src/pages/CropPlanner.jsx:52-62 | only a generated plan replaces the shown plan; the other outcomes leave it as it was |
| CropPlanner.LabelFor | src/pages/CropPlanner.jsx:118 | day 0 is "sowing day", a positive day N is "day N", and a negative day is "abs(N) days before", each exactly when its condition holds |
| CropPlanner.RenderLabel | src/pages/CropPlanner.jsx:118 | sowing day is the translated word; "day N" starts with the translated word and ends with digits that read back to N; "N days before" starts with digits that read back to N and ends with the translated words |
| CropPlanner.HighlightMatchesLabel | src/pages/CropPlanner.jsx:116-123 | a stage is drawn red exactly when its label is "days before", and the printed number reads back as the day's magnitude |
| CropPlanner.StepsGiveOrder | src/pages/CropPlanner.jsx:8-41 | offsets that increase step by step increase between any two stages |
| CropPlanner.WellFormedFromSteps | src/pages/CropPlanner.jsx:8-41 | a table with increasing steps, a negative first stage and a day-0 stage is well formed (ordered, exactly one day 0) |
| CropPlanner.WheatWellFormed | src/pages/CropPlanner.jsx:8-19 | the wheat schedule is well formed |
| CropPlanner.PaddyWellFormed | src/pages/CropPlanner.jsx:20-31 | the paddy schedule is well formed |
| CropPlanner.MaizeWellFormed | src/pages/CropPlanner.jsx:32-41 | the maize schedule is well formed |
| CropPlanner.SchedulesWellFormed | src/pages/CropPlanner.jsx:7-42 | every schedule starts before sowing, has strictly increasing offsets and exactly one day-0 stage |
| CropPlanner.PlanDatesIncrease | src/pages/CropPlanner.jsx:60-69 | every scheduled crop gets a plan whose dates strictly increase |
| CropPlanner.PlanAnchoredAtSowing | src/pages/CropPlanner.jsx:60-69 | every plan starts before the sowing date and has a stage on the sowing date labelled "sowing day" |
| CropPlanner.ComingSoonCrops | src/pages/CropPlanner.jsx:54-58 | of the crops offered in the form, exactly cotton, sugarcane, tomato and potato get "coming soon" |
| CropPlanner.WheatPlanSpan | src/pages/CropPlanner.jsx:8-19 | the wheat plan has ten stages, from land preparation at sowing − 15 to marketing at sowing + 130 |
| CropRecommendation.SoilRow | src/pages/CropRecommendation.jsx:9-46 | a key has a soil row exactly when it is one of the table's nine keys, and the row is the one declared under it |
| CropRecommendation.RowsHavePositiveNP | src/pages/CropRecommendation.jsx:9-46 | every soil row has positive nitrogen and phosphorus |
| CropRecommendation.KeyIgnoringCase | src/pages/CropRecommendation.jsx:62-63 | the search returns the first key, in declaration order, equal to the name ignoring case, or none when no key is |
| CropRecommendation.MatchStateToDb | src/pages/CropRecommendation.jsx:59-64 | an empty name matches nothing; a match is a table key equal, ignoring case, to the name with all whitespace removed; no match means no key is |
| CropRecommendation.TamilNaduWithSpaceMatches | src/pages/CropRecommendation.jsx:61 | "Tamil Nadu" matches the key "TamilNadu" |
| CropRecommendation.FallbackFromLat | src/pages/CropRecommendation.jsx:66-71 | above 28° is Punjab, (24°, 28°] Uttar Pradesh, (18°, 24°] Maharashtra, and otherwise Tamil Nadu, each exactly on its band |
| CropRecommendation.FallbackBoundsAreStrict | src/pages/CropRecommendation.jsx:67-69 | a latitude exactly on a boundary falls to the southern band |
| CropRecommendation.ResolveKey | src/pages/CropRecommendation.jsx:88-94 | the resolved key is the matched state if any, else the latitude fallback, and is always a table key |
| CropRecommendation.ResolvedKeyHasRow | src/pages/CropRecommendation.jsx:96-98 | the resolved key always has a soil row, so the "Generic" branches are never taken |
| CropRecommendation.FromRow | src/pages/CropRecommendation.jsx:98 | the form is filled with the row's N, P, K and pH |
| CropRecommendation.WithField | src/pages/CropRecommendation.jsx:154-156 | editing a field replaces that field with the typed text and keeps the others |
| CropRecommendation.Or | src/pages/CropRecommendation.jsx:85-86 | the or-operator on strings: a when non-empty, else b |
| CropRecommendation.Settle | src/pages/CropRecommendation.jsx:96-104 | a table key fills the form from its row and shows "city, state" |
| CropRecommendation.SearchUpdate | src/pages/CropRecommendation.jsx:73-113 | a failed or empty search changes nothing; a found place fills the form from the row of its resolved state and shows its first named locality (or the search text) with the state or region |
| CropRecommendation.MapUpdate | src/pages/CropRecommendation.jsx:115-152 | a failed reverse lookup sets N 100, P 50, K 50, pH 7.0 and the coordinates to two decimals; otherwise the form is filled from the resolved row and the first named locality (or "Selected Area") is shown with the state |
| CropRecommendation.LookupFillsSubmittableInputs | src/pages/CropRecommendation.jsx:160 | a form filled from any soil row passes the submit check |
| CropRecommendation.FirstKeyIn | src/pages/CropRecommendation.jsx:171 | the first key, in declaration order, that occurs in the location, or none when none does |
| CropRecommendation.Recommend | src/pages/CropRecommendation.jsx:169-183 | the crops of the first key occurring in the location, else the fixed four-crop list; always four crops |
| CropRecommendation.TopResultIsFirstNotBest | src/pages/CropRecommendation.jsx:263-267 | for Tamil Nadu the top card is paddy at 94 although a later crop scores higher |
| CropRecommendation.ChennaiLacksTamilNaduKey | src/pages/CropRecommendation.jsx:171 | "Chennai, Tamil Nadu", as the handlers write it, does not contain the key "TamilNadu" |
| CropRecommendation.SpacedStateGetsGenericList | src/pages/CropRecommendation.jsx:171-183 | a location shown as "Chennai, Tamil Nadu" gets the generic list, not Tamil Nadu's crops |
| CropRecommendation.FormatDuration | src/pages/CropRecommendation.jsx:190-194 | empty stays empty, "running" is translated, any other text has its first "days" replaced by the translated word, and text without "days" is unchanged |
| CropRecommendation.FormatDaysDuration | src/pages/CropRecommendation.jsx:193 | "<count> days" becomes "<count> " followed by the translated word, for any count without a "d", such as "125" or "300+" |
| CropRecommendation.RecommendationPage.constructor | src/pages/CropRecommendation.jsx:50-55 | the page starts with empty search, location and inputs, no result and nothing loading |
| CropRecommendation.RecommendationPage.SetSearchText | src/pages/CropRecommendation.jsx:52 | typing changes only the search text |
| CropRecommendation.RecommendationPage.Search | src/pages/CropRecommendation.jsx:73-113 | blank search text does nothing; otherwise inputs and location become the search update and loading ends |
| CropRecommendation.RecommendationPage.SelectOnMap | src/pages/CropRecommendation.jsx:115-152 | inputs and location become the map update and loading ends |
| CropRecommendation.RecommendationPage.EditField | src/pages/CropRecommendation.jsx:154-156 | an edit changes only that input field |
| CropRecommendation.RecommendationPage.BeginSubmit | src/pages/CropRecommendation.jsx:158-165 | submission starts, with the location as it is now, exactly when N and P are truthy |
| CropRecommendation.RecommendationPage.FinishSubmit | src/pages/CropRecommendation.jsx:167-186 | the timer shows the recommendation for the captured location and ends loading |
| CropRecommendation.RecommendationPage.CheckAnother | src/pages/CropRecommendation.jsx:274 | "check another" clears the result and keeps the form |
| Chatbot.KnowledgeBase | src/pages/Chatbot.jsx:105-116 | ten entries in table order, the greeting entry first with the translated greeting |
| Chatbot.FirstMatch | src/pages/Chatbot.jsx:120-124 | the first entry at or after a position with a keyword matching as a whole word, or none |
| Chatbot.LocalResponse | src/pages/Chatbot.jsx:118-126 | the response of the first entry with a whole-word keyword match in the lower-cased text, else the fixed local-knowledge message |
| Chatbot.GenerateLocalResponse | src/pages/Chatbot.jsx:118-126 | the loop returns exactly the local response |
| Chatbot.LocalResponseIgnoresCase | src/pages/Chatbot.jsx:119-121 | a question and its lower-cased form get the same answer |
| Chatbot.RustQuestionLowered | src/pages/Chatbot.jsx:119 | "My wheat has rust" lower-cases to "my wheat has rust" |
| Chatbot.RustQuestionNoGreeting | src/pages/Chatbot.jsx:106 | no greeting keyword occurs as a word in "my wheat has rust" |
| Chatbot.RustQuestionNamesWheat | src/pages/Chatbot.jsx:107 | the wheat entry matches "my wheat has rust" |
| Chatbot.WheatBeforeFungus | src/pages/Chatbot.jsx:106-124 | "My wheat has rust" gets the wheat answer, not the fungal one: order wins over specificity |
| Chatbot.NoMatchInsideWord | src/pages/Chatbot.jsx:121 | "hi" occurs in "this" but not as a whole word |
| Chatbot.ChatReply | src/pages/Chatbot.jsx:128-164 | a thrown request or an unparsable body is "couldn't connect"; an error body is "Error: message."; a body without a first candidate's content is "couldn't generate"; content without parts is "couldn't connect" (the thrown type error is caught); otherwise the first part's text, possibly undefined |
| Chatbot.ChatReplyShowsModelText | src/pages/Chatbot.jsx:156-157 | an answer whose first part carries text shows exactly that text, whatever the status |
| Chatbot.ChatPrompt | src/pages/Chatbot.jsx:136-140 | the chat prompt names the target language and ends with the question as typed |
| Chatbot.ChatReplyIgnoresStatus | src/pages/Chatbot.jsx:153-160 | the reply depends on the body only, not on the HTTP status |
| Chatbot.ChatReplyShapes | src/pages/Chatbot.jsx:153-163 | every reply is one of the two fixed messages, an "Error: ….", or the first part's text |
| Chatbot.SpeechLang | src/pages/Chatbot.jsx:40-50 | a code of the speech map gives its voice, any other gives "en-IN"; every voice is "xx-IN" |
| Chatbot.SpeechFallsBackForPromptLanguages | src/pages/Chatbot.jsx:40-50 | Kannada, Malayalam, Punjabi, Urdu and Odia are named in the prompt but spoken with the "en-IN" voice |
| Chatbot.Reply | src/pages/Chatbot.jsx:177-182 | without an API key the local response, with one the online reply |
| Chatbot.ChatSession.constructor | src/pages/Chatbot.jsx:9-18 | the log starts with the bot's greeting, empty input, not thinking and no key |
| Chatbot.ChatSession.LoadEnvironmentKey | src/pages/Chatbot.jsx:20-25 | a non-empty environment key becomes the API key; an empty one changes nothing |
| Chatbot.ChatSession.SetInput | src/pages/Chatbot.jsx:12 | typing changes only the input |
| Chatbot.ChatSession.StartSend | src/pages/Chatbot.jsx:166-173 | sending starts exactly when the input is not blank and no reply is pending; it appends the input as a user message, clears the input and sets thinking |
| Chatbot.ChatSession.CompleteSend | src/pages/Chatbot.jsx:184-189 | the reply is appended as one bot message and thinking ends |
| Chatbot.ChatSession.Send | src/pages/Chatbot.jsx:166-190 | blank input or a pending reply does nothing; otherwise exactly the user message and the reply are appended, the input is cleared and thinking ends |
| DiseaseDetection.Appended | src/pages/DiseaseDetection.jsx:42 | the new list is the old images followed by the new ones, cut to at most five |
| DiseaseDetection.AppendKeepsExisting | src/pages/DiseaseDetection.jsx:42 | at most five images; the existing images are a kept prefix; the new ones follow in order; a full list drops the upload |
| DiseaseDetection.Removed | src/pages/DiseaseDetection.jsx:46-48 | removing index i drops exactly that image and keeps the order of the rest; an index out of range changes nothing |
| DiseaseDetection.RemovedIsSplice | src/pages/DiseaseDetection.jsx:47 | removing an index in range is the splice around it |
| DiseaseDetection.ErrorRecord | src/pages/DiseaseDetection.jsx:62-68 | the error card has one symptom (the message, or "something went wrong" when it is empty), one treatment and no preventive measures |
| DiseaseDetection.Shown | src/pages/DiseaseDetection.jsx:58-68 | a success shows the analysis; a failure shows the error card for its message |
| DiseaseDetection.MalformedImageShowsError | src/pages/DiseaseDetection.jsx:58-68 | an image that is not a data URL leads to the error card for the "reading 'split'" type error |
| DiseaseDetection.DiseasePage.constructor | src/pages/DiseaseDetection.jsx:5-15 | the page starts with no images, crop, symptoms or result and is not analysing |
| DiseaseDetection.DiseasePage.EffectiveOnline | src/pages/DiseaseDetection.jsx:27 | the page is online exactly when the prop and the browser both say so |
| DiseaseDetection.DiseasePage.SetBrowserOnline | src/pages/DiseaseDetection.jsx:16-25 | an online or offline event changes only the browser flag |
| DiseaseDetection.DiseasePage.Upload | src/pages/DiseaseDetection.jsx:29-44 | the images become the appended list and stay at most five |
| DiseaseDetection.DiseasePage.RemoveImage | src/pages/DiseaseDetection.jsx:46-48 | the images lose the one at the index and stay at most five |
| DiseaseDetection.DiseasePage.SelectCrop | src/pages/DiseaseDetection.jsx:100 | choosing a crop changes only the crop |
| DiseaseDetection.DiseasePage.SetSymptoms | src/pages/DiseaseDetection.jsx:159-160 | typing changes only the symptoms |
| DiseaseDetection.DiseasePage.CanAnalyze | src/pages/DiseaseDetection.jsx:176 | the button is enabled exactly with an image, a crop and no analysis running |
| DiseaseDetection.DiseasePage.BeginAnalyze | src/pages/DiseaseDetection.jsx:50-54 | analysis starts exactly with an image and a crop; starting sets analysing and clears the previous result |
| DiseaseDetection.DiseasePage.CompleteAnalyze | src/pages/DiseaseDetection.jsx:58-71 | the outcome or its error card is shown and analysing ends on every path |
| DiseaseDetection.DiseasePage.Analyze | src/pages/DiseaseDetection.jsx:50-72 | without an image or crop nothing changes; otherwise the result of the Gemini analysis, or its error card, is shown and analysing ends |
| DiseaseDetection.DiseasePage.Reset | src/pages/DiseaseDetection.jsx:74-79 | reset clears images, crop, symptoms and result and leaves the analysing flag alone |
| Gemini.LanguageName | src/services/gemini.js:1-19 | a known code gives its language name, any other gives "English"; the result is always a name of the map |
| Gemini.MimeType | src/services/gemini.js:32 | the MIME type contains no `,` `:` or `;`; extraction fails, with the "reading 'split'" type error, exactly when the part before the first comma has no colon |
| Gemini.Payload | src/services/gemini.js:31 | the payload has no comma, and is missing exactly when the URL has no comma |
| Gemini.DataUrlRoundTrip | src/services/gemini.js:30-39 | `data:<mime>;base64,<payload>`, as in section 3 of RFC 2397, splits back into that MIME type and payload |
| Gemini.ImageParts | src/services/gemini.js:30-39 | one part per image, in order, with that image's payload and MIME type; any malformed image fails the whole request with the type error |
| Gemini.SymptomsOrNone | src/services/gemini.js:23 | empty symptoms read "None"; others are kept |
| Gemini.RequestParts | src/services/gemini.js:47-50 | the prompt text comes first, then one part per image in order |
| Gemini.Request | src/services/gemini.js:21-50 | the request can be built exactly when every image splits, and then is the prompt followed by each image's payload and MIME type, in order; otherwise it fails with the "reading 'split'" type error |
| Gemini.DiseasePrompt | src/services/gemini.js:21-27 | the prompt names the crop, the symptoms (or "None") and the target language |
| Gemini.FirstContent | src/services/gemini.js:83 | the first candidate's content, present exactly when there is a first candidate and it has content |
| Gemini.FirstPartText | src/services/gemini.js:87 | reading the first part's text fails exactly when the content has no parts, with the "reading '0'" type error for missing parts and "reading 'text'" for empty parts; otherwise it is that part's text, possibly undefined |
| Gemini.JsonSpanBounds | src/services/gemini.js:88 | the span runs from the first `{` to the last `}`, and there is one exactly when some `{` precedes some `}` |
| Gemini.JsonSpan | src/services/gemini.js:88-89 | with a span, the text parsed is that span, braces included; otherwise the whole text |
| Gemini.JsonSpanCoversEveryPair | src/services/gemini.js:88 | the span encloses every `{` … `}` pair of the text |
| Gemini.JsonSpanStripsProse | src/services/gemini.js:88-89 | prose around a JSON object, without braces of its own, is removed |
| Gemini.Effective | src/services/gemini.js:42-70 | the second request is used exactly when the first got a non-OK response |
| Gemini.NotOkMessage | src/services/gemini.js:72-75 | the error for a non-OK response is the API's message when it is present and not empty, otherwise "API request failed with status N"; it is never empty |
| Gemini.ReadBody | src/services/gemini.js:77-89 | an unparsable body fails with the parse error; an error body with its message; a body without content with "No analysis result…"; with content, missing parts fail with "reading '0'", empty parts with "reading 'text'", a part without text with "reading 'match'", and otherwise the result is the parse of the text's JSON span |
| Gemini.AnalyzeDiseaseImages | src/services/gemini.js:16-96 | a malformed image fails before any request; once the request is built, a rejected fetch rethrows its error, a non-OK final response fails with its message, and an OK one is read as `ReadBody` reads it |
| Gemini.NoRetryAfterSuccess | src/services/gemini.js:56 | after a first request that did not get a non-OK response, the second request does not matter |
| Gemini.TwoFailuresReportStatus | src/services/gemini.js:56-75 | two non-OK responses fail with the second's API message or "API request failed with status N" |
| Gemini.SuccessParsesSpan | src/services/gemini.js:87-91 | a clean OK answer yields the parse of the JSON span of the first part's text |
| Gemini.NoContentFails | src/services/gemini.js:83-85 | an OK answer without a first candidate's content fails with "No analysis result…" |
| LanguageContext.Storage.constructor | src/context/LanguageContext.jsx:8 | the store holds the given items |
| LanguageContext.Storage.GetItem | src/context/LanguageContext.jsx:8 | a stored key gives its value and a missing key gives null |
| LanguageContext.Storage.SetItem | src/context/LanguageContext.jsx:12 | writing a key sets that key and keeps the others |
| LanguageContext.InitialLanguage | src/context/LanguageContext.jsx:8 | a stored non-empty language is used, otherwise "en"; the result is never empty |
| LanguageContext.LanguageProvider.constructor | src/context/LanguageContext.jsx:7-8 | the provider starts with the initial language read from the store |
| LanguageContext.LanguageProvider.ChangeLanguage | src/context/LanguageContext.jsx:10-13 | the language becomes the given code, unvalidated, and the store gets it under "app_language" and nothing else |
| LanguageContext.StoredLanguageRoundTrip | src/context/LanguageContext.jsx:8-12 | after a change to a non-empty code, a fresh start reads that code back, and no other key changes |
| LanguageContext.EmptyLanguageRemountsAsEnglish | src/context/LanguageContext.jsx:8-12 | after a change to the empty code, a fresh start reads "en" |
| LanguageContext.ChangeThenRemount | src/context/LanguageContext.jsx:7-13 | changing the language and mounting a new provider on the same store restores the chosen code |
| JsMath.Round | src/pages/PriceForecasting.jsx:119 | `Math.round` lands within one half of its argument, ties rounding up |
| JsMath.RoundMonotone | src/pages/PriceForecasting.jsx:133 | `Math.round` never decreases |
| Text.StripWhitespace | src/pages/CropRecommendation.jsx:61 | removing `\s` leaves no whitespace, leaves text without any unchanged, and empties blank text |
| Text.BlankIffStripsToEmpty | src/pages/Chatbot.jsx:168 | `!s.trim()` holds exactly when removing every whitespace character leaves nothing |
| Text.StripSpaced | src/pages/CropRecommendation.jsx:61 | two words joined by a space lose only that space |
| Text.Lower | src/pages/Chatbot.jsx:119 | lower-casing keeps the length, maps each character, and leaves no capital letter |
| Text.LowerIdempotent | src/pages/Chatbot.jsx:119-121 | lower-casing twice is lower-casing once |
| Text.IndexOf | src/pages/CropRecommendation.jsx:193 | the first position where the pattern occurs, or none when it occurs nowhere |
| Text.ReplaceFirst | src/pages/CropRecommendation.jsx:193 | only the first occurrence is replaced; text without one is unchanged |
| Text.Split | src/services/gemini.js:31-32 | `split` on a character gives at least one piece, pieces without the separator, made of the text's characters |
| Text.JoinSplit | src/services/gemini.js:31-32 | joining the pieces with the separator gives back the text |
| Text.SplitJoin | src/services/gemini.js:31-32 | splitting pieces joined by a separator they lack gives back the pieces |
| Text.SplitSingleIff | src/services/gemini.js:31 | `split` gives one piece exactly when the separator is absent |
| Text.NatToStringRoundTrip | src/pages/CropPlanner.jsx:118 | a printed day number reads back as that number |

## Left out

- Rendering: markup, styles, the recharts charts, icons, routing, the map picker and the `alert` dialogs. An alert path is modelled as "nothing changes", or as a `Failure` value where the handler returns after it.
- Networking: the Gemini and Nominatim requests are not made. Their outcomes are inputs of the handlers (`Gemini.Exchange`, `SearchOutcome`, `ReverseOutcome`). The body of an HTTP error response is an input too. `LocationContext.jsx`, which only wraps the same reverse lookup, is not part of this model.
- `JSON.parse`: it is a parameter of `Gemini.AnalyzeDiseaseImages`. A body that parses to something other than an object (e.g. `null`) is not modelled. A body is either unparsable or an object with optional `error` and `candidates` fields.
- Floating point: numbers are exact reals, so 0.85, 1.05, 1.15, 2.47 and the breakdown fractions carry no binary rounding.
- Locale formatting:
  - `toLocaleString` and `toLocaleDateString` are not modelled; plan dates are day numbers.
  - `toFixed` is not modelled on the map path, where the coordinates are printed by a parameter `fixed`.
- Clock and time zone: `new Date()`, `Date.now()` and the parse of `YYYY-MM-DD`. The day difference and the sowing day are inputs, and message ids are left out.
- Timers: the 800 ms and 1200 ms delays are left out; their effects happen where the timer fires.
- Browser APIs:
  - `FileReader`: uploads arrive as data-URL strings.
  - Speech synthesis and recognition: only the language map is modelled, and voice input appending its transcript to the input is not.
  - `scrollIntoView`.
  - The online/offline listeners: modelled as a setter.
- `process.env`: the chatbot's key is an argument of `LoadEnvironmentKey`. The key in the Gemini request URL is not modelled.
- Translation and bootstrap:
  - `t` is an opaque `string -> string` function, and `t('days')` is assumed to be applied by a replace without `$` patterns.
  - The translation tables and `index.js` are not part of this model.
- Unicode: lower-casing and `\b` word boundaries are ASCII-only, and whitespace is the `\s` set without case folding. The state names, keywords and questions involved are ASCII.
- Engine-specific texts: the message for a missing `split` target follows V8's wording ("Cannot read properties of undefined (reading 'split')"). Other engines word it differently.
- NaN latitudes: a coordinate that `parseFloat` cannot read would be NaN and fall through every band to Tamil Nadu. Latitudes here are exact reals.
- The dynamic `import()` of the Gemini module on the disease page is assumed to succeed.
- `CropRecommendation.RecommendationPage.SelectOnMap`: the optimistic "lat, lng..." text written before the lookup is overwritten before the handler ends. Only the final state is stated.
- Race conditions: overlapping searches, sends or analyses are not modelled. Each handler runs to completion, or in the two halves named above.
- `DiseaseDetection.DiseasePage.RemoveImage`: it requires the page invariant (at most five images) that every other method keeps, so that the invariant holds afterwards.
