# Mobile plan pricing scraper — a verified model

`scrape_mobile.py` collects the advertised prices of unlimited mobile plans
from two carriers' web pages and writes them as a long-format table, with one
row per plan and line count. This project models the logic of that scraper in
Dafny:

- **Price parsing** (`PriceParser`). `extract_price` finds the first
  `$<digits>[.<two digits>]` in a piece of text. The model is a one-pass
  scanner that gives the amount in integer cents. With `\d` read as the ASCII
  digits `0-9`, it is proved equal to the value of the leftmost match of the
  pattern `\$(\d+(?:\.\d{2})?)`.
- **Selector fallback** (`Selectors`). The first CSS selector of a list that
  matches anything wins; later selectors are never consulted.
- **Per-provider extraction** (`Plans`). `scrape_verizon` (lines 36-116) and
  `scrape_tmobile` (lines 118-196) differ only in their constants. Both are
  modelled once, as `ScrapeProvider` over a `ProviderSpec`, with the
  constants `Verizon` and `TMobile`. The scrape navigates to the provider's
  URL, then resolves the plan containers by selector fallback. For each of
  the first five containers it reads a plan name and every price under the
  price selectors, and fills five positional price slots. A container whose
  text cannot be read is skipped.
- **Normalisation** (`Normalizer`). `convert_to_tableau_format` turns each wide
  record into one row per truthy price slot.
- **The run** (`Orchestrator`). `main` scrapes Verizon, then T-Mobile,
  concatenates their records, and normalises them when there are any.

The web page is an oracle. An `Element` has a text, which may be unreadable
(`None`, standing for `inner_text()` raising), and a function from a CSS
selector to the matching descendants in document order. The browser is a
function from a URL to an optional page (`None` when navigation raises).
`query_selector(sel)` is the first element of `query_selector_all(sel)`.

Every loop of the source is a method, and each is proved to compute a
specification function:

- `ResolveFirst` computes `FirstMatch`.
- `CollectPrices` computes `PricesOf`.
- `ExtractPlan` computes `PlanFrom`.
- `ScrapeProvider` computes `ProviderPlans`.
- `Normalize` computes `NormalizedRows`.
- `ScrapeAll` computes `AllPlans`.

The lemmas state the properties of those functions.

The extraction date and timestamp are read from the clock for every row
(lines 209-210), not once per run. Neither value is modelled; see below.

## Model

| member | source | states |
|---|---|---|
| `PriceParser.ExtractPrice` | scrape_mobile.py:26-34 | No price for a missing or empty text; a price only when some `$` is directly followed by a digit |
| `PriceParser.NoMatchNoPrice` | scrape_mobile.py:31-34 | No price exactly when no `$` in the text is immediately followed by a digit (both directions) |
| `PriceParser.LeftmostMatchPrice` | scrape_mobile.py:31-33 | With a leftmost match at `i` whose digit run ends at `e`, the price is that match's value: the whole digits times 100, plus the two cents digits when `.dd` follows |
| `PriceParser.MatchYieldsLeftmostPrice` | scrape_mobile.py:31-33 | Any text containing a match yields the value of the leftmost match; later amounts are ignored |
| `PriceParser.ScanFromNone` | scrape_mobile.py:31 | The scan from position `k` finds nothing exactly when no match starts at or after `k` |
| `PriceParser.ScanFromFinds` | scrape_mobile.py:31-33 | The scan from `k` returns the value of the first match at or after `k` |
| `PriceParser.ReadWholeReadsRun` | scrape_mobile.py:31 | Reading digits consumes exactly the greedy digit run and accumulates its decimal value |
| `PriceParser.ReadAmountIsMatchValue` | scrape_mobile.py:31-33 | The amount read after a `$` is the match's value, with cents only when a dot and two digits follow |
| `PriceParser.RunEndExists` | scrape_mobile.py:31 | Every digit run has an end, so `\d+` always completes |
| `PriceParser.TwoDigitValue` | scrape_mobile.py:31 | The value of a two-digit fraction is ten times its first digit plus its second |
| `PriceParser.PriceWithCentsExample` | scrape_mobile.py:30-33 | `"$49.99/mo"` gives 4999 cents |
| `PriceParser.FractionExamples` | scrape_mobile.py:31-33 | `"$49.9"` gives 4900 (a one-digit fraction is not taken); `"$49.999"` gives 4999 |
| `PriceParser.ThousandsSeparatorExample` | scrape_mobile.py:31-33 | `"$1,299"` gives 100: the digit run stops at the comma |
| `PriceParser.NoPriceAndFirstWinsExamples` | scrape_mobile.py:31-34 | `"Contact us"` has no price; `"$30 now, $45 later"` gives 3000 |
| `Text.Trim` | scrape_mobile.py:75 | `strip()`: the text less a prefix and a suffix of the characters Python counts as whitespace, neither starting nor ending with one |
| `Text.TrimSplit` | scrape_mobile.py:75 | The stripped text sits between an all-whitespace prefix and an all-whitespace suffix, and has no whitespace at either end |
| `Text.TrimEnds` | scrape_mobile.py:75 | The first and last characters kept by `strip()` are not whitespace, and what it cuts at the back is all whitespace |
| `Text.LeadingSpaces` | scrape_mobile.py:75 | The whitespace run at the front is all whitespace and maximal |
| `Text.TrailingSpaces` | scrape_mobile.py:75 | The whitespace run at the back is all whitespace and maximal |
| `Selectors.FirstMatch` | scrape_mobile.py:54-60 | Empty exactly when no selector matches; otherwise the matches of the first selector that matches anything |
| `Selectors.FirstMatchAtHit` | scrape_mobile.py:55-60 | When selector `k` is the first that matches, the result is its matches |
| `Selectors.HitsShift` | scrape_mobile.py:55-57 | Skipping a selector that matches nothing moves the first hit one place on |
| `Selectors.LaterSelectorsIgnored` | scrape_mobile.py:57-60 | Selectors after the first hit are never consulted: replacing them changes nothing |
| `Selectors.ResolveFirst` | scrape_mobile.py:54-60 | The selector loop with `break` computes `FirstMatch` |
| `Plans.VerizonConfiguration` | scrape_mobile.py:36-103 | Verizon's URL (:40), container selectors in order (:46-52), name selectors (:69), price selectors (:79), name and type (:92-93), autopay discount 1000 cents and taxes/fees "No" (:100-101) |
| `Plans.TMobileConfiguration` | scrape_mobile.py:118-183 | T-Mobile's URL (:122), container selectors in order (:128-133), name selectors (:150), price selectors (:160), name and type (:172-173), autopay discount 500 cents and taxes/fees "Yes" (:180-181) |
| `Plans.PlanName` | scrape_mobile.py:69-76 | A non-empty plan name has no whitespace at either end |
| `Plans.PlanNameFromFirstHit` | scrape_mobile.py:72-76 | The name is the stripped text of the first element of the first name selector that matches, or nothing when that text cannot be read |
| `Plans.PlanNameDefault` | scrape_mobile.py:70-76 | The name is "Unknown Plan" exactly when no name selector matches, or the matched text strips to "Unknown Plan" |
| `Plans.PricesIn` | scrape_mobile.py:84-88 | Fails exactly when some element's text cannot be read; otherwise at most one price per element, none of them zero |
| `Plans.PricesOf` | scrape_mobile.py:82-88 | Fails exactly when some price selector's elements fail; otherwise every price is positive |
| `Plans.PricesOfOneElement` | scrape_mobile.py:85-88 | A readable element contributes its parsed price when present and non-zero and nothing otherwise; an unreadable one fails |
| `Plans.PricesOfOneSelector` | scrape_mobile.py:82-84 | One selector contributes the prices of the elements it matches |
| `Plans.PricesInAppend` | scrape_mobile.py:84-88 | Document order is kept: the prices of two element lists are the first's followed by the second's |
| `Plans.PricesOfAppend` | scrape_mobile.py:82-88 | Selector order is kept: the prices of two selector lists are the first's followed by the second's |
| `Plans.PricesInSnoc` | scrape_mobile.py:84-88 | One more element appends its truthy price, or fails the list when unreadable |
| `Plans.PricesOfSnoc` | scrape_mobile.py:82-83 | One more selector appends its elements' prices |
| `Plans.CollectElementPrices` | scrape_mobile.py:84-88 | The inner price loop over one selector's elements computes `PricesIn` |
| `Plans.CollectPrices` | scrape_mobile.py:79-88 | The price loops over all price selectors compute `PricesOf` |
| `Plans.SlotsHoldFirstFivePrices` | scrape_mobile.py:95-99 | Slot `n` holds the `n`-th price, and is empty when there are fewer than `n` prices; read in order, the slots are the first five prices and the rest are discarded |
| `Plans.FilledSlotsPrefix` | scrape_mobile.py:95-99 | The first `n` slots hold the first `min(n, count)` prices |
| `Plans.PlanFrom` | scrape_mobile.py:91-103 | A record carries the provider's name, type, autopay discount and tax flag, the page URL, and the container's plan name |
| `Plans.PlanSlots` | scrape_mobile.py:82-99 | Slot `n` of an extracted record holds its container's `n`-th price, and is empty when there are fewer than `n`; read in order, the slots are the first five prices; none is zero |
| `Plans.ExtractPlan` | scrape_mobile.py:67-110 | The per-container body computes `PlanFrom`, giving nothing when a text cannot be read |
| `Plans.FirstPlans` | scrape_mobile.py:66 | `containers[:5]`: `min(count, 5)` containers, the first ones, in order |
| `Plans.Collected` | scrape_mobile.py:66-110 | No more records than containers |
| `Plans.OriginsLocate` | scrape_mobile.py:66-110 | Each collected record is the record of the container it came from |
| `Plans.OriginsIncreasing` | scrape_mobile.py:66-110 | The containers the records come from are in strictly increasing document order |
| `Plans.CollectedComplete` | scrape_mobile.py:66-110 | A container whose extraction succeeds has its record collected, whichever other containers fail |
| `Plans.CollectedAll` | scrape_mobile.py:66-110 | When no container fails, there is one record per container, in order |
| `Plans.ProviderPlans` | scrape_mobile.py:36-116 | A provider yields at most five records |
| `Plans.NoPageOrNoContainersNoPlans` | scrape_mobile.py:62-64 | A page that fails to load, or one where no container selector matches, yields no records |
| `Plans.PlansComeFromFirstFiveContainers` | scrape_mobile.py:54-110 | The records are, in document order and without repeats, those of the first five containers of the first container selector that matches whose extraction succeeds: each record comes from one of them, and each of them yields a record even when another container fails |
| `Plans.OnePlanPerContainer` | scrape_mobile.py:54-105 | When no container fails, a provider yields `min(5, containers)` records, record `n` from container `n` |
| `Plans.ScrapeProvider` | scrape_mobile.py:36-116 | The scrape function computes `ProviderPlans` |
| `Normalizer.MakeRow` | scrape_mobile.py:208-221 | A row carries its line count and that slot's price; price per line times line count is the monthly price; the discount amount is the record's, or 0; the discount flag holds exactly when the amount is non-zero; the other fields come from the record |
| `Normalizer.RowsUpToShape` | scrape_mobile.py:204-222 | The rows for line counts up to `n` are each for a truthy slot, in ascending line count, with one for every truthy slot |
| `Normalizer.RowsOfRecord` | scrape_mobile.py:204-222 | A record yields one row per truthy slot: a row for line count `n` exactly when slot `n` is truthy, in ascending order, each with that slot's price and the record's fields |
| `Normalizer.RowCount` | scrape_mobile.py:204-207 | A record yields as many rows as it has truthy slots |
| `Normalizer.TwoSlotExample` | scrape_mobile.py:204-219 | A record priced 50 for one line and 70 for two yields two rows, at 50 and 35 per line |
| `Normalizer.NormalizedAppend` | scrape_mobile.py:202-222 | Record order is kept: the rows of two batches are the first's followed by the second's |
| `Normalizer.NormalizedCount` | scrape_mobile.py:200-222 | The row count is the number of truthy slots over all records |
| `Normalizer.ExtractedPlanRows` | scrape_mobile.py:82-99 | A freshly extracted plan yields `min(5, prices found)` rows |
| `Normalizer.PopulatedIsFilled` | scrape_mobile.py:95-99 | When no present slot is zero, the truthy slots are the filled ones |
| `Normalizer.Normalize` | scrape_mobile.py:198-224 | The nested normalisation loops compute `NormalizedRows` |
| `Orchestrator.ProvidersInOrder` | scrape_mobile.py:238-241 | The provider list is Verizon then T-Mobile, each scraped at its own URL |
| `Orchestrator.AllPlans` | scrape_mobile.py:243-247 | A run over `n` providers yields at most `5 n` records |
| `Orchestrator.AllPlansAppend` | scrape_mobile.py:243-247 | Provider order is kept: the records of two provider lists are the first's followed by the second's |
| `Orchestrator.FailedProviderSkipped` | scrape_mobile.py:243-255 | A provider whose page fails to load contributes nothing, and the others still contribute, in order |
| `Orchestrator.RunOrder` | scrape_mobile.py:238-247 | The run's records are Verizon's followed by T-Mobile's, and T-Mobile's alone when Verizon's page fails |
| `Orchestrator.ScrapeAll` | scrape_mobile.py:243-247 | The provider loop computes `AllPlans` |
| `Orchestrator.Run` | scrape_mobile.py:226-274 | A table is produced exactly when some record was scraped; it is the normalised rows of all records, one per truthy slot |

## Left out

- Browser set-up, the user agent, `wait_until`/timeouts, and `browser.close()`
  (lines 15-24, 232-234, 276-277): these are I/O. The browser is the oracle
  `Browser`.
- `time.sleep(5)` after navigation and the random 3-7 s pause between
  providers (lines 41, 123, 251): timing and randomness do not affect the
  data.
- Logging (every `logger` call): output only.
- `extraction_date` and `extraction_timestamp` (lines 209-210): clock reads.
  The code reads the clock again for every row, so the rows of one run need
  not share a timestamp.
- The pandas DataFrame, and the two CSV files named after the date
  (lines 224, 259-271): I/O. `Run` returns the rows that would be written.
- Floating point: prices are integer cents, and the price per line is an
  exact `real`. Rounding of `float(...)` and of the division is not modelled.
- `PriceParser.ExtractPrice`: digits are the ASCII `0-9` only. Python's `\d`
  and `float()` also accept every other Unicode decimal digit (category Nd),
  so `"$\u0665"` gives 5.0 in the source and no price in the model. The
  table of those digits is not modelled.
- Exceptions other than an unreadable text and a failed navigation: a
  raising `query_selector_all` or `page.url` is not modelled. The model's
  `query` is total.
- `main`'s own `except` around each provider (lines 253-255) cannot trigger
  in the model, because each scrape function already catches everything.
  `FailedProviderSkipped` states what that handling amounts to.
- `Normalizer.Row` has no `extraction_date` or `extraction_timestamp` fields,
  for the reason above. The `.get(..., default)` fallbacks of lines 216-220
  are not modelled separately, because every record built by the scrape
  functions has all those keys.
