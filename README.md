# Fare calculator of the cost-calculator page

This project models the pricing logic of the example cost-calculator page in Dafny. You enter a pickup location, a dropoff location and an account type, and the page shows the fare. The three lookup tables are constants:

- `locations`: location name to zone. home and work are zone 1, train is zone 2, airport is zone 3.
- `priceTable`: zone to flat fare. The fares are 5, 12 and 17.
- `accountTypes`: account key to multiplier. "500" is ×1.25, "1000" is ×1.1, "infinity" is ×1.

`calculatePrice(loc1, loc2, account)` returns the literal `"error"` in three cases: an input is empty, a location is not a key of its table, or the account is not a key of its table. Otherwise it returns the fare of the higher of the two zones times the account's multiplier. One exception: a name every object inherits from `Object.prototype`, such as `"toString"`, passes the key check and gives NaN instead (see Findings).

The files:

- `pricing.dfy` (module `Pricing`) holds the tables, the calculator and its properties. The calculator is written once over any set of tables as `Quote`. That way "an empty input is rejected before any table is read" can be stated for every table. `CalculatePrice` is `Quote` over the page's own tables `Site`. The result is the datatype `Fare = Error | Price(amount) | NotANumber`:
  - `Error` is the `"error"` sentinel.
  - `NotANumber` is JavaScript's NaN. With the own-key guard it happens only when the tables give a zone no fare, and never with the page's tables.
- `as_written.dfy` (module `AsWritten`) models the guard exactly as JavaScript evaluates it, including inherited object members (see Findings).

## Model

| member | source | states |
|---|---|---|
| `Pricing.Max` | src/pages/index.js:52 | `Math.max`: the result is one of the two zones and at least as large as both |
| `Pricing.Quote` | src/pages/index.js:41-55 | The result is the error sentinel exactly when an input is empty, a location is not in the location table or the account is not in the account table. It is NaN exactly when the inputs pass and the higher zone has no fare. Otherwise it is the fare of a zone that belongs to one endpoint and is at least as high as both, times the account's multiplier |
| `Pricing.CalculatePrice` | src/pages/index.js:8-55 | With the page's tables, the result is an error exactly when a location or the account is not listed (the empty string is never a key), and it is never NaN |
| `Pricing.EmptyInputIsError` | src/pages/index.js:42-45 | An empty pickup, dropoff or account gives the error sentinel for every possible table contents, so no table value decides the outcome |
| `Pricing.QuoteSymmetric` | src/pages/index.js:42-54 | Swapping pickup and dropoff gives the same outcome, including the error case |
| `Pricing.PricedTariffNeverNaN` | src/pages/index.js:23-27 | When every zone a location can have is priced, a trip gets a price exactly when the guard passes it |
| `Pricing.QuoteMonotone` | src/pages/index.js:23-27 | With fares that never decrease with the zone and non-negative multipliers, raising the pickup's zone never lowers the fare |
| `Pricing.QuoteIsFartherEndpointFare` | src/pages/index.js:52-53 | With fares that never decrease with the zone, a trip costs the larger of the fares its two endpoints would cost on their own |
| `Pricing.SiteWellFormed` | src/pages/index.js:8-39 | The page's tables price every listed zone, their fares strictly increase with the zone, and their multipliers are positive |
| `Pricing.CalculatePriceBounds` | src/pages/index.js:23-39 | Every fare the page shows lies between 5 and 21.25 |
| `Pricing.InfinityPaysZoneFare` | src/pages/index.js:36-38 | On the "infinity" account the fare is exactly the flat fare of the higher zone |
| `Pricing.ShownFares` | src/pages/index.js:8-55 | The page can show exactly nine fares (5, 5.5, 6.25, 12, 13.2, 15, 17, 18.7, 21.25). Each is reached by some trip, so the bounds 5 and 21.25 are tight |
| `Pricing.CalculatePriceMonotone` | src/pages/index.js:52 | Moving either endpoint to a location of an equal or higher zone never lowers the fare |
| `Pricing.WorkedExamples` | src/pages/index.js:41-55 | home→train on "500" costs 15. home→airport on "infinity" costs 17. "Home" is not a location, because lookup is case-sensitive |
| `AsWritten.QuoteAsWritten` | src/pages/index.js:41-55 | A property read finds an own key first, then an inherited `Object.prototype` member, else undefined. The guard as written gives the error sentinel exactly when an input is empty or is neither a key of its table nor an inherited name. Any price it returns is the own-key calculator's price |
| `AsWritten.AsWrittenAgreesOffPrototype` | src/pages/index.js:46-48 | If no input is an inherited member name, the guard as written and the own-key guard give the same outcome |
| `AsWritten.AsWrittenDiffersOnPrototype` | src/pages/index.js:46-53 | On the page's tables, the two disagree exactly when every input is listed or inherited and at least one is inherited. Then the page gives NaN where "error" is meant |
| `AsWritten.SiteListsNoInheritedName` | src/pages/index.js:8-39 | No key of the page's tables is an inherited member name |
| `AsWritten.ToStringPickupGivesNaN` | src/pages/index.js:46-53 | A pickup of "toString" gives NaN as written, and the own-key calculator gives "error" |

## Left out

- Floating point: the multipliers are exact reals (`1.1` is exactly eleven tenths). In JavaScript `12 * 1.1` is `13.200000000000001` and `17 * 1.1` is `18.700000000000003`, and the page shows those digits. The model's 13.2 and 18.7 stand for those doubles.
- Non-string inputs: the calculator is only called with the text of the three input fields. So truthiness is modelled as "not the empty string", and `undefined`, `null` and numbers are not modelled.
- The `IndexPage` component: its `useState` and `useMemo` wiring, the input fields (`Display`) and the rendering of the tables and the result. These are UI and have no pricing logic.
- The `moment-timezone` and `prop-types` imports: they are unused.
- The passenger-count and per-passenger pricing of other revisions of the page: that code is not part of this model.
- Pricing.CalculatePrice: models table lookup by own keys only. The JavaScript guard also accepts names inherited from `Object.prototype`. That behaviour is modelled separately in `AsWritten.QuoteAsWritten` and reported under Findings.

## Findings

| source | as written | input that shows it | evidently intended | confidence | as-written member | corrected member |
|---|---|---|---|---|---|---|
| src/pages/index.js:46-53 | `!locations[loc]` and `!accountTypes[account]` test the truthiness of a property read. Inherited `Object.prototype` members such as `toString` are truthy, so they pass the guard. Their `.zone` or `.multiplier` is then undefined, and the fare becomes NaN | `calculatePrice("toString", "home", "500")` gives NaN | `"error"`, as for any other name that is not a location | high; not executed | `AsWritten.QuoteAsWritten`, `AsWritten.ToStringPickupGivesNaN` | `Pricing.Quote` (own-key lookup), with `AsWritten.AsWrittenDiffersOnPrototype` |
