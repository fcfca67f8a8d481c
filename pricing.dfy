/**
  The fare calculator of the cost-calculator page: a trip from a pickup
  location to a dropoff location, booked on an account, costs the flat fare
  of the higher of the two zones times the account's multiplier. Any empty,
  unknown or unresolvable input gives the error sentinel instead of a price.

  The calculator is written once over an arbitrary `Tariff` (`Quote`) so that
  properties such as "an empty input is rejected before any table is read"
  can be stated for every possible set of tables; `CalculatePrice` is that
  calculator applied to the page's own constant tables (`Site`).
 */
module Pricing {

  /** What the calculator returns: the "error" sentinel, a price, or the
      JavaScript NaN that a lookup of a zone with no listed price produces. */
  datatype Fare = Error | Price(amount: real) | NotANumber

  /** The three lookup tables: location name to zone, zone to flat fare,
      account key to fare multiplier. */
  datatype Tariff = Tariff(
    zones: map<string, int>,
    prices: map<int, int>,
    multipliers: map<string, real>)

  /** The page's location table: name to zone number. */
  const Locations: map<string, int> :=
    map["home" := 1, "work" := 1, "train" := 2, "airport" := 3]

  /** The page's price table: zone number to flat fare in euros. */
  const PriceTable: map<int, int> :=
    map[1 := 5, 2 := 12, 3 := 17]

  /** The page's account table: account key to multiplier. */
  const AccountTypes: map<string, real> :=
    map["500" := 1.25, "1000" := 1.1, "infinity" := 1.0]

  const Site: Tariff := Tariff(Locations, PriceTable, AccountTypes)

  /** `Math.max` on two zone numbers. */
  function Max(a: int, b: int): (m: int)
    ensures a <= m && b <= m
    ensures m == a || m == b
  {
    if a < b then b else a
  }

  /** True when the calculator's guard lets the three inputs through: none
      is empty, both locations are listed and the account is listed. */
  predicate Resolves(t: Tariff, loc1: string, loc2: string, account: string)
  {
    && loc1 != "" && loc2 != "" && account != ""
    && loc1 in t.zones && loc2 in t.zones && account in t.multipliers
  }

  /** The calculator over tariff `t`. */
  function Quote(t: Tariff, loc1: string, loc2: string, account: string): (r: Fare)
    ensures r.Error? <==> !Resolves(t, loc1, loc2, account)
    ensures r.NotANumber? <==>
      Resolves(t, loc1, loc2, account) && Max(t.zones[loc1], t.zones[loc2]) !in t.prices
    ensures r.Price? ==>
      exists z :: z in t.prices && (z == t.zones[loc1] || z == t.zones[loc2])
        && t.zones[loc1] <= z && t.zones[loc2] <= z
        && r.amount == t.prices[z] as real * t.multipliers[account]
  {
    if !Resolves(t, loc1, loc2, account) then
      Error
    else
      var zone := Max(t.zones[loc1], t.zones[loc2]);
      if zone in t.prices then
        Price(t.prices[zone] as real * t.multipliers[account])
      else
        NotANumber
  }

  /** The page's calculator: `Quote` over the page's own tables. */
  function CalculatePrice(loc1: string, loc2: string, account: string): (r: Fare)
    ensures r.Error? <==>
      loc1 !in Locations || loc2 !in Locations || account !in AccountTypes
    ensures !r.NotANumber?
  {
    Quote(Site, loc1, loc2, account)
  }

  // ---------------------------------------------------------------------
  // Properties of the calculator over any tariff

  /** An empty pickup, dropoff or account is rejected whatever the tables
      hold, even a table that lists the empty name. */
  lemma EmptyInputIsError(t: Tariff, loc1: string, loc2: string, account: string)
    requires loc1 == "" || loc2 == "" || account == ""
    ensures Quote(t, loc1, loc2, account) == Error
  {
  }

  /** Swapping pickup and dropoff never changes the outcome, error or not. */
  lemma QuoteSymmetric(t: Tariff, loc1: string, loc2: string, account: string)
    ensures Quote(t, loc1, loc2, account) == Quote(t, loc2, loc1, account)
  {
  }

  /** Every listed location's zone has a listed fare. */
  ghost predicate ZonesPriced(t: Tariff)
  {
    forall loc :: loc in t.zones ==> t.zones[loc] in t.prices
  }

  /** Fares never decrease as the zone number grows. */
  ghost predicate PricesNonDecreasing(t: Tariff)
  {
    forall z1, z2 :: z1 in t.prices && z2 in t.prices && z1 < z2 ==> t.prices[z1] <= t.prices[z2]
  }

  /** Fares strictly increase with the zone number. */
  ghost predicate PricesIncreasing(t: Tariff)
  {
    forall z1, z2 :: z1 in t.prices && z2 in t.prices && z1 < z2 ==> t.prices[z1] < t.prices[z2]
  }

  /** No account multiplier is negative. */
  ghost predicate MultipliersNonNegative(t: Tariff)
  {
    forall account :: account in t.multipliers ==> t.multipliers[account] >= 0.0
  }

  /** On a tariff whose every zone is priced, a resolving trip always gets
      a price: the NaN outcome is out of reach. */
  lemma PricedTariffNeverNaN(t: Tariff, loc1: string, loc2: string, account: string)
    requires ZonesPriced(t)
    ensures Quote(t, loc1, loc2, account).Price? <==> Resolves(t, loc1, loc2, account)
  {
  }

  /** The fare of a trip that touches only one location's zone. */
  function EndpointFare(t: Tariff, loc: string, account: string): (r: real)
    requires ZonesPriced(t) && loc in t.zones && account in t.multipliers
  {
    t.prices[t.zones[loc]] as real * t.multipliers[account]
  }

  /** Raising the pickup's zone never lowers the fare. */
  lemma QuoteMonotone(t: Tariff, loc1: string, loc1': string, loc2: string, account: string)
    requires ZonesPriced(t) && PricesNonDecreasing(t) && MultipliersNonNegative(t)
    requires Resolves(t, loc1, loc2, account) && Resolves(t, loc1', loc2, account)
    requires t.zones[loc1] <= t.zones[loc1']
    ensures Quote(t, loc1, loc2, account).amount <= Quote(t, loc1', loc2, account).amount
  {
  }

  /** With fares that never decrease, a trip costs the larger of the two fares its
      endpoints would cost on their own. */
  lemma QuoteIsFartherEndpointFare(t: Tariff, loc1: string, loc2: string, account: string)
    requires ZonesPriced(t) && PricesNonDecreasing(t) && MultipliersNonNegative(t)
    requires Resolves(t, loc1, loc2, account)
    ensures var f1, f2 := EndpointFare(t, loc1, account), EndpointFare(t, loc2, account);
      Quote(t, loc1, loc2, account) == Price(if f1 < f2 then f2 else f1)
  {
  }

  // ---------------------------------------------------------------------
  // Properties of the page's own tables

  /** The page's tables price every zone, increase strictly with the zone
      and have positive multipliers. */
  lemma SiteWellFormed()
    ensures ZonesPriced(Site) && PricesIncreasing(Site) && PricesNonDecreasing(Site)
    ensures MultipliersNonNegative(Site)
    ensures forall account :: account in AccountTypes ==> AccountTypes[account] > 0.0
  {
  }

  /** Every fare the page can show lies between 5 (zone 1 on "infinity") and
      21.25 (zone 3 on "500"). */
  lemma CalculatePriceBounds(loc1: string, loc2: string, account: string)
    requires CalculatePrice(loc1, loc2, account).Price?
    ensures 5.0 <= CalculatePrice(loc1, loc2, account).amount <= 21.25
  {
  }

  /** On the "infinity" account the fare is exactly the zone's flat fare. */
  lemma InfinityPaysZoneFare(loc1: string, loc2: string)
    requires loc1 in Locations && loc2 in Locations
    ensures CalculatePrice(loc1, loc2, "infinity")
      == Price(PriceTable[Max(Locations[loc1], Locations[loc2])] as real)
  {
  }

  /** Moving either endpoint to a location of a zone at least as high never
      lowers the fare. */
  lemma CalculatePriceMonotone(loc1: string, loc1': string, loc2: string, loc2': string, account: string)
    requires CalculatePrice(loc1, loc2, account).Price?
    requires loc1' in Locations && loc2' in Locations
    requires Locations[loc1] <= Locations[loc1'] && Locations[loc2] <= Locations[loc2']
    ensures CalculatePrice(loc1', loc2', account).Price?
    ensures CalculatePrice(loc1, loc2, account).amount <= CalculatePrice(loc1', loc2', account).amount
  {
  }

  /** Two trips worked by hand: home to the train station on "500" costs
      12 * 1.25, home to the airport on "infinity" costs 17. */
  lemma WorkedExamples()
    ensures CalculatePrice("home", "train", "500") == Price(15.0)
    ensures CalculatePrice("home", "airport", "infinity") == Price(17.0)
    ensures CalculatePrice("Home", "train", "500") == Error
  {
  }

  /** A fare the page can show for some pickup, dropoff and account. */
  ghost predicate Shown(fare: real)
  {
    exists loc1, loc2, account :: CalculatePrice(loc1, loc2, account) == Price(fare)
  }

  /** The nine fares of the page: three zone fares times three multipliers. */
  const SiteFares: set<real> :=
    {5.0, 5.5, 6.25, 12.0, 13.2, 15.0, 17.0, 18.7, 21.25}

  /** The page shows exactly the nine fares of `SiteFares`: each is reached
      by some trip, and no trip costs anything else. */
  lemma ShownFares(fare: real)
    ensures Shown(fare) <==> fare in SiteFares
  {
    if Shown(fare) {
      var loc1, loc2, account :| CalculatePrice(loc1, loc2, account) == Price(fare);
    }
    if fare in SiteFares {
      // A round trip from a location of the fare's zone, on the account whose
      // multiplier gives the fare.
      var loc :=
        if fare in {5.0, 5.5, 6.25} then "home"
        else if fare in {12.0, 13.2, 15.0} then "train"
        else "airport";
      var account :=
        if fare in {5.0, 12.0, 17.0} then "infinity"
        else if fare in {5.5, 13.2, 18.7} then "1000"
        else "500";
      assert CalculatePrice(loc, loc, account) == Price(fare);
    }
  }
}
