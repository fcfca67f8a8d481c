/**
  The calculator's guard as JavaScript evaluates it. `!locations[x]` and
  `!accountTypes[x]` test the truthiness of a property read, and a property
  read on a plain object also finds the members every object inherits from
  `Object.prototype` (`toString`, `constructor`, ...). Such a name passes
  the guard; its `.zone` or `.multiplier` is then undefined, and the
  arithmetic that follows yields NaN instead of the "error" sentinel.

  `Pricing.Quote` is the calculator with own-key lookups, the behaviour the
  guard evidently means; this module keeps the behaviour as written and
  shows where the two part.
 */
module AsWritten {
  import opened Pricing

  /** The names every plain object inherits from `Object.prototype`
      (ECMAScript, section 20.1.3 "Properties of the Object Prototype
      Object", with the legacy accessors of its Annex B). */
  const InheritedNames: set<string> := {
    "constructor", "hasOwnProperty", "isPrototypeOf", "propertyIsEnumerable",
    "toLocaleString", "toString", "valueOf", "__proto__",
    "__defineGetter__", "__defineSetter__", "__lookupGetter__", "__lookupSetter__"
  }

  /** The outcome of reading property `key` of an object literal. */
  datatype Lookup<T> = Own(value: T) | Inherited | Undefined

  function Get<T>(m: map<string, T>, key: string): Lookup<T>
  {
    if key in m then Own(m[key])
    else if key in InheritedNames then Inherited
    else Undefined
  }

  /** The calculator as written over tariff `t`: the guard rejects empty
      inputs and undefined reads only, so an inherited name reaches the
      arithmetic and turns it into NaN. */
  function QuoteAsWritten(t: Tariff, loc1: string, loc2: string, account: string): (r: Fare)
    ensures r.Error? <==>
      loc1 == "" || loc2 == "" || account == ""
      || loc1 !in t.zones.Keys + InheritedNames
      || loc2 !in t.zones.Keys + InheritedNames
      || account !in t.multipliers.Keys + InheritedNames
    ensures r.Price? ==> Quote(t, loc1, loc2, account) == r
  {
    var z1, z2, m := Get(t.zones, loc1), Get(t.zones, loc2), Get(t.multipliers, account);
    if loc1 == "" || loc2 == "" || account == "" || z1.Undefined? || z2.Undefined? || m.Undefined? then
      Error
    else if z1.Inherited? || z2.Inherited? || m.Inherited? then
      // Math.max(undefined, z) is NaN, priceTable[NaN] is undefined, and a
      // product with undefined is NaN.
      NotANumber
    else
      var zone := Max(z1.value, z2.value);
      if zone in t.prices then Price(t.prices[zone] as real * m.value) else NotANumber
  }

  /** When no input names an inherited member that the tables do not list
      themselves, the guard as written and the own-key guard agree. */
  lemma AsWrittenAgreesOffPrototype(t: Tariff, loc1: string, loc2: string, account: string)
    requires loc1 !in InheritedNames && loc2 !in InheritedNames && account !in InheritedNames
    ensures QuoteAsWritten(t, loc1, loc2, account) == Quote(t, loc1, loc2, account)
  {
  }

  /** On the page's tables the two differ exactly when every input is a
      listed or an inherited name and at least one is inherited; the guard
      as written then gives NaN where the own-key guard gives "error". */
  lemma AsWrittenDiffersOnPrototype(loc1: string, loc2: string, account: string)
    ensures QuoteAsWritten(Site, loc1, loc2, account) != CalculatePrice(loc1, loc2, account)
      <==>
        && loc1 in Locations.Keys + InheritedNames
        && loc2 in Locations.Keys + InheritedNames
        && account in AccountTypes.Keys + InheritedNames
        && (loc1 in InheritedNames || loc2 in InheritedNames || account in InheritedNames)
    ensures QuoteAsWritten(Site, loc1, loc2, account) != CalculatePrice(loc1, loc2, account)
      ==> QuoteAsWritten(Site, loc1, loc2, account) == NotANumber
          && CalculatePrice(loc1, loc2, account) == Error
  {
    SiteListsNoInheritedName();
    if loc1 in InheritedNames || loc2 in InheritedNames || account in InheritedNames {
      assert CalculatePrice(loc1, loc2, account) == Error;
    } else {
      AsWrittenAgreesOffPrototype(Site, loc1, loc2, account);
    }
  }

  /** None of the page's own keys is an inherited name. */
  lemma SiteListsNoInheritedName()
    ensures Locations.Keys !! InheritedNames
    ensures AccountTypes.Keys !! InheritedNames
  {
  }

  /** The input that shows the discrepancy: a pickup of "toString". */
  lemma ToStringPickupGivesNaN()
    ensures QuoteAsWritten(Site, "toString", "home", "500") == NotANumber
    ensures CalculatePrice("toString", "home", "500") == Error
  {
  }
}
