/**
 * `calculateQuote`: the price table of the five services, the budget-tier
 * multiplier and the rounded, adjusted breakdown with its total.
 *
 * The multiplier is carried as a whole number of tenths (10, 11 or 13) so
 * that every price is computed exactly; `Math.round` becomes `RoundHalfUp`.
 */
module QuoteCalculator {
  import opened Wrappers

  /** One line of a quote: what is done and its price in euros. */
  datatype Item = Item(name: string, price: int)

  /** A table entry: the nominal base price and the breakdown. */
  datatype Tier = Tier(base: nat, items: seq<Item>)

  /** The computed quote; `multiplierTenths` is ten times the multiplier. */
  datatype Quote = Quote(
    service: string,
    items: seq<Item>,
    total: int,
    basePrice: nat,
    multiplierTenths: nat,
    validUntil: string)

  const DefaultService: string := "Desarrollo Web"

  /** The table's five entries. */
  const WebTier: Tier := Tier(800, [
    Item("Diseño y maquetación", 300),
    Item("Desarrollo frontend", 400),
    Item("Optimización SEO", 100)])
  const AITier: Tier := Tier(1200, [
    Item("Análisis de requerimientos", 200),
    Item("Integración de API IA", 600),
    Item("Entrenamiento y configuración", 400)])
  const PwaTier: Tier := Tier(1500, [
    Item("Desarrollo PWA", 800),
    Item("Service Worker", 300),
    Item("Configuración offline", 200),
    Item("Notificaciones push", 200)])
  const ShopTier: Tier := Tier(2000, [
    Item("Desarrollo tienda online", 1000),
    Item("Pasarela de pagos", 400),
    Item("Panel administrativo", 400),
    Item("Sistema de inventario", 200)])
  const ConsultingTier: Tier := Tier(400, [
    Item("Auditoría técnica", 200),
    Item("Informe detallado", 100),
    Item("Sesión de consultoría", 100)])

  /** The fixed price table. */
  const Table: map<string, Tier> := map[
    "Desarrollo Web" := WebTier,
    "Integración de IA" := AITier,
    "Apps Web Progresivas" := PwaTier,
    "E-commerce" := ShopTier,
    "Consultoría Digital" := ConsultingTier]

  /**
   * The property names every object literal inherits from `Object.prototype`.
   * Looking one of them up in the table finds a truthy value that is not a tier.
   */
  const InheritedNames: set<string> := {
    "constructor", "__proto__", "toString", "toLocaleString", "valueOf",
    "hasOwnProperty", "isPrototypeOf", "propertyIsEnumerable",
    "__defineGetter__", "__defineSetter__", "__lookupGetter__", "__lookupSetter__"}

  /**
   * `baseQuotes[servicio] || baseQuotes['Desarrollo Web']`. An inherited name
   * is found on the prototype, so the fallback is skipped and what is found
   * has no `items`: `None` stands for the `TypeError` that follows.
   */
  function Lookup(servicio: string): (t: Option<Tier>)
    ensures t.None? <==> servicio in InheritedNames
    ensures servicio in Table ==> t == Some(Table[servicio])
    ensures servicio !in Table && servicio !in InheritedNames ==> t == Some(Table[DefaultService])
  {
    if servicio in Table then Some(Table[servicio])
    else if servicio in InheritedNames then None
    else Some(Table[DefaultService])
  }

  /** The budget tier's multiplier in tenths: 1.3, 1.1, otherwise 1. */
  function MultiplierTenths(presupuesto: Option<string>): (m: nat)
    ensures m == 13 <==> presupuesto == Some("Más de €5,000")
    ensures m == 11 <==> presupuesto == Some("€2,000 - €5,000")
    ensures m == 10 <==> presupuesto != Some("Más de €5,000") && presupuesto != Some("€2,000 - €5,000")
  {
    if presupuesto == Some("Más de €5,000") then 13
    else if presupuesto == Some("€2,000 - €5,000") then 11
    else 10
  }

  /** `Math.round(n / d)`: the nearest integer, halves rounded up. */
  function RoundHalfUp(n: int, d: int): (r: int)
    requires d > 0
    ensures 2 * d * r <= 2 * n + d < 2 * d * (r + 1)
  {
    (2 * n + d) / (2 * d)
  }

  /** Rounding a whole number of tenths that is a multiple of ten is exact. */
  lemma RoundTensExact(q: int)
    ensures RoundHalfUp(q * 10, 10) == q
  {
    var r := RoundHalfUp(q * 10, 10);
    assert 20 * r <= 20 * q + 10 < 20 * r + 20;
  }

  /** Each item's price scaled by the multiplier and rounded; names and order kept. */
  function AdjustItems(items: seq<Item>, tenths: nat): (r: seq<Item>)
    ensures |r| == |items|
    ensures forall k | 0 <= k < |r| ::
      r[k].name == items[k].name && r[k].price == RoundHalfUp(items[k].price * tenths, 10)
  {
    if items == [] then []
    else [Item(items[0].name, RoundHalfUp(items[0].price * tenths, 10))] + AdjustItems(items[1..], tenths)
  }

  /** `items.reduce((sum, item) => sum + item.price, 0)`. */
  function Sum(items: seq<Item>): int {
    if items == [] then 0 else items[0].price + Sum(items[1..])
  }

  /**
   * `calculateQuote(servicio, formData)` with the validity date as a parameter;
   * `None` when the lookup finds no tier and `quote.items.map` throws.
   */
  function CalculateQuote(servicio: string, presupuesto: Option<string>, validUntil: string): (q: Option<Quote>)
    ensures q.None? <==> Lookup(servicio).None?
    ensures q.Some? ==>
      var tier := Lookup(servicio).value;
      && q.value.service == servicio && q.value.validUntil == validUntil
      && q.value.basePrice == tier.base
      && q.value.multiplierTenths == MultiplierTenths(presupuesto)
      && q.value.items == AdjustItems(tier.items, MultiplierTenths(presupuesto))
      && q.value.total == Sum(q.value.items)
  {
    match Lookup(servicio)
    case None => None
    case Some(tier) =>
      var tenths := MultiplierTenths(presupuesto);
      var items := AdjustItems(tier.items, tenths);
      Some(Quote(servicio, items, Sum(items), tier.base, tenths, validUntil))
  }

  /** Every price is a whole number of tens. */
  predicate PricesInTens(items: seq<Item>) {
    forall k | 0 <= k < |items| :: items[k].price % 10 == 0
  }

  /** When every price is a multiple of ten, scaling and rounding are exact, so the sum scales too. */
  lemma {:induction false} AdjustedSumExact(items: seq<Item>, tenths: nat)
    requires PricesInTens(items)
    ensures Sum(AdjustItems(items, tenths)) * 10 == Sum(items) * tenths
  {
    if items != [] {
      var p := items[0].price;
      assert p == (p / 10) * 10;
      RoundTensExact(p / 10 * tenths);
      assert p * tenths == (p / 10 * tenths) * 10;
      assert AdjustItems(items, tenths)[1..] == AdjustItems(items[1..], tenths);
      assert PricesInTens(items[1..]) by {
        forall k | 0 <= k < |items| - 1 ensures items[1..][k].price % 10 == 0 {
          assert items[1..][k] == items[k + 1];
        }
      }
      AdjustedSumExact(items[1..], tenths);
    }
  }

  /** A table entry whose breakdown adds up to its base price, with every price a whole number of tens. */
  predicate Consistent(t: Tier) {
    Sum(t.items) == t.base && PricesInTens(t.items)
  }

  /** Every entry of the table is consistent. */
  lemma TableConsistent(service: string)
    requires service in Table
    ensures Consistent(Table[service])
  {
    if service == "Desarrollo Web" {
      WebTierConsistent();
    } else if service == "Integración de IA" {
      AITierConsistent();
    } else if service == "Apps Web Progresivas" {
      PwaTierConsistent();
    } else if service == "E-commerce" {
      ShopTierConsistent();
    } else {
      ConsultingTierConsistent();
    }
  }

  /** Web development: 300 + 400 + 100 is its base of 800. */
  lemma WebTierConsistent()
    ensures Consistent(WebTier)
  {
    assert Sum(WebTier.items) == 300 + 400 + 100;
  }

  /** AI integration: 200 + 600 + 400 is its base of 1200. */
  lemma AITierConsistent()
    ensures Consistent(AITier)
  {
    assert Sum(AITier.items) == 200 + 600 + 400;
  }

  /** Progressive web apps: 800 + 300 + 200 + 200 is its base of 1500. */
  lemma PwaTierConsistent()
    ensures Consistent(PwaTier)
  {
    assert Sum(PwaTier.items) == 800 + 300 + 200 + 200;
  }

  /** E-commerce: 1000 + 400 + 400 + 200 is its base of 2000. */
  lemma ShopTierConsistent()
    ensures Consistent(ShopTier)
  {
    assert Sum(ShopTier.items) == 1000 + 400 + 400 + 200;
  }

  /** Consulting: 200 + 100 + 100 is its base of 400. */
  lemma ConsultingTierConsistent()
    ensures Consistent(ConsultingTier)
  {
    assert Sum(ConsultingTier.items) == 200 + 100 + 100;
  }

  /** The total is the base price scaled by the multiplier, exactly: no rounding is ever lost. */
  lemma TotalIsScaledBase(servicio: string, presupuesto: Option<string>, validUntil: string)
    requires servicio !in InheritedNames
    ensures var q := CalculateQuote(servicio, presupuesto, validUntil);
      q.Some? && q.value.total * 10 == q.value.basePrice * q.value.multiplierTenths
  {
    var tier := Lookup(servicio).value;
    TableConsistent(if servicio in Table then servicio else DefaultService);
    AdjustedSumExact(tier.items, MultiplierTenths(presupuesto));
  }

  /**
   * A name that is neither a table key nor inherited is priced as web
   * development but keeps its own name in the quote.
   */
  lemma UnknownServiceFallsBack(servicio: string, presupuesto: Option<string>, validUntil: string)
    requires servicio !in Table && servicio !in InheritedNames
    ensures var q := CalculateQuote(servicio, presupuesto, validUntil);
      q.Some? && q.value.service == servicio && q.value.basePrice == 800
      && q.value.total * 10 == 800 * q.value.multiplierTenths
  {
    TotalIsScaledBase(servicio, presupuesto, validUntil);
  }

}
